# A Dafny model of the media-streaming back end's core

This project models the decision logic of a small media-streaming back end written in Go:

- **The transcode worker** is the conversion service, a gRPC server.
  - It checks a shared secret on every call.
  - It derives the HLS playlist (`.m3u8`) and segment (`.ts`) keys from the source key, with the playlist content type of section 4 of RFC 8216.
  - It downloads the source, runs the encoder and uploads the playlist and then the segment, both public-read.
  - Afterwards it queues two background goroutines: deletion of the source and removal of the scratch files.
  - An older, buggy variant of the same pipeline (`convert.go`) is modelled as its own module.
- **The content services.**
  - The upload key comes from the content id and the file's extension.
  - After the conversion call, the commit step records the returned key.
  - Database rows are projected onto API records, with a CDN URL for the media.
  - The older content service's handlers are modelled: paging, a user's uploads, detail, and the presigned upload URL.
  - An identity cache maps an access token to a user, filled from the user service on a miss.
- **The user services.**
  - The bearer-header and JWT checks of the HTTP middlewares are modelled.
  - So are the gRPC shared-secret interceptor and `UserDetail`.
  - Sign-up, login, profile update and password change run over an abstract users table.

Every foreign call is a parameter of the model, and so is every foreign outcome:

- S3 is an object map whose get, put and delete can fail.
- The encoder is success with output files, or failure.
- The JWT verifier, bcrypt, the validators, UUID parsing, JSON encoding, the Redis cache and the database queries are parameters or atomic map operations.
- The clock and the environment variables are parameters too.

The program's effects follow its form:

- Code that changes state step by step is written as methods on classes (`Storage.Host`, `Gin.Context`, `UserStore.UserDb`, `IdentityCache.Cache`, `ContentCommit.ContentBackend`).
- Each of these methods is proved equal to a specification function over a snapshot of the state.
- The properties are proved about those functions.

A few Go behaviours are written out explicitly:

- A Go panic (an out-of-range index after `strings.Split`) is an explicit outcome: `None`, `IndexPanic`, `Panicked`, or `Crashed` for a gRPC handler.
- `log.Fatalln` ends the process, modelled as `Exit`; the gRPC equivalent is `Crashed`.
- Goroutines are tasks queued on the host, run one at a time in order.
- The `int32` narrowing of the paging offset is modelled bit-exactly.

Behaviours of the code worth knowing:

- Both gRPC interceptors answer InvalidArgument for missing metadata and Unauthenticated for a bad token. They accept the bare secret as well as `Bearer <secret>`, because `strings.TrimPrefix` only strips a prefix that is present.
- `UpdateContentS3Key` returns nothing to its caller: a failed conversion call and a failed database write are only logged.
- When the segment upload fails after the playlist upload succeeded, the playlist stays published; the job does not undo it.
- On a profile update, an address already taken by another account is answered with 500, not a 4xx status.

## Model

| member | source | states |
|---|---|---|
| SharedSecret.Valid | src/conversion_service/main.go:27-33 | No value is never valid; otherwise valid exactly when the first value is "Bearer " plus the secret, or is the bare secret when the secret does not itself start with "Bearer " |
| SharedSecret.EnsureValidToken | src/conversion_service/main.go:35-45 | Missing metadata is InvalidArgument, an invalid token Unauthenticated, and the call is admitted if and only if the metadata is present and its authorization values are valid |
| TranscodeWorker.DerivedKeysKeepPrefix | src/conversion_service/main.go:164-165 | `PlaylistKey` and `SegmentKey` (the two derived keys) keep any dot-free prefix of the source key (so its "audio/" or "video/" category) and are that prefix, the stem of the rest, and ".m3u8" or ".ts" |
| TranscodeWorker.DerivedKeysDeterminedByStem | src/conversion_service/main.go:164-165 | Two source keys give the same playlist key, and the same segment key, exactly when their stems before the first '.' agree; a playlist key is never a segment key |
| TranscodeWorker.AudioExampleKeys | src/conversion_service/main.go:164-165 | "audio/abc.mp3" gives "audio/abc.m3u8" and "audio/abc.ts" |
| TranscodeWorker.LocalNames | src/conversion_service/main.go:167-169 | The scratch names are the second '/'-separated pieces of the source, playlist and segment keys |
| TranscodeWorker.LocalNamesDefined | src/conversion_service/main.go:167-169 | The three scratch names exist (no index panics) exactly when a '/' occurs before the key's first '.' |
| TranscodeWorker.EncoderCommand | src/conversion_service/main.go:182-188 | The command reads the source file and writes the playlist file, asks for single-file VOD HLS with AAC audio, and drops video ("-vn") exactly for audio and encodes libx265 exactly for video |
| TranscodeWorker.AudioOptionsChosen | src/conversion_service/main.go:184 | The audio options pair "-hls_playlist_type" with "vod", "-hls_flags" with "single_file", "-c:a" with "aac", contain "-vn" and no libx265 codec |
| TranscodeWorker.VideoOptionsChosen | src/conversion_service/main.go:187 | The video options pair "-hls_playlist_type" with "vod", "-hls_flags" with "single_file", "-c:a" with "aac" and "-c:v" with "libx265", and contain no "-vn" |
| TranscodeWorker.DownloadSpec | src/conversion_service/main.go:88-112 | A download records one get, changes no object and no task, succeeds exactly when the store is reached, the object exists and the file is saved, and then the scratch file holds the object's bytes |
| TranscodeWorker.UploadSpec | src/conversion_service/main.go:114-134 | A missing local file fails with no call; otherwise one public-read put with the given content type, which on success stores the file's bytes under the key and on failure changes no object |
| TranscodeWorker.Job | src/conversion_service/main.go:156-219 | A successful job returns exactly the playlist key |
| TranscodeWorker.JobSuccess | src/conversion_service/main.go:198-216 | A successful job had its source and an encoder result; it stores exactly the playlist and the segment, public-read with their HLS content types and the scratch files' bytes, and queues the source deletion then the scratch cleanup |
| TranscodeWorker.JobSuccessEffects | src/conversion_service/main.go:171-208 | A successful job's calls are, in order, the download, the encoder with the command for its media type, the playlist put and the segment put |
| TranscodeWorker.JobFailure | src/conversion_service/main.go:171-208 | A failed job queues nothing (the source is never retired) and stores nothing unless it failed at an upload |
| TranscodeWorker.JobFailureAtUpload | src/conversion_service/main.go:198-208 | A job failing at an upload leaves the store unchanged or with only the playlist added |
| TranscodeWorker.JobNeverDeletes | src/conversion_service/main.go:156-219 | Whatever its outcome, a job only appends calls to the store, none of them a delete |
| TranscodeWorker.JobMissingSource | src/conversion_service/main.go:171-174 | A missing source object fails the job with no object written and nothing queued, after at most one get |
| TranscodeWorker.DownloadFileFromS3 | src/conversion_service/main.go:88-112 | The method's success and new host state are those of the download specification |
| TranscodeWorker.UploadFileToS3 | src/conversion_service/main.go:114-134 | The method's success and new host state are those of the upload specification; every failure is reported |
| TranscodeWorker.ConvertMediaFile | src/conversion_service/main.go:156-219 | The method's result and new host state are exactly those of the job specification |
| TranscodeWorker.ConversionReply | src/conversion_service/main.go:68-77 | An index panic crashes the process, any other error is Internal "something went wrong", and success answers with exactly the job's key |
| TranscodeWorker.Conversion | src/conversion_service/main.go:68-77 | The handler's reply is the job's result mapped as above, and the host ends as the job leaves it |
| TranscodeWorker.Serve | src/conversion_service/main.go:35-45 | A rejected call gets the interceptor's code and message and leaves the host untouched; an admitted call runs the job |
| TranscodeWorker.RemoveFiles | src/conversion_service/main.go:147-154 | After the loop, exactly the named scratch files are gone and nothing else changed |
| TranscodeWorker.DeleteFileFromS3 | src/conversion_service/main.go:136-145 | One delete call is recorded; the object is gone if it succeeded, and a failure changes nothing else |
| TranscodeWorker.RunNextTask | src/conversion_service/main.go:213-216 | Running the oldest queued goroutine deletes its object or removes its files, as `RunTask` says |
| TranscodeWorker.ClipIsOwnSegmentKey | src/conversion_service/main.go:165 | "video/clip.ts" is its own segment key |
| TranscodeWorker.RetireRemovesOwnOutput | src/conversion_service/main.go:164-165 | As written, for a source key equal to its segment key, the segment is published and then removed by the first queued goroutine |
| TranscodeWorker.SafeJob | src/conversion_service/main.go:156-219 | The corrected job has the same result as the job as written |
| TranscodeWorker.SafeJobKeepsOutputs | src/conversion_service/main.go:199-216 | With the corrected job, both published outputs survive the goroutines it queues, run in order, whatever the delete's outcome |
| TranscodeWorker.CleanupQueuedKeeps | src/conversion_service/main.go:213-216 | A lone cleanup, or a delete of a third object followed by the cleanup, keeps both outputs |
| TranscodeWorker.TasksKeep | src/conversion_service/main.go:213-216 | The first two queued goroutines keep every object no queued goroutine deletes |
| TranscodeWorker.RunTaskKeeps | src/conversion_service/main.go:213-216 | A goroutine keeps every object it is not the deletion of |
| LegacyWorker.GetFileNameIsPlaylistKey | src/conversion_service/convert.go:72-75 | The older name `GetFileName` is the current playlist key, and a key without '.' just gains ".m3u8" |
| LegacyWorker.ScratchPathsDistinct | src/conversion_service/convert.go:85-86 | The download path and the output path never coincide |
| LegacyWorker.AudioCommandLosesOutput | src/conversion_service/convert.go:94-100 | As written, the audio command gives the output path as the value of "-hls_playlist_type" and has no "vod"; the video command is "-hls_playlist_type vod" then the output |
| LegacyWorker.DownloadFileSpec | src/conversion_service/convert.go:25-50 | One get is recorded, objects and tasks are unchanged, and the file is saved exactly when the store is reached, the object exists and the save succeeds |
| LegacyWorker.UploadFileSpec | src/conversion_service/convert.go:52-70 | As written, success is reported exactly when the local file exists; the put carries no content type and no ACL, and it stores the object only if the store accepted it |
| LegacyWorker.UploadFileHidesPutFailure | src/conversion_service/convert.go:60-66 | A refused put and an accepted put are both reported as success, though only the second stores the object |
| LegacyWorker.CheckedUploadFileSpec | src/conversion_service/convert.go:52-70 | The corrected upload succeeds exactly when the file exists and the put is accepted, and then the object holds the file's bytes; otherwise no object changes |
| LegacyWorker.LegacyJob | src/conversion_service/convert.go:77-110 | A client error exits with nothing done; with a client, the run exits exactly when the encoder fails |
| LegacyWorker.DownloadResultIgnored | src/conversion_service/convert.go:89 | With a working client the encoder always runs right after the download call, whatever the download did |
| LegacyWorker.EncoderFailureExits | src/conversion_service/convert.go:103-106 | An encoder failure exits before any put and queues nothing |
| LegacyWorker.LegacyNeverPublishesPlaylist | src/conversion_service/convert.go:109 | As written, the one upload queued sends the saved source back to its own key, so the only object written is the source, and the playlist key is never written |
| LegacyWorker.DownloadFile | src/conversion_service/convert.go:25-50 | The method's success and new state are those of the download specification |
| LegacyWorker.UploadFile | src/conversion_service/convert.go:52-70 | The method's result and new state are those of the upload specification as written |
| LegacyWorker.LegacyConvertMediaFile | src/conversion_service/convert.go:77-110 | The method's exit flag and new state are exactly those of the older job specification |
| LegacyWorker.RunNextUpload | src/conversion_service/convert.go:109 | Running the queued upload has the effect `RunUploadTask` gives it, which is that of the upload specification |
| UploadKeys.GetUniqueFilename | src/services/content/api/utils.go:5-12 | A key exists exactly when the file name has a '.'; without one the index panics |
| UploadKeys.UniqueFilenameParts | src/services/content/api/utils.go:6-11 | For "base.ext[.more]", the key is the category, the id, "." and exactly "ext", starting with "audio/" for audio and "video/" for video |
| UploadKeys.TarGzKeepsTar | src/services/content/api/utils.go:6 | "a.tar.gz" keeps only "tar" |
| ContentCommit.UpdateContentS3KeySpec | src/services/content/internal/conversion.go:11-38 | Exactly one conversion call is made, carrying "Bearer " and the secret; on its failure no write happens and the keys are unchanged |
| ContentCommit.CommitWritesAnsweredKey | src/services/content/internal/conversion.go:26-35 | On an answer, the one write is the parameters with only the key replaced by the answered key, marked valid; that row holds it if the write succeeds, and no other row changes |
| ContentCommit.ContentBackend.ProcessContentMedia | src/services/content/internal/conversion.go:19 | One conversion call is recorded with the key, the audio flag and "Bearer " plus the secret; the answer is returned |
| ContentCommit.ContentBackend.UpdateContentS3KeyDB | src/services/content/internal/conversion.go:32-35 | The write is recorded; the row with that id takes the new key if the write succeeds and the row exists |
| ContentCommit.UpdateContentS3Key | src/services/content/internal/conversion.go:11-38 | The method's new state is exactly that of the commit specification |
| ContentProjection.DatabaseContentToContent | src/services/content/api/models.go:29-48 | The fields are copied, and a URL exists exactly when the stored key's text is non-empty |
| ContentProjection.UrlNamesKey | src/services/content/api/models.go:32-37 | The URL is the CDN base, "/" and the key, so two records share a URL exactly when they share a key |
| ContentProjection.DatabaseContentListToContentList | src/services/content/api/models.go:50-64 | The list has the rows' length and order with each field copied, and the error is always nil |
| ContentProjection.DatabaseUserContentListToContentList | src/services/content/api/models.go:66-80 | The same holds for a user's uploads |
| IdentityCache.DecodeEncode | src/content_service/internal/models.go:15-27 | Decoding the encoding of a user gives the user back |
| IdentityCache.GetUserDetailSpec | src/content_service/internal/users.go:21-56 | A live entry that decodes is the answer with nothing changed; otherwise at most one user-service call with the token; a failed lookup caches nothing |
| IdentityCache.MissGoesToUserService | src/content_service/internal/users.go:27-55 | On a miss the user service is called once with the token: its failure is returned uncached, its answer is cached for an hour under the token and returned field for field, and a failed cache write fails the call |
| IdentityCache.SecondLookupHits | src/content_service/internal/users.go:26-55 | After a successful miss, the same token within the hour gets the same user from the cache, with no further call |
| IdentityCache.Cache.Get | src/content_service/internal/users.go:26-27 | The read returns the bytes of the entry that `Live` (set within the hour) admits, or an error when the entry is missing or expired or the cache is unreachable |
| IdentityCache.Cache.FetchUserDetail | src/content_service/internal/users.go:35 | One user-service call with the token is recorded and its answer returned |
| IdentityCache.GetUserDetail | src/content_service/internal/users.go:21-56 | The method's result and new cache state are exactly those of the lookup specification |
| Tokens.ExpiryBoundary | src/user_service/cmd/grpc/main.go:92-94 | `Expired` holds from exactly the token's expiry second on and stays true, and not before that second |
| Tokens.CheckToken | src/user_service/cmd/grpc/main.go:86-100 | A bad signature or an expired token is refused, checked in that order; the token passes exactly when it verifies, is live and carries a UUID, and then the result is that UUID |
| UserGrpc.BearerCallersNeedTheConstant | src/user_service/cmd/grpc/main.go:26-32 | A "Bearer k" caller is admitted exactly when k is the fixed secret |
| UserGrpc.UserDetail | src/user_service/cmd/grpc/main.go:70-113 | No database connection ends the process; a failed token check is PermissionDenied; success happens exactly when the token checks pass and the account is found, and then it is that account's id, name and e-mail; a failed or empty lookup after good token checks is Internal "something went wrong" |
| UserGrpc.ExpiringNowIsRefused | src/user_service/cmd/grpc/main.go:92-94 | A token whose expiry second is now is refused as expired |
| UserGrpc.Serve | src/user_service/cmd/grpc/main.go:34-44 | A rejected call gets the interceptor's code and message; an admitted call is answered by UserDetail; success implies valid metadata |
| BearerHeader.BearerToken | src/services/user/api/middleware.go:28-35 | An accepted token contains no space |
| BearerHeader.BearerTokenExactly | src/services/user/api/middleware.go:28-35 | A header is accepted with a token exactly when it is "Bearer " followed by that token, with no space in the token |
| UserMiddleware.JwtAuthVerdict | src/services/user/api/middleware.go:17-73 | An empty header and a malformed header get their 403 messages; every refusal is 403; a request passes exactly when the header, the token checks and the lookup all succeed, and then with the account the token names |
| UserMiddleware.PassExactly | src/services/user/api/middleware.go:28-71 | For "Bearer <token>", the request passes exactly when the token checks and the lookup succeed, and the account passed on has the token's id |
| UserMiddleware.JwtAuth | src/services/user/api/middleware.go:17-73 | On a pass "user" is set and the next handler runs; on a refusal the response is written and the chain aborted, with "user" and the next handler untouched |
| ContentMiddleware.HeaderVerdict | src/content_service/api/middleware.go:15-31 | A header gets no early answer exactly when it is non-empty and of the bearer form; an early answer is 403 |
| ContentMiddleware.JwtAuth | src/content_service/api/middleware.go:13-45 | A malformed header is answered 403 with no cache read and no call; otherwise the lookup decides, 500 on its failure and "user" plus the next handler on success |
| UserView.DatabaseUserToUser | src/services/user/api/models.go:18-24 | The view has the row's id, name and e-mail |
| UserStore.FindByEmail | src/user_service/database/crud.go:10-16 | A found index holds the address, and none is found exactly when no row holds it |
| UserStore.FindById | src/user_service/database/crud.go:19-25 | A found index holds the id, and none is found exactly when no row holds it |
| UserStore.AppendKeepsGood | src/user_service/api/auth.go:53-90 | Adding an account with a lower-case address and an id both new keeps addresses lower-case and unique and ids unique |
| UserStore.ReplaceKeepsGood | src/services/user/api/users.go:91-110 | Replacing a row, same id, by one whose lower-case address is its own or free keeps the table invariant |
| UserStore.UserDb.GetUserByEmail | src/user_service/database/crud.go:10-16 | A row is returned exactly when the query succeeds and the address is stored, and it is that row |
| UserStore.UserDb.GetUserById | src/user_service/database/crud.go:19-25 | A row is returned exactly when the query succeeds and the id is stored, and it is that row |
| UserStore.UserDb.UpdateUserDetails | src/user_service/database/crud.go:28-49 | On success only that row's name, address and modification time change, and the new row is returned; otherwise nothing changes |
| UserStore.UserDb.UpdateUserPassword | src/user_service/database/crud.go:52-72 | On success only that row's hash and modification time change; updating no row is not an error |
| UserStore.UserDb.Begin | src/user_service/api/auth.go:60-65 | A transaction opens with nothing staged, or the begin fails |
| UserStore.UserDb.CreateUser | src/user_service/api/auth.go:70-90 | The insert is staged and not visible |
| UserStore.UserDb.Commit | src/user_service/api/auth.go:102-107 | The staged rows become visible together on success, or not at all |
| UserStore.UserDb.Rollback | src/user_service/api/auth.go:66 | What is still staged is discarded, and the table is unchanged |
| UserProfile.GetUserFromCtx | src/services/user/api/users.go:18-32 | A missing key is "authentication required" and a value of another type "invalid user"; the account is returned exactly when one is stored under "user" |
| UserProfile.GetUserProfile | src/services/user/api/users.go:35-42 | The account is returned with 200 exactly when the context holds one; otherwise 403 with the reason |
| UserProfile.UpdateProfileSpec | src/services/user/api/users.go:45-121 | No account in the context is 403 with the reason, an unreadable body 400, and an address (given, or kept) that fails the validator 400 "Invalid email address", all with the table unchanged; only a 200 reply changes the table |
| UserProfile.EmptyUpdateTouchesNothing | src/services/user/api/users.go:66-69 | A body with neither field is 400 "Invalid request data", whatever the table holds, and the table is unchanged |
| UserProfile.UpdateWritesOwnRow | src/services/user/api/users.go:72-119 | A successful update changes only the caller's row: the name given or kept, the lower-cased address given or kept (which passed the validator as given), the same id and hash; the reply shows that row |
| UserProfile.UpdateRefusesTakenAddress | src/services/user/api/users.go:91-96 | A given address whose lower-cased form differs from the caller's and is held by a stored account is refused with 500 "User with this email address already exists", and the table is unchanged |
| UserProfile.UnchangedAddressSkipsLookup | src/services/user/api/users.go:76-96 | With no address given, the answer and the table are the same whether or not the uniqueness lookup would succeed: the lookup is not made |
| UserProfile.UpdateKeepsGoodTable | src/services/user/api/users.go:82-110 | With the stored account in the context and an answering lookup, an update keeps addresses lower-case and unique |
| UserProfile.UpdateUserProfile | src/services/user/api/users.go:45-121 | The method's reply and new table are exactly those of the update specification, and no transaction is touched |
| UserProfile.ChangePasswordSpec | src/services/user/api/users.go:141-219 | No account in the context is 403, a missing field 400, a failed lookup ends the process, a wrong old password is 400 "Invalid old password, Please try again." and an unchanged one 400 "New password should not be same as old password", all with the table unchanged; only the 200 success reply changes the table |
| UserProfile.PasswordChangeRules | src/services/user/api/users.go:170-215 | A changed password means the old one matched, the new one differs and passed the validator for the stored address, and only that row's hash and modification time changed |
| UserProfile.ChangePassword | src/services/user/api/users.go:141-219 | The method's reply and new table are exactly those of the password specification |
| UserAuth.SignUpSpec | src/user_service/api/auth.go:17-111 | An unbound body is 400; a password the validator refuses is 400 with the validator's message, and a failed hash 500, before and whatever the database does; a data reply is 201, and every other reply leaves the table unchanged |
| UserAuth.SignUpCreatesExactlyOnSuccess | src/user_service/api/auth.go:60-109 | An account is created exactly when binding, validation, hashing, the free-address check, begin, insert, token generation and commit all succeed; it is one row with the lower-cased address, the hash and equal timestamps, and the reply carries its tokens |
| UserAuth.SignUpRefusesTakenAddress | src/user_service/api/auth.go:53-57 | A taken address, in any letter case, is 403 and the table is unchanged |
| UserAuth.SignUpKeepsGoodTable | src/user_service/api/auth.go:34-90 | With an answering lookup and a fresh id, sign-up keeps addresses lower-case and unique |
| UserAuth.SignUp | src/user_service/api/auth.go:17-111 | The method's reply and table are those of the sign-up specification, and after a begin nothing stays staged |
| UserAuth.Login | src/user_service/api/auth.go:114-158 | Tokens are issued exactly when the lower-cased address finds an account whose hash matches the password and token generation succeeds; an unbound body is 400, an unknown address or failed lookup 400 "User does not exists, Please check your credentials", a mismatched password 400 "Invalid password", and a failed token generation 500 |
| UserAuth.LoginIgnoresCase | src/user_service/api/auth.go:131-135 | An address and its lower-cased form get the same answer |
| ContentApi.GetOffset | src/content_service/api/content.go:20-31 | The offset fits int32, and a value that is not an integer reads as 0 |
| ContentApi.OffsetReadsBack | src/content_service/api/content.go:26-30 | A decimal int64 reads back as its int32 narrowing: itself when it fits, otherwise congruent modulo 2^32 |
| ContentApi.ConvertedList | src/content_service/api/models.go:44-55 | The conversion exists exactly when every item is an API entry, and then it is those entries in order |
| ContentApi.DatabaseContentListToContentList | src/content_service/api/models.go:44-55 | No error exactly when every item is an entry, and then the full list; otherwise the error stops at the first non-entry, returning the entries before it as a prefix |
| ContentApi.ProjectedList | src/content_service/api/models.go:44-55 | The corrected conversion keeps length and order, projecting each row onto its fields |
| ContentApi.ProjectedListExtendsConversion | src/content_service/api/models.go:44-55 | Where the original conversion succeeds, the corrected one agrees with it |
| ContentApi.PageReply | src/content_service/api/content.go:55-70 | A failed query exits, a failed conversion is 500, and otherwise the page is served with 200, an empty page as an empty list |
| ContentApi.GetContentList | src/content_service/api/content.go:46-72 | The query asks for ten rows from the parsed offset; a failed query exits, and the page is served exactly when every item is an entry |
| ContentApi.CatalogueOfRowsFails | src/content_service/api/content.go:61-65 | As written, a page holding a database row is answered 500 |
| ContentApi.GetContentListProjected | src/content_service/api/content.go:46-72 | The corrected handler serves any answered page, projected |
| ContentApi.CatalogueOfRowsServed | src/content_service/api/content.go:61-70 | With the projection, a page of rows is served in full, each row as its entry, in order |
| ContentApi.GetUserID | src/content_service/api/content.go:33-44 | A missing "userID" is an error; an id is returned exactly when the value is present and parses as a UUID |
| ContentApi.UserContentListing | src/content_service/api/content.go:74-108 | An id error exits with no query; otherwise ten of the caller's rows from the offset, answered as the catalogue is |
| ContentApi.GetUserContentList | src/content_service/api/content.go:74-108 | Without "userID" in the context the handler exits and queries nothing |
| ContentApi.UploadsBehindMiddlewareExit | src/content_service/api/content.go:33-37 | As written, behind the middleware, which sets only "user", the uploads handler never queries and the process exits |
| ContentApi.GetUserIDFromUser | src/content_service/api/content.go:33-44 | The corrected id is the stored user's id when it parses, and an error otherwise |
| ContentApi.GetUserContentListFromUser | src/content_service/api/content.go:74-108 | The corrected handler queries only when a user is stored |
| ContentApi.UploadsBehindMiddlewareQueryCaller | src/content_service/api/content.go:74-108 | Behind the middleware, the corrected handler asks for the caller's own uploads |
| ContentApi.DatabaseContentToContent | src/content_service/api/models.go:31-42 | The URL is always empty, the given user is passed through, and the other fields are copied |
| ContentApi.DetailHidesMedia | src/content_service/api/models.go:40 | Two rows differing only in their media key give the same record |
| ContentApi.GetContentDetail | src/content_service/api/content.go:110-129 | An id that is not a UUID is 400 with no lookup; a failed lookup exits; otherwise the record |
| ContentApi.Getenv | src/content_service/api/content.go:159 | An unset variable reads as "" |
| ContentApi.PresignKey | src/content_service/api/content.go:160 | A key exists exactly when the file name has a '.' |
| ContentApi.PresignKeyLacksCategory | src/content_service/api/content.go:160 | The presign key exists exactly when the upload key does, and the upload key is the same key under the category directory |
| ContentApi.PresignIn | src/content_service/api/content.go:131-170 | A missing field is 400 with no request; a presign is requested exactly when the body is complete, the configuration loads and the name has a '.'; it is the bucket variable and the key; the URL is served exactly when presigning succeeds |
| ContentApi.GetPresignedUrl | src/content_service/api/content.go:159 | As written, the presign's bucket is the value of AWS_REGION |
| ContentApi.PresignMissesWorkerBucket | src/content_service/api/content.go:159 | When AWS_REGION and AWS_BUCKET_NAME differ, the presign targets a bucket the worker does not read |
| ContentApi.GetPresignedUrlToBucket | src/content_service/api/content.go:131-170 | The corrected presign targets the worker's bucket, and a served URL is the presigned one |
| EndToEnd.UploadKeyConverts | src/services/content/api/utils.go:5-12 | For an id without '.', an upload key has scratch names, and the worker publishes the category, the id and ".m3u8" or ".ts" |
| EndToEnd.ClientBearerAdmitted | src/services/content/internal/grpc.go:50 | The content service's "Bearer " plus its key is admitted by the worker exactly when the two keys are equal |
| EndToEnd.RpcAnswer | src/services/content/internal/conversion.go:19-27 | The content service reads a key exactly from a successful reply, and it is the reply's key |
| EndToEnd.CommittedKeyIsPublished | src/services/content/internal/conversion.go:19-35 | A key is written exactly when the job succeeded, and it is the playlist just published, public-read, with the playlist content type |
| EndToEnd.PresignedKeyEndsWorker | src/content_service/api/content.go:160 | A presigned key under a bare id cannot be named by the worker, and a call past the client check crashes it |
| EndToEnd.ServeUserContent | src/content_service/api/middleware.go:13-45 | Through the middleware, the uploads route never queries: the request is refused with 403 or 500, or the process exits |

## Left out

- S3, ffmpeg, JWT signing and verification, bcrypt, the validators, UUID parsing and Redis are foreign libraries: each is a parameter or an abstract map operation.
- The JSON encoding of the cached user is abstracted by its result: cached bytes are either bytes that decode to a user or bytes that fail to decode, and the encode/decode round trip is taken as given rather than derived from a byte-level JSON model.
- The database queries are generated code that is not part of this model. They appear as atomic reads and writes on a users table, a content key map and a transaction with staged inserts.
- The clock, the environment variables and the gRPC client setup are parameters. Of the client plumbing, only the "Bearer " plus key authorization value is kept.
- Goroutines run in the order they were queued, one at a time, to completion. Interleavings and concurrent requests are not modelled.
- Partially written scratch files after a failed save are not modelled: a failed save leaves no file.
- Nil slices are modelled as empty sequences. A token with no expiry claim (a nil `ExpiresAt`) is not modelled.
- `deleteUserProfile` (services/user/api/users.go:124-138) and `RefreshAccessToken` (user_service/api/auth.go:163-187) are not modelled. They are outside the account rules covered here.
- Routing, server bootstrap and logging are not modelled. For example, the presign handler is not wired to any route in routes.go.
- The older content service does not compile as written.
  - content.go:127 calls the two-argument `databaseContentToContent` with one argument; `ContentApi.GetContentDetail` takes the user as a parameter.
  - The database layer returns `[]interface{}`; its elements are modelled as a datatype of the dynamic types.
- The response-writing order of Gin (headers and body) is not modelled: a response is its status and message, plus the abort and next flags.
- `strings.ToLower` is ASCII-only here. Go also lower-cases non-ASCII letters.
- TranscodeWorker.Job: its own contract states only the success key; the rest of its behaviour is stated by JobSuccess, JobSuccessEffects, JobFailure, JobFailureAtUpload, JobNeverDeletes and JobMissingSource.

## Findings

| source | as written | input that shows it | evidently intended | confidence | as-written member | corrected member |
|---|---|---|---|---|---|---|
| src/conversion_service/main.go:164-165 | A source key is queued for deletion after publishing, even when it equals one of the output keys | key "video/clip.ts": its segment key is itself, so the first goroutine deletes the just-published segment (on such a key the encoder's input and segment share the scratch file "clip.ts"; the model takes the encoder's outcome as given) | Do not retire a source that is one of the outputs | not executed | TranscodeWorker.RetireRemovesOwnOutput | TranscodeWorker.SafeJobKeepsOutputs |
| src/conversion_service/convert.go:60-66 | `uploadFile` returns nil when PutObject fails | any upload the store refuses: reported as success, with no object stored | Return the PutObject error | not executed | LegacyWorker.UploadFileHidesPutFailure | LegacyWorker.CheckedUploadFileSpec |
| src/conversion_service/convert.go:96 | The audio command has "-hls_playlist_type" with no "vod", so the output path becomes its value | any audio key: the arguments end "-hls_playlist_type /output/<name>.m3u8" | "-hls_playlist_type vod" followed by the output path, as in the video command | not executed | LegacyWorker.AudioCommandLosesOutput | TranscodeWorker.EncoderCommand |
| src/conversion_service/convert.go:109 | The downloaded source is uploaded back to its own key | any successful run: the playlist key is never written | Upload the encoder's playlist under the playlist key | not executed | LegacyWorker.LegacyNeverPublishesPlaylist | TranscodeWorker.JobSuccess |
| src/content_service/api/content.go:159 | The presign bucket is read from AWS_REGION | AWS_REGION "eu-west-1", AWS_BUCKET_NAME "media": the upload is presigned into bucket "eu-west-1" | Read the bucket variable the worker reads | not executed | ContentApi.PresignMissesWorkerBucket | ContentApi.GetPresignedUrlToBucket |
| src/content_service/api/content.go:34 | `getUserID` reads "userID", but the middleware (src/content_service/api/middleware.go:42) stores "user" | any authenticated request to the uploads route: the process exits with no query | Read the caller's id from the stored user | not executed | ContentApi.UploadsBehindMiddlewareExit | ContentApi.UploadsBehindMiddlewareQueryCaller |
| src/content_service/api/models.go:44-54 | The list conversion asserts every element is an API entry, but the database returns rows | any non-empty catalogue page: 500 | Project each row onto an entry | not executed | ContentApi.CatalogueOfRowsFails | ContentApi.CatalogueOfRowsServed |

/**
  How the services fit together: the key the content service gives an
  upload is one the transcode worker can convert, the worker admits the
  content service's calls exactly when both hold the same secret, the key
  the content service records is the playlist the worker published, and
  the older content service's uploads list can never be served.
*/
module EndToEnd {
  import opened Wrappers
  import opened GoStrings
  import opened Http
  import opened SharedSecret
  import opened Storage
  import opened UploadKeys
  import opened TranscodeWorker
  import opened ContentCommit
  import opened Gin
  import opened IdentityCache
  import ContentApi
  import ContentMiddleware

  /**
    An upload key from `getUniqueFilename`, for a content id without a dot,
    converts: its scratch names exist, and the playlist and segment the
    worker publishes are the category, the id, and ".m3u8" or ".ts".
  */
  lemma UploadKeyConverts(contentID: string, srcFilename: string, isAudioFile: bool)
    requires '.' !in contentID && '.' in srcFilename
    ensures var key := GetUniqueFilename(contentID, srcFilename, isAudioFile).value;
      && LocalNames(key).Some?
      && PlaylistKey(key) == Category(isAudioFile) + contentID + ".m3u8"
      && SegmentKey(key) == Category(isAudioFile) + contentID + ".ts"
  {
    var key := GetUniqueFilename(contentID, srcFilename, isAudioFile).value;
    var ext := Piece(srcFilename, '.', 1).value;
    var prefix := Category(isAudioFile) + contentID;
    CategoryShape(isAudioFile);
    assert key == prefix + ['.'] + ext;
    StemBeforeSep(prefix, ext, '.');
    LocalNamesDefined(key);
    assert prefix[5] == '/';
  }

  /**
    The content service sends "Bearer " and its key; the worker admits the
    call exactly when that key is the worker's secret.
  */
  lemma ClientBearerAdmitted(authKey: string, secret: string)
    ensures EnsureValidToken(Some(map["authorization" := [BearerPrefix + authKey]]), secret).Admit?
            <==> authKey == secret
  {
    var md: Metadata := map["authorization" := [BearerPrefix + authKey]];
    assert Values(md, "authorization") == [BearerPrefix + authKey];
    if BearerPrefix + authKey == BearerPrefix + secret {
      assert authKey == (BearerPrefix + authKey)[|BearerPrefix|..];
    }
    if BearerPrefix + authKey == secret {
      assert BearerPrefix <= secret;
    }
  }

  /** What the content service reads from a `Conversion` reply: the key on success. */
  function RpcAnswer(reply: RpcReply<ConversionResponse>): (answer: Option<string>)
    ensures answer.Some? <==> reply.RpcOk?
    ensures answer.Some? ==> answer.value == reply.value.key
  {
    if reply.RpcOk? then Some(reply.value.key) else None
  }

  /**
    One conversion seen from both sides: the content service writes a media
    key exactly when the worker's job succeeded, and the key it writes is the
    playlist the worker has just published, public-read with the HLS
    playlist content type.
  */
  lemma CommittedKeyIsPublished(st: State, key: string, isAudioFile: bool, env: Env,
                                cst: CommitState, params: UpdateS3KeyParams, authKey: string, dbOk: bool)
    ensures var o := Job(st, key, isAudioFile, env);
      var cst' := UpdateContentS3KeySpec(cst, params, key, isAudioFile, authKey, RpcAnswer(ConversionReply(o.result)), dbOk);
      && (|cst'.writes| > |cst.writes| <==> o.result.Ok?)
      && (o.result.Ok? ==>
            && cst'.writes[|cst.writes|].s3Key == NullText(PlaylistKey(key), true)
            && Loc(env.bucket, PlaylistKey(key)) in o.st.objects
            && o.st.objects[Loc(env.bucket, PlaylistKey(key))].contentType == PlaylistContentType
            && o.st.objects[Loc(env.bucket, PlaylistKey(key))].acl == PublicRead)
  {
    var o := Job(st, key, isAudioFile, env);
    var answer := RpcAnswer(ConversionReply(o.result));
    if o.result.Ok? {
      JobSuccess(st, key, isAudioFile, env);
      CommitWritesAnsweredKey(cst, params, key, isAudioFile, authKey, PlaylistKey(key), dbOk);
      DerivedKeysDeterminedByStem(key, key);
    }
  }

  /**
    The older content service presigns uploads under the bare content id. It
    never calls the transcode worker itself (its only gRPC client is the user
    service's); this lemma describes a hypothetical hand-off of such a key to
    the worker: for an id without a '/' or a '.', the worker cannot name its
    scratch files, and a call that gets past the client check ends the worker
    process.
  */
  lemma PresignedKeyEndsWorker(contentId: string, fileName: string, st: State, isAudioFile: bool, env: Env)
    requires '/' !in contentId && '.' !in contentId && '.' in fileName
    requires env.clientOk
    ensures var key := ContentApi.PresignKey(contentId, fileName).value;
      && LocalNames(key).None?
      && ConversionReply(Job(st, key, isAudioFile, env).result).Crashed?
  {
    var key := ContentApi.PresignKey(contentId, fileName).value;
    var ext := Piece(fileName, '.', 1).value;
    assert key == contentId + ("." + ext);
    assert Stem(key, '.') == contentId by {
      assert IndexOf("." + ext, '.') == 0;
      FirstPieceKeepsPrefix(contentId, "." + ext, '.');
    }
    LocalNamesDefined(key);
  }

  /**
    The older content service's uploads route: the authentication middleware
    on a fresh request context, then, if it lets the request through, the
    uploads handler on the context it leaves. Whatever the caller sends, no
    page is queried: the request is refused by the middleware (403 or 500)
    or the process exits.
  */
  method ServeUserContent(cache: Cache, header: string, now: int, getReached: bool,
                          rpc: Option<UserDetailResponse>, setOk: bool, parseUuid: string -> Option<string>,
                          offsetQuery: string, answer: Option<seq<ContentApi.Item>>)
    returns (queried: bool, reply: Reply<seq<ContentApi.ContentList>>)
    modifies cache
    ensures !queried
    ensures reply == Exit
            || reply == Message(StatusForbidden, "Authentication required")
            || reply == Message(StatusForbidden, "Invalid authentication format")
            || reply == Message(StatusInternalServerError, "Something went wrong")
  {
    var ctx := new Context<User>(map[]);
    ContentMiddleware.JwtAuth(ctx, cache, header, now, getReached, rpc, setOk);
    if !ctx.nextCalled {
      var w := ctx.written.value;
      return false, Message(w.status, w.message);
    }
    assert "userID" !in ctx.keys by { assert ctx.keys.Keys == {"user"}; }
    var listing := ContentApi.GetUserContentList(ctx.keys, parseUuid, offsetQuery, answer);
    queried := listing.query.Some?;
    reply := listing.reply;
  }
}

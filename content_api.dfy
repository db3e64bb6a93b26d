/**
  The HTTP handlers of the older content service: the catalogue and a
  user's uploads, ten entries per page from an offset query parameter, a
  content detail by id, and a presigned upload URL.
*/
module ContentApi {
  import opened Wrappers
  import opened GoStrings
  import opened Http
  import opened Tokens
  import opened Gin
  import opened IdentityCache
  import opened UploadKeys
  import ContentProjection
  import ContentCommit

  // ---------------------------------------------------------------------
  // Paging

  /** Both list endpoints ask the database for ten rows. */
  const PageSize: int := 10

  /**
    `getOffset`: the "offset" query value ("" when absent) read as a decimal
    int with `strconv.Atoi`, 0 when it is empty or not an integer, and then
    narrowed to int32 (negative values pass through).
  */
  function GetOffset(offsetQuery: string): (offset: int)
    ensures MinInt32 <= offset <= MaxInt32
    ensures Atoi(offsetQuery).None? ==> offset == 0
  {
    var text := if offsetQuery == "" then "0" else offsetQuery;
    var n := Atoi(text);
    Int32(if n.Some? then n.value else 0)
  }

  /**
    An offset written in decimal is read back as the same number when it
    fits in int32, and as its low 32 bits (two's complement) when it only
    fits in int64.
  */
  lemma OffsetReadsBack(n: int)
    requires MinInt64 <= n <= MaxInt64
    ensures GetOffset(ShowInt(n)) == Int32(n)
    ensures MinInt32 <= n <= MaxInt32 ==> GetOffset(ShowInt(n)) == n
    ensures (GetOffset(ShowInt(n)) - n) % 0x1_0000_0000 == 0
  {
    AtoiShowInt(n);
    assert ShowInt(n) != "" by {
      if n < 0 {
        assert |ShowInt(n)| == 1 + |ShowNat(-n)|;
      }
    }
  }

  // ---------------------------------------------------------------------
  // The list conversion

  /** A list entry of the API. */
  datatype ContentList = ContentList(id: Uuid, createdAt: int, title: string, description: string, contentType: string)

  /** A row of the catalogue or uploads query as the database package returns it. */
  datatype ContentRow = ContentRow(id: Uuid, createdAt: int, title: string, description: string, contentType: string)

  /** The dynamic type of an element of the `[]interface{}` the database layer returns. */
  datatype Item = ContentListItem(value: ContentList) | RowItem(row: ContentRow)

  predicate AllContentLists(items: seq<Item>)
  {
    forall i :: 0 <= i < |items| ==> items[i].ContentListItem?
  }

  const ConversionFailure := "error caught while converting the content list"

  /**
    The list `databaseContentListToContentList` produces without error: the
    asserted values in order, when every item is an API entry.
  */
  function ConvertedList(items: seq<Item>): (r: Option<seq<ContentList>>)
    ensures r.Some? <==> AllContentLists(items)
    ensures r.Some? ==> |r.value| == |items| && forall i :: 0 <= i < |items| ==> items[i] == ContentListItem(r.value[i])
  {
    if AllContentLists(items) then Some(seq(|items|, i requires 0 <= i < |items| => items[i].value)) else None
  }

  /**
    `databaseContentListToContentList`: asserts each item is an API entry and
    appends it; the first item that is not stops the loop with an error, and
    the entries converted so far (the items before it) come back with it.
  */
  method DatabaseContentListToContentList(items: seq<Item>) returns (list: seq<ContentList>, err: Option<string>)
    ensures err.None? <==> ConvertedList(items).Some?
    ensures err.None? ==> list == ConvertedList(items).value
    ensures err.Some? ==> err.value == ConversionFailure && |list| < |items| && !items[|list|].ContentListItem?
    ensures |list| <= |items| && forall i :: 0 <= i < |list| ==> items[i] == ContentListItem(list[i])
  {
    list := [];
    for i := 0 to |items|
      invariant |list| == i
      invariant forall j :: 0 <= j < i ==> items[j] == ContentListItem(list[j])
    {
      if !items[i].ContentListItem? {
        return list, Some(ConversionFailure);
      }
      list := list + [items[i].value];
    }
    err := None;
  }

  /** The projection of a database row onto an API entry, field by field. */
  function RowToContentList(row: ContentRow): ContentList
  {
    ContentList(row.id, row.createdAt, row.title, row.description, row.contentType)
  }

  /**
    The conversion the handlers need: every item becomes an entry, a row
    through its fields, in order; nothing fails.
  */
  function ProjectedList(items: seq<Item>): (list: seq<ContentList>)
    ensures |list| == |items|
    ensures forall i :: 0 <= i < |items| ==>
      list[i] == (if items[i].RowItem? then RowToContentList(items[i].row) else items[i].value)
  {
    seq(|items|, i requires 0 <= i < |items| =>
      if items[i].RowItem? then RowToContentList(items[i].row) else items[i].value)
  }

  /** Where every item is already an entry, the projection and the assertion loop agree. */
  lemma ProjectedListExtendsConversion(items: seq<Item>)
    requires ConvertedList(items).Some?
    ensures ProjectedList(items) == ConvertedList(items).value
  {
  }

  // ---------------------------------------------------------------------
  // The list handlers

  /** The page a list handler asks the database for. */
  datatype PageQuery = PageQuery(userId: Option<Uuid>, limit: int, offset: int)

  /** The query a handler issued, if any, and its response. */
  datatype Listing = Listing(query: Option<PageQuery>, reply: Reply<seq<ContentList>>)

  /**
    The response once the page is read: a failed query exits the process,
    a failed conversion is 500, anything else is the page (an empty page is
    sent as an empty list).
  */
  function PageReply(page: Option<Option<seq<ContentList>>>): (reply: Reply<seq<ContentList>>)
    ensures page.None? <==> reply == Exit
    ensures page.Some? && page.value.None? <==> reply == Message(StatusInternalServerError, "Something went wrong")
    ensures reply.Data? <==> page.Some? && page.value.Some?
    ensures reply.Data? ==> reply == Data(StatusOK, "", page.value.value)
  {
    match page
    case None => Exit
    case Some(None) => Message(StatusInternalServerError, "Something went wrong")
    case Some(Some(list)) => Data(StatusOK, "", list)
  }

  /** `getContentList`; `answer` is the database's answer to the query issued. */
  function GetContentList(offsetQuery: string, answer: Option<seq<Item>>): (l: Listing)
    ensures l.query == Some(PageQuery(None, PageSize, GetOffset(offsetQuery)))
    ensures answer.None? ==> l.reply == Exit
    ensures answer.Some? ==> (l.reply.Data? <==> AllContentLists(answer.value))
    ensures l.reply.Data? ==> l.reply.data == ConvertedList(answer.value).value
  {
    var query := PageQuery(None, PageSize, GetOffset(offsetQuery));
    Listing(Some(query), PageReply(if answer.None? then None else Some(ConvertedList(answer.value))))
  }

  /**
    The database package cannot build an API entry (the API package imports
    it, and Go forbids the cycle back), so a page it returns holds rows; one
    row is enough for the catalogue to answer 500.
  */
  lemma CatalogueOfRowsFails(offsetQuery: string, items: seq<Item>)
    requires |items| > 0 && items[0].RowItem?
    ensures GetContentList(offsetQuery, Some(items)).reply == Message(StatusInternalServerError, "Something went wrong")
  {
    assert !AllContentLists(items) by { assert !items[0].ContentListItem?; }
  }

  /** The catalogue handler over the projection. */
  function GetContentListProjected(offsetQuery: string, answer: Option<seq<Item>>): (l: Listing)
    ensures l.query == Some(PageQuery(None, PageSize, GetOffset(offsetQuery)))
    ensures answer.None? <==> l.reply == Exit
    ensures answer.Some? ==> l.reply == Data(StatusOK, "", ProjectedList(answer.value))
  {
    var query := PageQuery(None, PageSize, GetOffset(offsetQuery));
    Listing(Some(query), PageReply(if answer.None? then None else Some(Some(ProjectedList(answer.value)))))
  }

  /** With the projection, a page of rows is served in full: each row as its entry, in order. */
  lemma {:induction false} CatalogueOfRowsServed(offsetQuery: string, rows: seq<ContentRow>)
    ensures var l := GetContentListProjected(offsetQuery, Some(seq(|rows|, i requires 0 <= i < |rows| => RowItem(rows[i]))));
      && l.reply.Data?
      && |l.reply.data| == |rows|
      && forall i :: 0 <= i < |rows| ==> l.reply.data[i] == RowToContentList(rows[i])
  {
    var items := seq(|rows|, i requires 0 <= i < |rows| => RowItem(rows[i]));
    var list := ProjectedList(items);
    forall i | 0 <= i < |rows| ensures list[i] == RowToContentList(rows[i]) {
      assert items[i] == RowItem(rows[i]);
    }
  }

  /** What `fmt.Sprintf("%v", v)` writes for a value stored in the context. */
  function Render(v: Value<User>): string
  {
    match v
    case OtherValue(text) => text
    case UserValue(u) => "{" + u.id + " " + u.name + " " + u.email + "}"
  }

  /**
    `getUserID`: the context value under "userID", printed and parsed as a
    UUID; a missing key is an error.
  */
  function GetUserID(keys: map<string, Value<User>>, parseUuid: string -> Option<Uuid>): (r: Result<Uuid, string>)
    ensures "userID" !in keys ==> r == Err("authentication failed")
    ensures r.Ok? <==> "userID" in keys && parseUuid(Render(keys["userID"])).Some?
    ensures r.Ok? ==> r.value == parseUuid(Render(keys["userID"])).value
  {
    if "userID" !in keys then Err("authentication failed")
    else
      match parseUuid(Render(keys["userID"]))
      case None => Err("invalid UUID")
      case Some(id) => Ok(id)
  }

  /**
    The uploads handler once the caller's id is known: an error exits before
    any query; otherwise the page of the caller's uploads, as in the
    catalogue.
  */
  function UserContentListing(userId: Result<Uuid, string>, offsetQuery: string, answer: Option<seq<Item>>): (l: Listing)
    ensures userId.Err? <==> l.query.None?
    ensures userId.Err? ==> l.reply == Exit
    ensures userId.Ok? ==> l.query == Some(PageQuery(Some(userId.value), PageSize, GetOffset(offsetQuery)))
    ensures userId.Ok? ==> l.reply == GetContentList(offsetQuery, answer).reply
  {
    match userId
    case Err(_) => Listing(None, Exit)
    case Ok(id) =>
      var query := PageQuery(Some(id), PageSize, GetOffset(offsetQuery));
      Listing(Some(query), PageReply(if answer.None? then None else Some(ConvertedList(answer.value))))
  }

  /** `getUserContentList`: the id comes from `getUserID`. */
  function GetUserContentList(keys: map<string, Value<User>>, parseUuid: string -> Option<Uuid>,
                              offsetQuery: string, answer: Option<seq<Item>>): (l: Listing)
    ensures "userID" !in keys ==> l == Listing(None, Exit)
    ensures l.query.Some? ==> "userID" in keys
  {
    UserContentListing(GetUserID(keys, parseUuid), offsetQuery, answer)
  }

  /**
    The authentication middleware stores the caller under "user" and nothing
    under "userID", so behind it the uploads handler never queries and the
    process exits, whoever the caller is.
  */
  lemma UploadsBehindMiddlewareExit(user: User, parseUuid: string -> Option<Uuid>, offsetQuery: string, answer: Option<seq<Item>>)
    ensures GetUserContentList(map["user" := UserValue(user)], parseUuid, offsetQuery, answer) == Listing(None, Exit)
  {
    var keys := map["user" := UserValue(user)];
    assert "userID" !in keys by { assert keys.Keys == {"user"}; }
  }

  /** The caller's id as the middleware leaves it: the id of the user under "user". */
  function GetUserIDFromUser(keys: map<string, Value<User>>, parseUuid: string -> Option<Uuid>): (r: Result<Uuid, string>)
    ensures "user" !in keys ==> r == Err("authentication failed")
    ensures r.Ok? <==> "user" in keys && keys["user"].UserValue? && parseUuid(keys["user"].user.id).Some?
    ensures r.Ok? ==> r.value == parseUuid(keys["user"].user.id).value
  {
    if "user" !in keys then Err("authentication failed")
    else if !keys["user"].UserValue? then Err("invalid user")
    else
      match parseUuid(keys["user"].user.id)
      case None => Err("invalid UUID")
      case Some(id) => Ok(id)
  }

  /** The uploads handler reading the caller the middleware stored. */
  function GetUserContentListFromUser(keys: map<string, Value<User>>, parseUuid: string -> Option<Uuid>,
                                      offsetQuery: string, answer: Option<seq<Item>>): (l: Listing)
    ensures l.query.Some? ==> "user" in keys
  {
    UserContentListing(GetUserIDFromUser(keys, parseUuid), offsetQuery, answer)
  }

  /** Behind the middleware, the corrected handler asks for the caller's own uploads. */
  lemma UploadsBehindMiddlewareQueryCaller(user: User, id: Uuid, parseUuid: string -> Option<Uuid>,
                                           offsetQuery: string, answer: Option<seq<Item>>)
    requires parseUuid(user.id) == Some(id)
    ensures GetUserContentListFromUser(map["user" := UserValue(user)], parseUuid, offsetQuery, answer).query
            == Some(PageQuery(Some(id), PageSize, GetOffset(offsetQuery)))
  {
  }

  // ---------------------------------------------------------------------
  // The detail handler

  /** The detail record of this service: the row's fields, the given user, and an empty URL. */
  datatype Content = Content(
    id: Uuid,
    createdAt: int,
    modifiedAt: int,
    user: User,
    title: string,
    description: string,
    contentType: string,
    url: string)

  /** `databaseContentToContent`: the URL is always empty, whatever key the row stores. */
  function DatabaseContentToContent(c: ContentProjection.DbContent, user: User): (r: Content)
    ensures r.url == "" && r.user == user
    ensures r.id == c.id && r.createdAt == c.createdAt && r.modifiedAt == c.modifiedAt
    ensures r.title == c.title && r.description == c.description && r.contentType == c.contentType
  {
    Content(c.id, c.createdAt, c.modifiedAt, user, c.title, c.description, c.contentType, "")
  }

  /** The detail never reveals the media key: two rows differing only in it give the same record. */
  lemma DetailHidesMedia(c: ContentProjection.DbContent, key: ContentCommit.NullText, user: User)
    ensures DatabaseContentToContent(c.(s3Key := key), user) == DatabaseContentToContent(c, user)
  {
  }

  /** The row the detail handler looked up, if any, and its response. */
  datatype Detail = Detail(query: Option<Uuid>, reply: Reply<Content>)

  /**
    `getContentDetail`: an id that is not a UUID is 400 with no lookup; a
    failed lookup exits the process; otherwise the record. The record's user
    is a parameter here: the handler passes none to the two-argument
    conversion.
  */
  function GetContentDetail(idParam: string, parseUuid: string -> Option<Uuid>,
                            answer: Option<ContentProjection.DbContent>, user: User): (d: Detail)
    ensures parseUuid(idParam).None? <==> d.query.None?
    ensures parseUuid(idParam).None? ==> d.reply == Message(StatusBadRequest, "Invalid content ID format")
    ensures d.query.Some? ==> d.query == parseUuid(idParam) && (answer.None? <==> d.reply == Exit)
    ensures d.reply.Data? ==> d.reply == Data(StatusOK, "", DatabaseContentToContent(answer.value, user))
  {
    match parseUuid(idParam)
    case None => Detail(None, Message(StatusBadRequest, "Invalid content ID format"))
    case Some(id) =>
      match answer
      case None => Detail(Some(id), Exit)
      case Some(row) => Detail(Some(id), Data(StatusOK, "", DatabaseContentToContent(row, user)))
  }

  // ---------------------------------------------------------------------
  // The presigned upload URL

  /** `os.Getenv`: an unset variable reads as "". */
  function Getenv(env: map<string, string>, name: string): (v: string)
    ensures name !in env ==> v == ""
  {
    if name in env then env[name] else ""
  }

  /** The JSON body; both fields are required (present and non-empty). */
  datatype PresignBody = PresignBody(contentId: string, fileName: string)

  /** The object a presigned PUT is requested for. */
  datatype PresignRequest = PresignRequest(bucket: string, key: string)

  datatype Presigned = Presigned(request: Option<PresignRequest>, reply: Reply<string>)

  /**
    The presigned key: the content id, a dot, and the piece of the file
    name between its first and second dot; none where that index panics.
  */
  function PresignKey(contentId: string, fileName: string): (r: Option<string>)
    ensures r.Some? <==> '.' in fileName
  {
    SecondPieceExists(fileName, '.');
    match Piece(fileName, '.', 1)
    case None => None
    case Some(ext) => Some(contentId + "." + ext)
  }

  /**
    The newer uploader's key is this key under the audio or video directory:
    the same id and extension, one directory apart.
  */
  lemma PresignKeyLacksCategory(contentId: string, fileName: string, isAudioFile: bool)
    ensures PresignKey(contentId, fileName).Some? <==> GetUniqueFilename(contentId, fileName, isAudioFile).Some?
    ensures PresignKey(contentId, fileName).Some? ==>
      GetUniqueFilename(contentId, fileName, isAudioFile).value == Category(isAudioFile) + PresignKey(contentId, fileName).value
  {
    if '.' in fileName {
      var ext := Piece(fileName, '.', 1).value;
      assert Category(isAudioFile) + contentId + "." + ext == Category(isAudioFile) + (contentId + "." + ext);
    }
  }

  /**
    The handler with the bucket read from the environment variable
    `bucketVar`: a missing or empty field is 400; a configuration failure
    exits; a file name without a dot panics; otherwise the presign is
    requested, and its failure exits.
  */
  function PresignIn(bucketVar: string, body: Option<PresignBody>, configOk: bool,
                     env: map<string, string>, url: Option<string>): (p: Presigned)
    ensures body.None? || body.value.contentId == "" || body.value.fileName == "" <==>
            p == Presigned(None, Message(StatusBadRequest, "Invalid request data"))
    ensures p.request.Some? <==>
            body.Some? && body.value.contentId != "" && body.value.fileName != "" && configOk && '.' in body.value.fileName
    ensures p.request.Some? ==>
            p.request.value == PresignRequest(Getenv(env, bucketVar), PresignKey(body.value.contentId, body.value.fileName).value)
            && (p.reply.Data? <==> url.Some?)
    ensures p.reply.Data? ==> url.Some? && p.reply == Data(StatusOK, "", url.value)
  {
    if body.None? || body.value.contentId == "" || body.value.fileName == "" then
      Presigned(None, Message(StatusBadRequest, "Invalid request data"))
    else if !configOk then Presigned(None, Exit)
    else
      match PresignKey(body.value.contentId, body.value.fileName)
      case None => Presigned(None, Panicked)
      case Some(key) =>
        var request := PresignRequest(Getenv(env, bucketVar), key);
        match url
        case None => Presigned(Some(request), Exit)
        case Some(u) => Presigned(Some(request), Data(StatusOK, "", u))
  }

  /** `getPresignedURL` as written: the bucket is the region's variable. */
  function GetPresignedUrl(body: Option<PresignBody>, configOk: bool, env: map<string, string>,
                           url: Option<string>): (p: Presigned)
    ensures p.request.Some? ==> p.request.value.bucket == Getenv(env, "AWS_REGION")
  {
    PresignIn("AWS_REGION", body, configOk, env, url)
  }

  /**
    The presign asks for an object in the bucket named by the region
    variable, so the upload lands outside the bucket the conversion worker
    reads whenever the two variables differ.
  */
  lemma PresignMissesWorkerBucket(body: Option<PresignBody>, configOk: bool, env: map<string, string>, url: Option<string>)
    requires GetPresignedUrl(body, configOk, env, url).request.Some?
    requires Getenv(env, "AWS_REGION") != Getenv(env, "AWS_BUCKET_NAME")
    ensures GetPresignedUrl(body, configOk, env, url).request.value.bucket != Getenv(env, "AWS_BUCKET_NAME")
  {
  }

  /** The handler presigning into the worker's bucket. */
  function GetPresignedUrlToBucket(body: Option<PresignBody>, configOk: bool, env: map<string, string>,
                                   url: Option<string>): (p: Presigned)
    ensures p.request.Some? ==> p.request.value.bucket == Getenv(env, "AWS_BUCKET_NAME")
    ensures p.reply.Data? ==> p.request.Some? && url.Some? && p.reply == Data(StatusOK, "", url.value)
  {
    PresignIn("AWS_BUCKET_NAME", body, configOk, env, url)
  }
}

/**
  How the content service turns database rows into API objects: a content
  record with a CDN URL for its media, and the list rows of the catalogue
  and of a user's own uploads.
*/
module ContentProjection {
  import opened Wrappers
  import opened Tokens
  import opened ContentCommit

  /** A row of the content table; timestamps are abstract instants. */
  datatype DbContent = DbContent(
    id: Uuid,
    createdAt: int,
    modifiedAt: int,
    title: string,
    description: string,
    contentType: string,
    s3Key: NullText)

  /** The API's content record; `url` is null when there is no media yet. */
  datatype Content = Content(
    id: Uuid,
    createdAt: int,
    modifiedAt: int,
    title: string,
    description: string,
    contentType: string,
    url: Option<string>)

  /**
    `databaseContentToContent`: the fields copied, and a URL exactly when the
    stored key's text is non-empty: the CDN base, "/", and the key.
  */
  function DatabaseContentToContent(c: DbContent, cdnBaseUrl: string): (r: Content)
    ensures r.id == c.id && r.createdAt == c.createdAt && r.modifiedAt == c.modifiedAt
    ensures r.title == c.title && r.description == c.description && r.contentType == c.contentType
    ensures r.url.None? <==> |c.s3Key.text| == 0
  {
    var url := if |c.s3Key.text| != 0 then Some(cdnBaseUrl + "/" + c.s3Key.text) else None;
    Content(c.id, c.createdAt, c.modifiedAt, c.title, c.description, c.contentType, url)
  }

  /**
    The URL names the stored key under the CDN base: it starts with the base
    and "/", and what follows is the key, so two records share a URL exactly
    when they share a key. The key's validity flag is not consulted.
  */
  lemma UrlNamesKey(c: DbContent, d: DbContent, cdnBaseUrl: string)
    requires |c.s3Key.text| != 0
    ensures var url := DatabaseContentToContent(c, cdnBaseUrl).url.value;
      && cdnBaseUrl + "/" <= url
      && url[|cdnBaseUrl| + 1..] == c.s3Key.text
    ensures DatabaseContentToContent(d, cdnBaseUrl).url == DatabaseContentToContent(c, cdnBaseUrl).url
            <==> d.s3Key.text == c.s3Key.text
  {
    var url := cdnBaseUrl + "/" + c.s3Key.text;
    assert url[|cdnBaseUrl| + 1..] == c.s3Key.text;
    if DatabaseContentToContent(d, cdnBaseUrl).url == DatabaseContentToContent(c, cdnBaseUrl).url {
      var url2 := cdnBaseUrl + "/" + d.s3Key.text;
      assert url2[|cdnBaseUrl| + 1..] == d.s3Key.text;
    }
  }

  /** A row of the catalogue query. */
  datatype ContentListRow = ContentListRow(id: Uuid, createdAt: int, title: string, description: string, contentType: string)

  /** A row of a user's uploads query. */
  datatype UserContentRow = UserContentRow(id: Uuid, createdAt: int, title: string, description: string, contentType: string)

  /** A list entry of the API. */
  datatype ContentList = ContentList(id: Uuid, createdAt: int, title: string, description: string, contentType: string)

  /** `databaseContentListToContentList`: each row becomes its entry, in order; the error is always nil. */
  method DatabaseContentListToContentList(rows: seq<ContentListRow>) returns (list: seq<ContentList>, err: Option<string>)
    ensures err.None?
    ensures |list| == |rows|
    ensures forall i :: 0 <= i < |rows| ==>
      list[i] == ContentList(rows[i].id, rows[i].createdAt, rows[i].title, rows[i].description, rows[i].contentType)
  {
    list := [];
    for i := 0 to |rows|
      invariant |list| == i
      invariant forall j :: 0 <= j < i ==>
        list[j] == ContentList(rows[j].id, rows[j].createdAt, rows[j].title, rows[j].description, rows[j].contentType)
    {
      var r := rows[i];
      list := list + [ContentList(r.id, r.createdAt, r.title, r.description, r.contentType)];
    }
    err := None;
  }

  /** `databaseUserContentListToContentList`: the same projection over a user's uploads. */
  method DatabaseUserContentListToContentList(rows: seq<UserContentRow>) returns (list: seq<ContentList>, err: Option<string>)
    ensures err.None?
    ensures |list| == |rows|
    ensures forall i :: 0 <= i < |rows| ==>
      list[i] == ContentList(rows[i].id, rows[i].createdAt, rows[i].title, rows[i].description, rows[i].contentType)
  {
    list := [];
    for i := 0 to |rows|
      invariant |list| == i
      invariant forall j :: 0 <= j < i ==>
        list[j] == ContentList(rows[j].id, rows[j].createdAt, rows[j].title, rows[j].description, rows[j].contentType)
    {
      var r := rows[i];
      list := list + [ContentList(r.id, r.createdAt, r.title, r.description, r.contentType)];
    }
    err := None;
  }
}

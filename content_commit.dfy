/**
  The content service's commit-after-conversion step: ask the transcode
  worker to convert an uploaded file, and only when it answers, record the
  playlist key it returns as the content's media key.
*/
module ContentCommit {
  import opened Wrappers
  import opened Tokens
  import opened SharedSecret

  /** A nullable text column. */
  datatype NullText = NullText(text: string, valid: bool)

  /** The parameters of the key update: which content row, and its new key. */
  datatype UpdateS3KeyParams = UpdateS3KeyParams(id: Uuid, s3Key: NullText)

  /** A `Conversion` call as sent: the request and the authorization metadata value. */
  datatype ConversionCall = ConversionCall(key: string, isAudioFile: bool, authorization: string)

  /** The content table's media keys, the key updates attempted, and the conversion calls made. */
  datatype CommitState = CommitState(
    s3Keys: map<Uuid, NullText>,
    writes: seq<UpdateS3KeyParams>,
    calls: seq<ConversionCall>)

  /**
    `UpdateContentS3Key`: exactly one conversion call, carrying "Bearer "
    and the shared secret; on its failure nothing is written; on its answer
    the parameters, with the media key replaced by the answered key (marked
    present), are written to the row with that id, if the write succeeds.
    Neither outcome is reported to the caller.
  */
  function UpdateContentS3KeySpec(st: CommitState, params: UpdateS3KeyParams, key: string, isAudioFile: bool,
                                  authKey: string, answer: Option<string>, dbOk: bool): (st': CommitState)
    ensures st'.calls == st.calls + [ConversionCall(key, isAudioFile, BearerPrefix + authKey)]
    ensures answer.None? ==> st'.s3Keys == st.s3Keys && st'.writes == st.writes
  {
    var st1 := st.(calls := st.calls + [ConversionCall(key, isAudioFile, BearerPrefix + authKey)]);
    match answer
    case None => st1
    case Some(k) =>
      var p := params.(s3Key := NullText(k, true));
      var st2 := st1.(writes := st1.writes + [p]);
      if dbOk && p.id in st.s3Keys then st2.(s3Keys := st.s3Keys[p.id := p.s3Key]) else st2
  }

  /**
    On an answer, the one write attempted is the given parameters with only
    the media key changed, to exactly the answered key; the row with that id
    then holds it if the write went through, and no other row changes.
  */
  lemma CommitWritesAnsweredKey(st: CommitState, params: UpdateS3KeyParams, key: string, isAudioFile: bool,
                                authKey: string, k: string, dbOk: bool)
    ensures var st' := UpdateContentS3KeySpec(st, params, key, isAudioFile, authKey, Some(k), dbOk);
      && st'.writes == st.writes + [UpdateS3KeyParams(params.id, NullText(k, true))]
      && st'.writes[|st.writes|].id == params.id
      && (forall id :: id in st.s3Keys && id != params.id ==> id in st'.s3Keys && st'.s3Keys[id] == st.s3Keys[id])
      && st'.s3Keys.Keys == st.s3Keys.Keys
      && (dbOk && params.id in st.s3Keys ==> st'.s3Keys[params.id] == NullText(k, true))
      && (!dbOk ==> st'.s3Keys == st.s3Keys)
  {
  }

  /** The content database connection and the conversion client. */
  class ContentBackend {
    var s3Keys: map<Uuid, NullText>
    var writes: seq<UpdateS3KeyParams>
    var calls: seq<ConversionCall>

    function State(): CommitState
      reads this
    {
      CommitState(s3Keys, writes, calls)
    }

    constructor (s3Keys: map<Uuid, NullText>)
      ensures State() == CommitState(s3Keys, [], [])
    {
      this.s3Keys := s3Keys;
      writes := [];
      calls := [];
    }

    /**
      `processContentMedia`: one `Conversion` call with "Bearer " and the
      secret as authorization; the worker's answer is a parameter.
    */
    method ProcessContentMedia(key: string, isAudioFile: bool, authKey: string, answer: Option<string>)
      returns (r: Option<string>)
      modifies this
      ensures r == answer
      ensures State() == old(State()).(calls := old(calls) + [ConversionCall(key, isAudioFile, BearerPrefix + authKey)])
    {
      calls := calls + [ConversionCall(key, isAudioFile, BearerPrefix + authKey)];
      r := answer;
    }

    /** `UpdateContentS3KeyDB`: one transaction updating the row with that id; no row is not an error. */
    method UpdateContentS3KeyDB(params: UpdateS3KeyParams, succeeds: bool) returns (ok: bool)
      modifies this
      ensures ok == succeeds
      ensures State() == old(State()).(
        writes := old(writes) + [params],
        s3Keys := if succeeds && params.id in old(s3Keys) then old(s3Keys)[params.id := params.s3Key] else old(s3Keys))
    {
      writes := writes + [params];
      if succeeds && params.id in s3Keys {
        s3Keys := s3Keys[params.id := params.s3Key];
      }
      ok := succeeds;
    }
  }

  /** `UpdateContentS3Key`, proved to behave as `UpdateContentS3KeySpec` says. */
  method UpdateContentS3Key(db: ContentBackend, params: UpdateS3KeyParams, key: string, isAudioFile: bool,
                            authKey: string, answer: Option<string>, dbOk: bool)
    modifies db
    ensures db.State() == UpdateContentS3KeySpec(old(db.State()), params, key, isAudioFile, authKey, answer, dbOk)
  {
    var grpcResponse := db.ProcessContentMedia(key, isAudioFile, authKey, answer);
    if grpcResponse.None? {
      return;
    }
    var p := params;
    p := p.(s3Key := NullText(grpcResponse.value, true));
    var _ := db.UpdateContentS3KeyDB(p, dbOk);
  }
}

/**
  The earlier version of the transcode pipeline: a plain function (no gRPC,
  no result) that downloads the source under "/media/", runs the encoder
  into "/output/", and then uploads in the background. It is kept apart
  from the current worker because both declare the same package-level
  helpers.
*/
module LegacyWorker {
  import opened Wrappers
  import opened GoStrings
  import opened Storage
  import TranscodeWorker

  /** `getFileName`: the text before the first '.' with ".m3u8" appended. */
  function GetFileName(key: string): string
  {
    Stem(key, '.') + ".m3u8"
  }

  /** The older pipeline names its playlist exactly as the current worker does. */
  lemma GetFileNameIsPlaylistKey(key: string)
    ensures GetFileName(key) == TranscodeWorker.PlaylistKey(key)
    ensures '.' !in key ==> GetFileName(key) == key + ".m3u8"
  {
    if '.' !in key {
      SplitNoSep(key, '.');
    }
  }

  /** Where the source is saved. */
  function DownloadPath(key: string): string
  {
    "/media/" + key
  }

  /** Where the encoder writes the playlist. */
  function OutputPath(key: string): string
  {
    "/output/" + GetFileName(key)
  }

  /** The two scratch paths never coincide: they differ in their directory. */
  lemma ScratchPathsDistinct(key: string)
    ensures DownloadPath(key) != OutputPath(key)
  {
    assert DownloadPath(key)[1] == 'm' && OutputPath(key)[1] == 'o';
  }

  // ---------------------------------------------------------------------
  // The encoder command

  /**
    The older audio options. The playlist type option is the last one and
    has no value of its own, so it takes the output path as its value.
  */
  const LegacyAudioOptions: seq<string> :=
    ["-c:a", "aac", "-b:a", "320k", "-hls_time", "10", "-hls_playlist_type"]

  /** The older video options: H.265 with AAC audio, 10-second VOD HLS. */
  const LegacyVideoOptions: seq<string> :=
    ["-c:v", "libx265", "-c:a", "aac", "-hls_time", "10", "-hls_playlist_type", "vod"]

  /** The command line the older pipeline runs, program name first. */
  function LegacyArgs(isAudio: bool, src: string, dst: string): seq<string>
  {
    ["ffmpeg", "-i", src] + (if isAudio then LegacyAudioOptions else LegacyVideoOptions) + [dst]
  }

  /**
    As written, the audio command ends "-hls_playlist_type <output path>":
    the output path is the value of the playlist type option, "vod" does not
    occur at all, and no argument is left to name the output file. The video
    command is well formed: "-hls_playlist_type vod" followed by the output.
  */
  lemma AudioCommandLosesOutput(src: string, dst: string)
    requires "vod" != dst
    ensures var args := LegacyArgs(true, src, dst);
      && args[|args| - 2] == "-hls_playlist_type" && args[|args| - 1] == dst
      && TranscodeWorker.HasOption(args[3..], "-hls_playlist_type", dst)
      && "vod" !in args[3..]
    ensures var args := LegacyArgs(false, src, dst);
      && args[|args| - 3] == "-hls_playlist_type" && args[|args| - 2] == "vod"
      && args[|args| - 1] == dst
  {
    var args := LegacyArgs(true, src, dst);
    var rest := args[3..];
    assert rest == LegacyAudioOptions + [dst];
    assert rest[6] == "-hls_playlist_type" && rest[7] == dst;
    forall i | 0 <= i < |rest|
      ensures rest[i] != "vod"
    {
      if i < 7 {
        assert rest[i] == LegacyAudioOptions[i];
      }
    }
  }

  // ---------------------------------------------------------------------
  // The pipeline, specified over a snapshot of the world

  /** The goroutine the older pipeline starts. */
  datatype LegacyTask = UploadTask(loc: Loc, path: string)   // go uploadFile(client, bucket, key, path)

  type LegacyState = HostState<LegacyTask>

  /**
    How the foreign calls of one run turn out: S3 client creation, the bucket
    from the environment, the download (reaching the store, saving the file)
    and the encoder (the playlist bytes on a zero exit).
  */
  datatype LegacyEnv = LegacyEnv(
    clientOk: bool,
    bucket: string,
    getReached: bool,
    saveOk: bool,
    encoder: Option<Bytes>)

  /** Whether the run ended the process (`log.Fatalln`), and the world after it. */
  datatype LegacyOutcome = LegacyOutcome(exited: bool, st: LegacyState)

  /** `downloadFile`: fetch the object and save it under `path`. */
  function DownloadFileSpec(st: LegacyState, loc: Loc, path: string, reached: bool, saveOk: bool): (s: LegacyState)
    ensures s.objects == st.objects && s.tasks == st.tasks
    ensures s.effects == st.effects + [GetObject(loc)]
    ensures s.scratch == if reached && loc in st.objects && saveOk then st.scratch[path := st.objects[loc].body]
                         else st.scratch
  {
    var st1 := st.(effects := st.effects + [GetObject(loc)]);
    if reached && loc in st.objects && saveOk then st1.(scratch := st.scratch[path := st.objects[loc].body])
    else st1
  }

  /** A step's success and the world after it. */
  datatype LegacyStep = LegacyStep(ok: bool, st: LegacyState)

  /**
    `uploadFile` as written: only a missing local file is reported. The
    upload sets no content type and no ACL, and reports success even when
    the store refused it.
  */
  function UploadFileSpec(st: LegacyState, loc: Loc, path: string, putOk: bool): (s: LegacyStep)
    ensures s.ok <==> path in st.scratch
    ensures s.st.scratch == st.scratch && s.st.tasks == st.tasks
    ensures path !in st.scratch ==> s.st == st
    ensures path in st.scratch ==> s.st.effects == st.effects + [PutObject(loc, "", Private)]
    ensures s.st.objects == if path in st.scratch && putOk then st.objects[loc := StoredObject(st.scratch[path], "", Private)]
                            else st.objects
  {
    if path !in st.scratch then LegacyStep(false, st)
    else
      var st1 := st.(effects := st.effects + [PutObject(loc, "", Private)]);
      if putOk then LegacyStep(true, st1.(objects := st.objects[loc := StoredObject(st.scratch[path], "", Private)]))
      else LegacyStep(true, st1)
  }

  /**
    The discrepancy: a refused upload is reported as a success, and the
    caller cannot tell a stored object from a missing one.
  */
  lemma UploadFileHidesPutFailure(st: LegacyState, loc: Loc, path: string)
    requires path in st.scratch && loc !in st.objects
    ensures UploadFileSpec(st, loc, path, false).ok
    ensures loc !in UploadFileSpec(st, loc, path, false).st.objects
    ensures UploadFileSpec(st, loc, path, true).ok
    ensures loc in UploadFileSpec(st, loc, path, true).st.objects
  {
  }

  /**
    The evidently intended `uploadFile`: the error from the store is
    returned, so success means the object is stored with the file's bytes.
  */
  function CheckedUploadFileSpec(st: LegacyState, loc: Loc, path: string, putOk: bool): (s: LegacyStep)
    ensures s.ok <==> path in st.scratch && putOk
    ensures s.ok ==> path in st.scratch && s.st.objects == st.objects[loc := StoredObject(st.scratch[path], "", Private)]
    ensures !s.ok ==> s.st.objects == st.objects
  {
    var u := UploadFileSpec(st, loc, path, putOk);
    u.(ok := u.ok && putOk)
  }

  /**
    `ConvertMediaFile` of the older pipeline. A client error or an encoder
    failure ends the process. The download's error is discarded, so the
    encoder runs whether or not the source was saved. On success the
    upload of the DOWNLOADED SOURCE back to its own key is queued.
  */
  function LegacyJob(st: LegacyState, key: string, isAudio: bool, env: LegacyEnv): (o: LegacyOutcome)
    ensures !env.clientOk ==> o == LegacyOutcome(true, st)
    ensures env.clientOk ==> (o.exited <==> env.encoder.None?)
  {
    if !env.clientOk then LegacyOutcome(true, st)
    else
      var source := Loc(env.bucket, key);
      var dl := DownloadPath(key);
      var out := OutputPath(key);
      var st1 := DownloadFileSpec(st, source, dl, env.getReached, env.saveOk);
      var st2 := st1.(effects := st1.effects + [RunEncoder(LegacyArgs(isAudio, dl, out))]);
      if env.encoder.None? then LegacyOutcome(true, st2)
      else
        var st3 := st2.(scratch := st2.scratch[out := env.encoder.value]);
        LegacyOutcome(false, st3.(tasks := st3.tasks + [UploadTask(source, dl)]))
  }

  /**
    Whatever the download did, a run with a working client reaches the
    encoder: the encoder call follows the download call, and it is the last
    effect of the run.
  */
  lemma DownloadResultIgnored(st: LegacyState, key: string, isAudio: bool, env: LegacyEnv)
    requires env.clientOk
    ensures var o := LegacyJob(st, key, isAudio, env);
      o.st.effects == st.effects + [GetObject(Loc(env.bucket, key)),
                                    RunEncoder(LegacyArgs(isAudio, DownloadPath(key), OutputPath(key)))]
  {
  }

  /** An encoder failure ends the process before anything is uploaded or queued. */
  lemma EncoderFailureExits(st: LegacyState, key: string, isAudio: bool, env: LegacyEnv)
    requires env.clientOk && env.encoder.None?
    ensures var o := LegacyJob(st, key, isAudio, env);
      && o.exited && o.st.tasks == st.tasks && o.st.objects == st.objects
      && forall i :: |st.effects| <= i < |o.st.effects| ==> !o.st.effects[i].PutObject?
  {
  }

  /** The world after the queued upload has run. */
  function RunUploadTask(st: LegacyState, putOk: bool): LegacyState
    requires st.tasks != []
  {
    var t := st.tasks[0];
    UploadFileSpec(st.(tasks := st.tasks[1..]), t.loc, t.path, putOk).st
  }

  /**
    As written, the upload sends the saved source back to its own key: after
    a successful run and its upload, the only object written is the source
    key, holding the bytes it already held (now with no content type and no
    ACL), and the playlist key is never written.
  */
  lemma LegacyNeverPublishesPlaylist(st: LegacyState, key: string, isAudio: bool, env: LegacyEnv, putOk: bool)
    requires st.tasks == []
    requires env.getReached && env.saveOk && Loc(env.bucket, key) in st.objects
    requires !LegacyJob(st, key, isAudio, env).exited
    ensures var o := LegacyJob(st, key, isAudio, env);
      var source := Loc(env.bucket, key);
      var after := RunUploadTask(o.st, putOk);
      && o.st.tasks == [UploadTask(source, DownloadPath(key))]
      && after.objects == (if putOk then st.objects[source := StoredObject(st.objects[source].body, "", Private)]
                           else st.objects)
      && (Loc(env.bucket, GetFileName(key)) in after.objects <==> Loc(env.bucket, GetFileName(key)) in st.objects)
  {
    ScratchPathsDistinct(key);
  }

  // ---------------------------------------------------------------------
  // The pipeline as the older version runs it

  /** `downloadFile`. */
  method DownloadFile(h: Host<LegacyTask>, bucket: string, key: string, downloadPath: string,
                      reached: bool, saveOk: bool) returns (ok: bool)
    modifies h
    ensures ok <==> reached && Loc(bucket, key) in old(h.objects) && saveOk
    ensures h.State() == DownloadFileSpec(old(h.State()), Loc(bucket, key), downloadPath, reached, saveOk)
  {
    var body := h.Get(Loc(bucket, key), reached);
    if body.None? {
      return false;
    }
    ok := h.WriteFile(downloadPath, body.value, saveOk);
  }

  /** `uploadFile`: a refused PutObject is swallowed. */
  method UploadFile(h: Host<LegacyTask>, bucket: string, key: string, filename: string, putOk: bool)
    returns (ok: bool)
    modifies h
    ensures LegacyStep(ok, h.State()) == UploadFileSpec(old(h.State()), Loc(bucket, key), filename, putOk)
  {
    var body := h.ReadFile(filename);
    if body.None? {
      return false;
    }
    var _ := h.Put(Loc(bucket, key), StoredObject(body.value, "", Private), putOk);
    ok := true;
  }

  /** `ConvertMediaFile` of the older pipeline, proved to behave as `LegacyJob` says. */
  method LegacyConvertMediaFile(h: Host<LegacyTask>, key: string, isAudioFile: bool, env: LegacyEnv)
    returns (exited: bool)
    modifies h
    ensures LegacyOutcome(exited, h.State()) == LegacyJob(old(h.State()), key, isAudioFile, env)
  {
    if !env.clientOk {
      return true;
    }
    var bucket := env.bucket;
    var downloadPath := DownloadPath(key);
    var outputPath := OutputPath(key);
    var _ := DownloadFile(h, bucket, key, downloadPath, env.getReached, env.saveOk);
    ghost var st1 := h.State();
    var args := LegacyArgs(isAudioFile, downloadPath, outputPath);
    var outputs := if env.encoder.Some? then Some(map[outputPath := env.encoder.value]) else None;
    var ok := h.Exec(args, outputs);
    ghost var st2 := st1.(effects := st1.effects + [RunEncoder(args)]);
    if !ok {
      assert h.State() == st2;
      return true;
    }
    assert st2.scratch + outputs.value == st2.scratch[outputPath := env.encoder.value];
    ghost var st3 := st2.(scratch := st2.scratch[outputPath := env.encoder.value]);
    assert h.State() == st3;
    h.Go(UploadTask(Loc(bucket, key), downloadPath));
    exited := false;
  }

  /** Runs the queued upload. */
  method RunNextUpload(h: Host<LegacyTask>, putOk: bool)
    requires h.tasks != []
    modifies h
    ensures h.State() == RunUploadTask(old(h.State()), putOk)
  {
    var t := h.NextTask();
    var _ := UploadFile(h, t.loc.bucket, t.loc.key, t.path, putOk);
  }
}

/**
  The transcode worker (conversion service): a gRPC service that checks a
  shared secret, downloads the source object, runs the encoder, publishes an
  HLS playlist and its single segment file, and then retires the source in
  the background.
*/
module TranscodeWorker {
  import opened Wrappers
  import opened GoStrings
  import opened Http
  import opened Storage
  import opened SharedSecret

  // ---------------------------------------------------------------------
  // Output keys (HLS naming: a .m3u8 playlist and its .ts segment file)

  const PlaylistContentType: string := "application/vnd.apple.mpegurl"
  const SegmentContentType: string := "video/mp2t"

  /** `strings.Split(key, ".")[0] + ".m3u8"`. */
  function PlaylistKey(key: string): string
  {
    Stem(key, '.') + ".m3u8"
  }

  /** `strings.Split(key, ".")[0] + ".ts"`. */
  function SegmentKey(key: string): string
  {
    Stem(key, '.') + ".ts"
  }

  /**
    Both output keys keep any dot-free prefix of the source key, in particular
    its "audio/" or "video/" category, and carry their HLS extension.
  */
  lemma DerivedKeysKeepPrefix(prefix: string, rest: string)
    requires '.' !in prefix
    ensures prefix <= PlaylistKey(prefix + rest) && prefix <= SegmentKey(prefix + rest)
    ensures PlaylistKey(prefix + rest) == prefix + Stem(rest, '.') + ".m3u8"
    ensures SegmentKey(prefix + rest) == prefix + Stem(rest, '.') + ".ts"
  {
    FirstPieceKeepsPrefix(prefix, rest, '.');
  }

  /**
    The output keys depend on the source key only through its stem: two
    source keys give the same playlist key exactly when their stems agree,
    and a playlist key is never a segment key.
  */
  lemma DerivedKeysDeterminedByStem(k1: string, k2: string)
    ensures PlaylistKey(k1) == PlaylistKey(k2) <==> Stem(k1, '.') == Stem(k2, '.')
    ensures SegmentKey(k1) == SegmentKey(k2) <==> Stem(k1, '.') == Stem(k2, '.')
    ensures PlaylistKey(k1) != SegmentKey(k2)
  {
    var s1, s2 := Stem(k1, '.'), Stem(k2, '.');
    if PlaylistKey(k1) == PlaylistKey(k2) {
      assert |s1| == |s2|;
      assert s1 == PlaylistKey(k1)[..|s1|];
    }
    if SegmentKey(k1) == SegmentKey(k2) {
      assert |s1| == |s2|;
      assert s1 == SegmentKey(k1)[..|s1|];
    }
    var p, q := PlaylistKey(k1), SegmentKey(k2);
    if |p| == |q| {
      assert p[|s1|] == '.';
      assert q[|s1|] == s2[|s1|];
    }
  }

  /** The worked example: "audio/abc.mp3" becomes "audio/abc.m3u8" and "audio/abc.ts". */
  lemma AudioExampleKeys(key: string)
    requires key == "audio/abc.mp3"
    ensures PlaylistKey(key) == "audio/abc.m3u8"
    ensures SegmentKey(key) == "audio/abc.ts"
  {
    var a, b := "audio/abc", "mp3";
    assert '.' !in a by {
      forall i | 0 <= i < |a| ensures a[i] != '.' {}
    }
    assert key == a + ['.'] + b;
    SplitAfterFirst(a, b, '.');
  }

  // ---------------------------------------------------------------------
  // Scratch files and the encoder command

  /** Local file names: source, playlist and segment. */
  datatype ScratchNames = ScratchNames(src: string, dst: string, ts: string)

  /**
    `strings.Split(k, "/")[1]` for the source, playlist and segment keys;
    `None` where one of the three index expressions panics.
  */
  function LocalNames(key: string): (r: Option<ScratchNames>)
    ensures r.Some? ==>
      && Piece(key, '/', 1) == Some(r.value.src)
      && Piece(PlaylistKey(key), '/', 1) == Some(r.value.dst)
      && Piece(SegmentKey(key), '/', 1) == Some(r.value.ts)
  {
    var src := Piece(key, '/', 1);
    var dst := Piece(PlaylistKey(key), '/', 1);
    var ts := Piece(SegmentKey(key), '/', 1);
    if src.Some? && dst.Some? && ts.Some? then Some(ScratchNames(src.value, dst.value, ts.value))
    else None
  }

  /** The names exist exactly when a '/' comes before the first '.' of the key. */
  lemma LocalNamesDefined(key: string)
    ensures LocalNames(key).Some? <==> '/' in Stem(key, '.')
  {
    var stem := Stem(key, '.');
    SecondPieceExists(key, '/');
    SecondPieceExists(PlaylistKey(key), '/');
    SecondPieceExists(SegmentKey(key), '/');
    assert '/' !in ".m3u8" && '/' !in ".ts";
    if '/' in stem {
      var i :| 0 <= i < |stem| && stem[i] == '/';
      assert key[i] == '/';
      assert PlaylistKey(key)[i] == '/';
      assert SegmentKey(key)[i] == '/';
    }
    if '/' in PlaylistKey(key) {
      var i :| 0 <= i < |PlaylistKey(key)| && PlaylistKey(key)[i] == '/';
      assert stem[i] == '/';
    }
  }

  /** ffmpeg options for audio: AAC at 320k, no video, 10-second single-file VOD HLS. */
  const AudioOptions: seq<string> :=
    ["-c:a", "aac", "-b:a", "320k", "-vn", "-hls_time", "10",
     "-hls_playlist_type", "vod", "-hls_flags", "single_file"]

  /** ffmpeg options for video: H.265 at CRF 28 with AAC audio, 10-second single-file VOD HLS. */
  const VideoOptions: seq<string> :=
    ["-c:v", "libx265", "-crf", "28", "-c:a", "aac", "-b:a", "320k", "-hls_time", "10",
     "-hls_playlist_type", "vod", "-hls_flags", "single_file"]

  /** The ffmpeg command line, program name first: input, options, output playlist. */
  function EncoderArgs(isAudio: bool, src: string, dst: string): seq<string>
  {
    ["ffmpeg", "-i", src] + (if isAudio then AudioOptions else VideoOptions) + [dst]
  }

  /** Option `name` is immediately followed by `value` in the list of options. */
  predicate HasOption(options: seq<string>, name: string, value: string)
  {
    exists i :: 0 <= i < |options| - 1 && options[i] == name && options[i + 1] == value
  }

  /** The options between the input ("-i", file) and the output file. */
  function Options(args: seq<string>): seq<string>
    requires |args| >= 4
  {
    args[3..|args| - 1]
  }

  /**
    The command reads the source file and writes the playlist file; audio
    drops any video stream ("-vn") and encodes AAC only, video encodes with
    libx265; both produce a single-file VOD playlist.
  */
  lemma EncoderCommand(isAudio: bool, src: string, dst: string)
    ensures var args := EncoderArgs(isAudio, src, dst);
      && |args| >= 4 && args[..3] == ["ffmpeg", "-i", src] && args[|args| - 1] == dst
      && HasOption(Options(args), "-hls_playlist_type", "vod")
      && HasOption(Options(args), "-hls_flags", "single_file")
      && HasOption(Options(args), "-c:a", "aac")
      && ("-vn" in Options(args) <==> isAudio)
      && (HasOption(Options(args), "-c:v", "libx265") <==> !isAudio)
  {
    var args := EncoderArgs(isAudio, src, dst);
    assert Options(args) == if isAudio then AudioOptions else VideoOptions;
    if isAudio { AudioOptionsChosen(); } else { VideoOptionsChosen(); }
  }

  /** The audio options: VOD single-file HLS with AAC, video dropped, no video codec. */
  lemma AudioOptionsChosen()
    ensures HasOption(AudioOptions, "-hls_playlist_type", "vod")
    ensures HasOption(AudioOptions, "-hls_flags", "single_file")
    ensures HasOption(AudioOptions, "-c:a", "aac")
    ensures "-vn" in AudioOptions && !HasOption(AudioOptions, "-c:v", "libx265")
  {
    var opts := AudioOptions;
    assert opts[7] == "-hls_playlist_type" && opts[8] == "vod";
    assert opts[9] == "-hls_flags" && opts[10] == "single_file";
    assert opts[0] == "-c:a" && opts[1] == "aac";
    assert opts[4] == "-vn";
    forall i | 0 <= i < |opts| ensures opts[i] != "-c:v" {
      assert |opts[i]| != 4 || opts[i][3] != 'v';
    }
  }

  /** The video options: VOD single-file HLS with libx265 and AAC, video kept. */
  lemma VideoOptionsChosen()
    ensures HasOption(VideoOptions, "-hls_playlist_type", "vod")
    ensures HasOption(VideoOptions, "-hls_flags", "single_file")
    ensures HasOption(VideoOptions, "-c:a", "aac")
    ensures "-vn" !in VideoOptions && HasOption(VideoOptions, "-c:v", "libx265")
  {
    var opts := VideoOptions;
    assert opts[10] == "-hls_playlist_type" && opts[11] == "vod";
    assert opts[12] == "-hls_flags" && opts[13] == "single_file";
    assert opts[4] == "-c:a" && opts[5] == "aac";
    assert opts[0] == "-c:v" && opts[1] == "libx265";
    forall i | 0 <= i < |opts| ensures opts[i] != "-vn" {
      assert |opts[i]| != 3 || opts[i][1] != 'v';
    }
  }

  // ---------------------------------------------------------------------
  // The pipeline, specified over a snapshot of the world

  /** A goroutine the worker starts. */
  datatype Task =
    | DeleteTask(loc: Loc)                    // go deleteFileFromS3(client, bucket, key)
    | RemoveFilesTask(paths: seq<string>)     // go removeFiles([...])

  type State = HostState<Task>

  /** The encoder's output files on a zero exit. */
  datatype Encoded = Encoded(playlist: Bytes, segment: Bytes)

  /**
    How each foreign call of one job turns out: S3 client creation, the
    bucket name from the environment, the download (reaching the store,
    saving the file), the encoder, and the two uploads.
  */
  datatype Env = Env(
    clientOk: bool,
    bucket: string,
    getReached: bool,
    saveOk: bool,
    encoder: Option<Encoded>,
    playlistPutOk: bool,
    segmentPutOk: bool)

  /** Which step a job failed at. */
  datatype JobError = ClientError | IndexPanic | DownloadError | TranscodeError | UploadError

  /** A step's success and the world after it. */
  datatype Step = Step(ok: bool, st: State)

  /** The result of a job and the world after it. */
  datatype Outcome = Outcome(result: Result<string, JobError>, st: State)

  /** `downloadFileFromS3`: fetch the object and save it under `path`. */
  function DownloadSpec(st: State, loc: Loc, path: string, reached: bool, saveOk: bool): (s: Step)
    ensures s.st.objects == st.objects && s.st.tasks == st.tasks
    ensures s.st.effects == st.effects + [GetObject(loc)]
    ensures s.ok <==> reached && loc in st.objects && saveOk
    ensures s.st.scratch == if s.ok then st.scratch[path := st.objects[loc].body] else st.scratch
  {
    var st1 := st.(effects := st.effects + [GetObject(loc)]);
    if !reached || loc !in st.objects then Step(false, st1)
    else if !saveOk then Step(false, st1)
    else Step(true, st1.(scratch := st1.scratch[path := st.objects[loc].body]))
  }

  /**
    `uploadFileToS3`: open the local file and put it, public-read, with the
    given content type; a missing file fails before any call to the store.
  */
  function UploadSpec(st: State, loc: Loc, path: string, contentType: string, putOk: bool): (s: Step)
    ensures s.st.scratch == st.scratch && s.st.tasks == st.tasks
    ensures s.ok <==> path in st.scratch && putOk
    ensures path !in st.scratch ==> s.st == st
    ensures path in st.scratch ==> s.st.effects == st.effects + [PutObject(loc, contentType, PublicRead)]
    ensures s.st.objects == if s.ok then st.objects[loc := StoredObject(st.scratch[path], contentType, PublicRead)]
                            else st.objects
  {
    if path !in st.scratch then Step(false, st)
    else
      var st1 := st.(effects := st.effects + [PutObject(loc, contentType, PublicRead)]);
      if putOk then Step(true, st1.(objects := st1.objects[loc := StoredObject(st.scratch[path], contentType, PublicRead)]))
      else Step(false, st1)
  }

  /** The world right after the encoder ran successfully. */
  function AfterEncoder(st: State, args: seq<string>, n: ScratchNames, out: Encoded): State
  {
    st.(scratch := st.scratch + map[n.dst := out.playlist, n.ts := out.segment],
        effects := st.effects + [RunEncoder(args)])
  }

  /**
    `convertMediaFile`: the job, step by step, with the world after it.

    Nothing is put and nothing is scheduled unless the download and the
    encoder succeed; the result on success is exactly the playlist key; and
    the source is only ever scheduled for deletion after both uploads have
    succeeded.
  */
  function Job(st: State, key: string, isAudio: bool, env: Env): (o: Outcome)
    ensures o.result.Ok? ==> o.result.value == PlaylistKey(key)
  {
    if !env.clientOk then Outcome(Err(ClientError), st)
    else
      var source := Loc(env.bucket, key);
      var names := LocalNames(key);
      if names.None? then Outcome(Err(IndexPanic), st)
      else
        var n := names.value;
        var d := DownloadSpec(st, source, n.src, env.getReached, env.saveOk);
        if !d.ok then Outcome(Err(DownloadError), d.st)
        else
          var args := EncoderArgs(isAudio, n.src, n.dst);
          if env.encoder.None? then
            Outcome(Err(TranscodeError), d.st.(effects := d.st.effects + [RunEncoder(args)]))
          else
            var st2 := AfterEncoder(d.st, args, n, env.encoder.value);
            var u1 := UploadSpec(st2, Loc(env.bucket, PlaylistKey(key)), n.dst, PlaylistContentType, env.playlistPutOk);
            if !u1.ok then Outcome(Err(UploadError), u1.st)
            else
              var u2 := UploadSpec(u1.st, Loc(env.bucket, SegmentKey(key)), n.ts, SegmentContentType, env.segmentPutOk);
              if !u2.ok then Outcome(Err(UploadError), u2.st)
              else Outcome(Ok(PlaylistKey(key)),
                           u2.st.(tasks := u2.st.tasks + [DeleteTask(source), RemoveFilesTask([n.src, n.dst, n.ts])]))
  }

  /** Two single appends are one append of the two. */
  lemma AppendTwo<T>(s: seq<T>, a: T, b: T)
    ensures s + [a] + [b] == s + [a, b]
  {
  }

  /** Four single appends are one append of the four. */
  lemma AppendFour<T>(s: seq<T>, a: T, b: T, c: T, d: T)
    ensures s + [a] + [b] + [c] + [d] == s + [a, b, c, d]
  {
  }

  /**
    A successful job: the source existed, the playlist and the segment were
    stored, public-read, with their HLS content types and the bytes the
    encoder wrote, and the source deletion and the scratch cleanup were
    queued, in that order, after what was queued before.
  */
  lemma JobSuccess(st: State, key: string, isAudio: bool, env: Env)
    requires Job(st, key, isAudio, env).result.Ok?
    ensures LocalNames(key).Some? && env.encoder.Some? && Loc(env.bucket, key) in st.objects
    ensures var n := LocalNames(key).value;
      n.dst in Job(st, key, isAudio, env).st.scratch && n.ts in Job(st, key, isAudio, env).st.scratch
    ensures var o := Job(st, key, isAudio, env);
      var n := LocalNames(key).value;
      var playlist := Loc(env.bucket, PlaylistKey(key));
      var segment := Loc(env.bucket, SegmentKey(key));
      && o.st.objects == st.objects[playlist := StoredObject(o.st.scratch[n.dst], PlaylistContentType, PublicRead)]
                                   [segment := StoredObject(o.st.scratch[n.ts], SegmentContentType, PublicRead)]
      && o.st.tasks == st.tasks + [DeleteTask(Loc(env.bucket, key)), RemoveFilesTask([n.src, n.dst, n.ts])]
  {
    var n := LocalNames(key).value;
    var d := DownloadSpec(st, Loc(env.bucket, key), n.src, env.getReached, env.saveOk);
    var st2 := AfterEncoder(d.st, EncoderArgs(isAudio, n.src, n.dst), n, env.encoder.value);
    var u1 := UploadSpec(st2, Loc(env.bucket, PlaylistKey(key)), n.dst, PlaylistContentType, env.playlistPutOk);
    var u2 := UploadSpec(u1.st, Loc(env.bucket, SegmentKey(key)), n.ts, SegmentContentType, env.segmentPutOk);
    assert u2.st.scratch == st2.scratch;
  }

  /**
    The calls a successful job makes, in order: the download, the encoder
    with the command for the media type, the playlist put, the segment put.
    No object is deleted during the job itself.
  */
  lemma JobSuccessEffects(st: State, key: string, isAudio: bool, env: Env)
    requires Job(st, key, isAudio, env).result.Ok?
    ensures LocalNames(key).Some?
    ensures var o := Job(st, key, isAudio, env);
      var n := LocalNames(key).value;
      o.st.effects == st.effects + [GetObject(Loc(env.bucket, key)),
                                    RunEncoder(EncoderArgs(isAudio, n.src, n.dst)),
                                    PutObject(Loc(env.bucket, PlaylistKey(key)), PlaylistContentType, PublicRead),
                                    PutObject(Loc(env.bucket, SegmentKey(key)), SegmentContentType, PublicRead)]
  {
    var source := Loc(env.bucket, key);
    var n := LocalNames(key).value;
    var args := EncoderArgs(isAudio, n.src, n.dst);
    AppendFour(st.effects, GetObject(source), RunEncoder(args),
               PutObject(Loc(env.bucket, PlaylistKey(key)), PlaylistContentType, PublicRead),
               PutObject(Loc(env.bucket, SegmentKey(key)), SegmentContentType, PublicRead));
  }

  /**
    A failed job queues nothing, so the source is never retired, and it
    publishes nothing unless it failed at an upload.
  */
  lemma JobFailure(st: State, key: string, isAudio: bool, env: Env)
    requires Job(st, key, isAudio, env).result.Err?
    ensures var o := Job(st, key, isAudio, env);
      && o.st.tasks == st.tasks
      && (o.result.error != UploadError ==> o.st.objects == st.objects)
  {
  }

  /**
    A job that fails at an upload has put at most the playlist: the store is
    either unchanged or holds the playlist object in addition.
  */
  lemma JobFailureAtUpload(st: State, key: string, isAudio: bool, env: Env)
    requires Job(st, key, isAudio, env).result == Err(UploadError)
    ensures LocalNames(key).Some?
    ensures var o := Job(st, key, isAudio, env);
      var playlist := Loc(env.bucket, PlaylistKey(key));
      || o.st.objects == st.objects
      || (LocalNames(key).value.dst in o.st.scratch
          && o.st.objects == st.objects[playlist :=
               StoredObject(o.st.scratch[LocalNames(key).value.dst], PlaylistContentType, PublicRead)])
  {
    var n := LocalNames(key).value;
    var d := DownloadSpec(st, Loc(env.bucket, key), n.src, env.getReached, env.saveOk);
    var args := EncoderArgs(isAudio, n.src, n.dst);
    var st2 := AfterEncoder(d.st, args, n, env.encoder.value);
    var u1 := UploadSpec(st2, Loc(env.bucket, PlaylistKey(key)), n.dst, PlaylistContentType, env.playlistPutOk);
    if u1.ok {
      var u2 := UploadSpec(u1.st, Loc(env.bucket, SegmentKey(key)), n.ts, SegmentContentType, env.segmentPutOk);
      assert u2.st.objects == u1.st.objects;
    }
  }

  /** `post` is `pre` followed by effects none of which deletes an object. */
  predicate ExtendsWithoutDelete(pre: seq<Effect>, post: seq<Effect>)
  {
    && |pre| <= |post| && post[..|pre|] == pre
    && forall i :: |pre| <= i < |post| ==> !post[i].DeleteObject?
  }

  lemma ExtendsWithoutDeleteTrans(a: seq<Effect>, b: seq<Effect>, c: seq<Effect>)
    requires ExtendsWithoutDelete(a, b) && ExtendsWithoutDelete(b, c)
    ensures ExtendsWithoutDelete(a, c)
  {
    assert c[..|a|] == c[..|b|][..|a|];
  }

  lemma ExtendsWithoutDeleteStep(a: seq<Effect>, e: Effect)
    requires !e.DeleteObject?
    ensures ExtendsWithoutDelete(a, a + [e])
  {
    assert (a + [e])[..|a|] == a;
  }

  /** A job deletes no object itself, whatever its outcome: it only queues the deletion. */
  lemma JobNeverDeletes(st: State, key: string, isAudio: bool, env: Env)
    ensures ExtendsWithoutDelete(st.effects, Job(st, key, isAudio, env).st.effects)
  {
    var o := Job(st, key, isAudio, env);
    if o.st.effects == st.effects {
      assert st.effects[..|st.effects|] == st.effects;
      return;
    }
    var n := LocalNames(key).value;
    var source := Loc(env.bucket, key);
    var d := DownloadSpec(st, source, n.src, env.getReached, env.saveOk);
    ExtendsWithoutDeleteStep(st.effects, GetObject(source));
    if !d.ok {
      return;
    }
    var args := EncoderArgs(isAudio, n.src, n.dst);
    ExtendsWithoutDeleteStep(d.st.effects, RunEncoder(args));
    ExtendsWithoutDeleteTrans(st.effects, d.st.effects, d.st.effects + [RunEncoder(args)]);
    if env.encoder.None? {
      return;
    }
    var st2 := AfterEncoder(d.st, args, n, env.encoder.value);
    var playlist := Loc(env.bucket, PlaylistKey(key));
    var u1 := UploadSpec(st2, playlist, n.dst, PlaylistContentType, env.playlistPutOk);
    ExtendsWithoutDeleteStep(st2.effects, PutObject(playlist, PlaylistContentType, PublicRead));
    ExtendsWithoutDeleteTrans(st.effects, st2.effects, u1.st.effects);
    if !u1.ok {
      return;
    }
    var segment := Loc(env.bucket, SegmentKey(key));
    var u2 := UploadSpec(u1.st, segment, n.ts, SegmentContentType, env.segmentPutOk);
    ExtendsWithoutDeleteStep(u1.st.effects, PutObject(segment, SegmentContentType, PublicRead));
    ExtendsWithoutDeleteTrans(st.effects, u1.st.effects, u2.st.effects);
  }

  /** A source object that does not exist fails the job with zero writes to the store. */
  lemma JobMissingSource(st: State, key: string, isAudio: bool, env: Env)
    requires Loc(env.bucket, key) !in st.objects
    ensures var o := Job(st, key, isAudio, env);
      && o.result.Err?
      && o.st.objects == st.objects && o.st.tasks == st.tasks
      && (o.st.effects == st.effects || o.st.effects == st.effects + [GetObject(Loc(env.bucket, key))])
  {
  }

  // ---------------------------------------------------------------------
  // The pipeline as the worker runs it

  /** `downloadFileFromS3`. */
  method DownloadFileFromS3(h: Host<Task>, bucket: string, key: string, downloadPath: string,
                            reached: bool, saveOk: bool) returns (ok: bool)
    modifies h
    ensures Step(ok, h.State()) == DownloadSpec(old(h.State()), Loc(bucket, key), downloadPath, reached, saveOk)
  {
    var body := h.Get(Loc(bucket, key), reached);
    if body.None? {
      return false;
    }
    ok := h.WriteFile(downloadPath, body.value, saveOk);
  }

  /** `uploadFileToS3`: every failure is returned to the caller. */
  method UploadFileToS3(h: Host<Task>, bucket: string, key: string, filePath: string,
                        contentType: string, putOk: bool) returns (ok: bool)
    modifies h
    ensures Step(ok, h.State()) == UploadSpec(old(h.State()), Loc(bucket, key), filePath, contentType, putOk)
  {
    var body := h.ReadFile(filePath);
    if body.None? {
      return false;
    }
    ok := h.Put(Loc(bucket, key), StoredObject(body.value, contentType, PublicRead), putOk);
  }

  /** `convertMediaFile`, proved to behave as `Job` says. */
  method ConvertMediaFile(h: Host<Task>, key: string, isAudioFile: bool, env: Env)
    returns (r: Result<string, JobError>)
    modifies h
    ensures Outcome(r, h.State()) == Job(old(h.State()), key, isAudioFile, env)
  {
    ghost var st0 := h.State();
    if !env.clientOk {
      return Err(ClientError);
    }
    var bucket := env.bucket;
    var hlsKey := PlaylistKey(key);
    var tsKey := SegmentKey(key);
    var names := LocalNames(key);
    if names.None? {
      return Err(IndexPanic);
    }
    var n := names.value;
    var ok := DownloadFileFromS3(h, bucket, key, n.src, env.getReached, env.saveOk);
    ghost var d := DownloadSpec(st0, Loc(bucket, key), n.src, env.getReached, env.saveOk);
    assert d == Step(ok, h.State());
    if !ok {
      return Err(DownloadError);
    }
    var args := EncoderArgs(isAudioFile, n.src, n.dst);
    var outputs := if env.encoder.Some?
                   then Some(map[n.dst := env.encoder.value.playlist, n.ts := env.encoder.value.segment])
                   else None;
    ok := h.Exec(args, outputs);
    if !ok {
      assert h.State() == d.st.(effects := d.st.effects + [RunEncoder(args)]);
      return Err(TranscodeError);
    }
    ghost var st2 := AfterEncoder(d.st, args, n, env.encoder.value);
    assert h.State() == st2;
    ok := UploadFileToS3(h, bucket, hlsKey, n.dst, PlaylistContentType, env.playlistPutOk);
    ghost var u1 := UploadSpec(st2, Loc(bucket, hlsKey), n.dst, PlaylistContentType, env.playlistPutOk);
    assert u1 == Step(ok, h.State());
    if !ok {
      return Err(UploadError);
    }
    ok := UploadFileToS3(h, bucket, tsKey, n.ts, SegmentContentType, env.segmentPutOk);
    ghost var u2 := UploadSpec(u1.st, Loc(bucket, tsKey), n.ts, SegmentContentType, env.segmentPutOk);
    assert u2 == Step(ok, h.State());
    if !ok {
      return Err(UploadError);
    }
    h.Go(DeleteTask(Loc(bucket, key)));
    h.Go(RemoveFilesTask([n.src, n.dst, n.ts]));
    AppendTwo(u2.st.tasks, DeleteTask(Loc(bucket, key)), RemoveFilesTask([n.src, n.dst, n.ts]));
    r := Ok(hlsKey);
  }

  // ---------------------------------------------------------------------
  // The gRPC surface

  datatype ConversionRequest = ConversionRequest(key: string, isAudioFile: bool)
  datatype ConversionResponse = ConversionResponse(key: string)

  /**
    `Conversion`: any pipeline error becomes codes.Internal; an index panic
    ends the process; success answers with exactly the playlist key.
  */
  function ConversionReply(r: Result<string, JobError>): (reply: RpcReply<ConversionResponse>)
    ensures r == Err(IndexPanic) <==> reply.Crashed?
    ensures r.Err? && r.error != IndexPanic ==> reply == RpcError(Internal, "something went wrong")
    ensures reply.RpcOk? <==> r.Ok?
    ensures r.Ok? ==> reply == RpcOk(ConversionResponse(r.value))
  {
    match r
    case Ok(k) => RpcOk(ConversionResponse(k))
    case Err(IndexPanic) => Crashed
    case Err(_) => RpcError(Internal, "something went wrong")
  }

  /** The `Conversion` handler. */
  method Conversion(h: Host<Task>, req: ConversionRequest, env: Env) returns (reply: RpcReply<ConversionResponse>)
    modifies h
    ensures var o := Job(old(h.State()), req.key, req.isAudioFile, env);
      reply == ConversionReply(o.result) && h.State() == o.st
  {
    var r := ConvertMediaFile(h, req.key, req.isAudioFile, env);
    reply := ConversionReply(r);
  }

  /**
    One inbound call: the interceptor, then the handler only if it admits the
    call. A rejected call touches nothing.
  */
  method Serve(h: Host<Task>, md: Option<Metadata>, secret: string, req: ConversionRequest, env: Env)
    returns (reply: RpcReply<ConversionResponse>)
    modifies h
    ensures var g := EnsureValidToken(md, secret);
      && (g.Reject? ==> reply == RpcError(g.code, g.message) && h.State() == old(h.State()))
      && (g.Admit? ==> var o := Job(old(h.State()), req.key, req.isAudioFile, env);
                       reply == ConversionReply(o.result) && h.State() == o.st)
  {
    var g := EnsureValidToken(md, secret);
    if g.Reject? {
      return RpcError(g.code, g.message);
    }
    reply := Conversion(h, req, env);
  }

  // ---------------------------------------------------------------------
  // The background goroutines

  /** `removeFiles`: remove each file in turn; a failure is only logged. */
  method RemoveFiles(h: Host<Task>, fileNames: seq<string>)
    modifies h
    ensures h.State() == old(h.State()).(scratch := old(h.scratch) - set f | f in fileNames)
  {
    var i := 0;
    while i < |fileNames|
      invariant 0 <= i <= |fileNames|
      invariant h.State() == old(h.State()).(scratch := old(h.scratch) - set f | f in fileNames[..i])
    {
      var _ := h.RemoveFile(fileNames[i]);
      assert fileNames[..i + 1] == fileNames[..i] + [fileNames[i]];
      i := i + 1;
    }
    assert fileNames[..i] == fileNames;
  }

  /** `deleteFileFromS3`: a failure is only logged. */
  method DeleteFileFromS3(h: Host<Task>, bucket: string, key: string, succeeds: bool)
    modifies h
    ensures h.State() == old(h.State()).(
      objects := if succeeds then old(h.objects) - {Loc(bucket, key)} else old(h.objects),
      effects := old(h.effects) + [DeleteObject(Loc(bucket, key))])
  {
    var _ := h.Delete(Loc(bucket, key), succeeds);
  }

  /** The world after the oldest queued goroutine has run. */
  function RunTask(st: State, deleteOk: bool): State
    requires st.tasks != []
  {
    var rest := st.(tasks := st.tasks[1..]);
    match st.tasks[0]
    case DeleteTask(loc) =>
      rest.(objects := if deleteOk then st.objects - {loc} else st.objects,
            effects := st.effects + [DeleteObject(loc)])
    case RemoveFilesTask(paths) =>
      rest.(scratch := st.scratch - set f | f in paths)
  }

  /** Runs the oldest queued goroutine to completion. */
  method RunNextTask(h: Host<Task>, deleteOk: bool)
    requires h.tasks != []
    modifies h
    ensures h.State() == RunTask(old(h.State()), deleteOk)
  {
    var t := h.NextTask();
    match t
    case DeleteTask(loc) => DeleteFileFromS3(h, loc.bucket, loc.key, deleteOk);
    case RemoveFilesTask(paths) => RemoveFiles(h, paths);
  }

  // ---------------------------------------------------------------------
  // Retirement when the source key is also an output key

  /** "video/clip.ts" is its own segment key. */
  lemma ClipIsOwnSegmentKey(key: string)
    requires key == "video/clip.ts"
    ensures SegmentKey(key) == key
  {
    var a, b := "video/clip", "ts";
    assert '.' !in a by {
      forall i | 0 <= i < |a| ensures a[i] != '.' {}
    }
    assert key == a + ['.'] + b;
    SplitAfterFirst(a, b, '.');
  }

  /**
    As written, a source whose key already ends in ".ts" (for instance
    "video/clip.ts") IS the segment key: the upload replaces the source, and
    the deletion the job queues first then removes the published segment.
  */
  lemma RetireRemovesOwnOutput(st: State, key: string, isAudio: bool, env: Env)
    requires key == SegmentKey(key)
    requires st.tasks == []
    requires Job(st, key, isAudio, env).result.Ok?
    ensures var o := Job(st, key, isAudio, env);
      && Loc(env.bucket, SegmentKey(key)) in o.st.objects
      && o.st.tasks != []
      && Loc(env.bucket, SegmentKey(key)) !in RunTask(o.st, true).objects
  {
    JobSuccess(st, key, isAudio, env);
  }

  /**
    The evidently intended job: identical, except that the source is not
    queued for deletion when its key is one of the two output keys.
  */
  function SafeJob(st: State, key: string, isAudio: bool, env: Env): (o: Outcome)
    ensures o.result == Job(st, key, isAudio, env).result
  {
    var o := Job(st, key, isAudio, env);
    if o.result.Ok? && (key == PlaylistKey(key) || key == SegmentKey(key)) then
      JobSuccess(st, key, isAudio, env);
      var n := LocalNames(key).value;
      o.(st := o.st.(tasks := st.tasks + [RemoveFilesTask([n.src, n.dst, n.ts])]))
    else o
  }

  /**
    With the corrected job, the goroutines it queues, run in order with any
    delete outcome, leave both published outputs in place.
  */
  lemma SafeJobKeepsOutputs(st: State, key: string, isAudio: bool, env: Env, deleteOk: bool)
    requires st.tasks == []
    requires SafeJob(st, key, isAudio, env).result.Ok?
    ensures var o := SafeJob(st, key, isAudio, env);
      var playlist := Loc(env.bucket, PlaylistKey(key));
      var segment := Loc(env.bucket, SegmentKey(key));
      && playlist in o.st.objects && segment in o.st.objects
      && o.st.tasks != []
      && playlist in RunTask(o.st, deleteOk).objects && segment in RunTask(o.st, deleteOk).objects
      && (RunTask(o.st, deleteOk).tasks != [] ==>
            playlist in RunTask(RunTask(o.st, deleteOk), deleteOk).objects
            && segment in RunTask(RunTask(o.st, deleteOk), deleteOk).objects)
  {
    JobSuccess(st, key, isAudio, env);
    var o := SafeJob(st, key, isAudio, env);
    var n := LocalNames(key).value;
    var source := Loc(env.bucket, key);
    var cleanup := RemoveFilesTask([n.src, n.dst, n.ts]);
    assert o.st.tasks == [cleanup] || (o.st.tasks == [DeleteTask(source), cleanup]
                                      && source != Loc(env.bucket, PlaylistKey(key))
                                      && source != Loc(env.bucket, SegmentKey(key)));
    CleanupQueuedKeeps(o.st, deleteOk, source, cleanup, Loc(env.bucket, PlaylistKey(key)), Loc(env.bucket, SegmentKey(key)));
  }

  /**
    A lone cleanup goroutine, or the deletion of some third object followed
    by the cleanup, keeps both outputs.
  */
  lemma CleanupQueuedKeeps(st: State, deleteOk: bool, source: Loc, cleanup: Task, playlist: Loc, segment: Loc)
    requires cleanup.RemoveFilesTask?
    requires st.tasks == [cleanup] || (st.tasks == [DeleteTask(source), cleanup] && source != playlist && source != segment)
    requires playlist in st.objects && segment in st.objects
    ensures st.tasks != []
    ensures playlist in RunTask(st, deleteOk).objects && segment in RunTask(st, deleteOk).objects
    ensures RunTask(st, deleteOk).tasks != [] ==>
      playlist in RunTask(RunTask(st, deleteOk), deleteOk).objects
      && segment in RunTask(RunTask(st, deleteOk), deleteOk).objects
  {
    TasksKeep(st, deleteOk, playlist);
    TasksKeep(st, deleteOk, segment);
  }

  /**
    The first two queued goroutines keep every object none of the queued
    goroutines deletes.
  */
  lemma TasksKeep(st: State, deleteOk: bool, loc: Loc)
    requires loc in st.objects && st.tasks != []
    requires forall i :: 0 <= i < |st.tasks| ==> st.tasks[i] != DeleteTask(loc)
    ensures loc in RunTask(st, deleteOk).objects
    ensures RunTask(st, deleteOk).tasks != [] ==> loc in RunTask(RunTask(st, deleteOk), deleteOk).objects
  {
    RunTaskKeeps(st, deleteOk, loc);
    var r := RunTask(st, deleteOk);
    if r.tasks != [] {
      assert r.tasks[0] == st.tasks[1];
      RunTaskKeeps(r, deleteOk, loc);
    }
  }

  /** A goroutine keeps every object it is not the deletion of. */
  lemma RunTaskKeeps(st: State, deleteOk: bool, loc: Loc)
    requires st.tasks != []
    ensures loc in st.objects && st.tasks[0] != DeleteTask(loc) ==> loc in RunTask(st, deleteOk).objects
  {
  }
}

/** Playback: the ready gate, the reads by key behind it, and what a playlist alone does not promise. */
module Playback {
  import opened Wrappers
  import opened Lex
  import opened Decimal
  import opened Keys
  import opened Pipeline
  import opened PipelineInvariant
  import opened PipelineTheorems

  // ----- Reading -----

  function AsUint(i: int): nat
    requires -MAX_INT - 1 <= i
  {
    if i < 0 then 2 * (MAX_INT + 1) + i else i
  }

  datatype PlayInfo = PlayInfo(id: nat, title: string, url: string)

  /** The ready gate in front of playback. */
  function GetVideo(st: Store, videoID: string): Result<PlayInfo>
  {
    var id := AsUint(Atoi(videoID));
    if id !in st.rows then Failure("video not found")
    else if st.rows[id].status != VideoReady then Failure("video not processed yet")
    else
      Success(PlayInfo(st.rows[id].id, st.rows[id].title,
        "http://127.0.0.1:8083/video/hls/" + Digits(st.rows[id].id) + "/index.m3u8"))
  }

  /** Playlist and segments are read by key, with no look at the row. */
  function GetHlsSegment(st: Store, videoID: string, segment: string): Result<Bytes>
  {
    var key := ReaderKey(videoID, segment);
    if key in st.objects then Success(st.objects[key]) else Failure("object not found")
  }

  function OriginalKeyOf(st: Store, id: nat): string
  {
    OriginalKey(id, if id in st.origin then st.origin[id].fileName else "")
  }

  // ----- Every object belongs to a row -----

  ghost predicate Owned(st: Store, key: string)
  {
    exists id: nat, name :: id in st.rows && (key == OriginalKey(id, name) || key == ProcessedKey(id, name))
  }

  ghost predicate AllOwned(st: Store)
  {
    forall key :: key in st.objects ==> Owned(st, key)
  }

  lemma PutKeepsOwned(st: Store, id: nat, name: string, data: Bytes)
    requires AllOwned(st) && id in st.rows
    ensures AllOwned(PutObject(st, OriginalKey(id, name), data)) && AllOwned(PutObject(st, ProcessedKey(id, name), data))
  {
    var a, b := PutObject(st, OriginalKey(id, name), data), PutObject(st, ProcessedKey(id, name), data);
    forall key | key in st.objects || key == OriginalKey(id, name) || key == ProcessedKey(id, name)
      ensures Owned(a, key) && Owned(b, key)
    {
      if key in st.objects {
        assert Owned(st, key);
      }
    }
  }

  lemma RowKeepsOwned(st: Store, st': Store)
    requires AllOwned(st) && st'.objects == st.objects && st.rows.Keys <= st'.rows.Keys
    ensures AllOwned(st')
  {
    forall key | key in st.objects
      ensures Owned(st', key)
    {
      assert Owned(st, key);
    }
  }

  /** What a step writes to the store: nothing, a row, or an object of an existing row. */
  lemma StepKeepsOwned(t: Transcoder, s: State, step: Step)
    requires Inv(t, s) && AllOwned(s.store) && Enabled(t, s, step)
    ensures AllOwned(Apply(t, s, step).store)
  {
    if step.StoreOriginal? {
      var up := s.uploads[step.u];
      assert UploadOk(s.store, s.broker.published, up);
      PutKeepsOwned(s.store, up.phase.id, up.req.fileName, ReadPath(s.disk, up.path));
    } else if step.StoreOutput? {
      var a := s.attempts[step.c];
      assert AttemptOk(t, s.store, a);
      PutKeepsOwned(s.store, a.job.videoID, a.phase.names[a.phase.next], a.phase.files[a.phase.names[a.phase.next]]);
    } else {
      RowStepsLeaveObjects(t, s, step);
      RowKeepsOwned(s.store, Apply(t, s, step).store);
    }
  }

  lemma RowStepsLeaveObjects(t: Transcoder, s: State, step: Step)
    requires Enabled(t, s, step) && !step.StoreOriginal? && !step.StoreOutput?
    ensures
      var after := Apply(t, s, step).store;
      after.objects == s.store.objects && s.store.rows.Keys <= after.rows.Keys
  {
  }

  lemma {:induction false} RunKeepsOwned(t: Transcoder, s: State, steps: seq<Step>, s': State)
    requires Inv(t, s) && AllOwned(s.store) && Runs(t, s, steps, s')
    ensures AllOwned(s'.store)
    decreases |steps|
  {
    if steps != [] {
      StepKeepsInv(t, s, steps[0]);
      StepKeepsOwned(t, s, steps[0]);
      RunKeepsOwned(t, Apply(t, s, steps[0]), steps[1..], s');
    }
  }

  /** A text without slashes reads objects only as the plain decimal of some row. */
  lemma ReadsByDecimal(st: Store, text: string, name: string)
    requires AllOwned(st) && '/' !in text && GetHlsSegment(st, text, name).Success?
    ensures exists id: nat :: id in st.rows && text == Digits(id)
  {
    var key := ReaderKey(text, name);
    assert Owned(st, key);
    var id: nat, n :| id in st.rows && (key == OriginalKey(id, n) || key == ProcessedKey(id, n));
    assert key[0] == 'p' && OriginalKey(id, n)[0] == 'o';
    assert key == "processed/" + (text + ("/" + name));
    SameHead("processed/", text + ("/" + name), Digits(id) + ("/" + n));
    DigitsHaveNoSlash(id);
    SplitAtSlash(text, name, Digits(id), n);
  }

  // ----- The gate and the reads -----

  /**
   * The gate opens for a text exactly when the video it parses to is ready; then every file of that video can be read
   * through the identifier the gate returns.
   */
  lemma WatchableIsPlayable(t: Transcoder, steps: seq<Step>, s: State, videoID: string)
    requires Runs(t, Init, steps, s)
    ensures GetVideo(s.store, videoID).Success? <==> Done(s.store, AsUint(Atoi(videoID)))
    ensures GetVideo(s.store, videoID).Success? ==>
      var id := GetVideo(s.store, videoID).value.id;
      && id == AsUint(Atoi(videoID)) && OriginalKeyOf(s.store, id) in s.store.objects
      && id in s.store.origin && GetVideo(s.store, videoID).value.title == s.store.origin[id].title
      && GetVideo(s.store, videoID).value.url == "http://127.0.0.1:8083/video/hls/" + Digits(id) + "/index.m3u8"
      && forall name :: name in t(s.store.objects[OriginalKeyOf(s.store, id)]) ==>
           GetHlsSegment(s.store, Digits(id), name) == Success(t(s.store.objects[OriginalKeyOf(s.store, id)])[name])
  {
    var id := AsUint(Atoi(videoID));
    if Done(s.store, id) {
      ReadyIsComplete(t, steps, s, id);
      ReadyIsForever(t, steps, s, [], s, id);
      RowsHoldTheirUpload(t, steps, s);
      forall name
        ensures ReaderKey(Digits(id), name) == ProcessedKey(id, name)
      {
        ReaderFindsProcessed(Digits(id), id, name);
      }
    }
  }

  /**
   * The text itself reads nothing unless it is the plain decimal of the identifier: for "007" the gate opens once video 7
   * is ready, and every read by that text fails. Only rows numbered beyond the parser's range escape this, being taken for
   * its largest number.
   */
  lemma OtherTextsReadNothing(t: Transcoder, steps: seq<Step>, s: State, videoID: string, name: string)
    requires Runs(t, Init, steps, s) && GetVideo(s.store, videoID).Success?
    ensures GetHlsSegment(s.store, videoID, name).Success? ==>
      || videoID == Digits(GetVideo(s.store, videoID).value.id)
      || exists j: nat :: j > MAX_INT && j in s.store.rows && videoID == Digits(j)
  {
    Reachable(t, steps, s);
    InitInv(t);
    RunKeepsOwned(t, Init, steps, s);
    WatchableIsPlayable(t, steps, s, videoID);
    assert RowOk(t, s.store, AsUint(Atoi(videoID)));
    if '/' in videoID {
      AtoiWithSlash(videoID);
    } else if GetHlsSegment(s.store, videoID, name).Success? {
      ReadsByDecimal(s.store, videoID, name);
      var id: nat :| id in s.store.rows && videoID == Digits(id);
      if id <= MAX_INT {
        AtoiOfDigits(id);
      }
    }
  }

  /** Once video 7 is ready the gate opens for "007", and every read by that text fails. */
  lemma LeadingZeros(t: Transcoder, steps: seq<Step>, s: State, name: string)
    requires Runs(t, Init, steps, s) && Done(s.store, 7)
    ensures GetVideo(s.store, "007").Success? && GetHlsSegment(s.store, "007", name).Failure?
  {
    AtoiOfPadded();
    WatchableIsPlayable(t, steps, s, "007");
    OtherTextsReadNothing(t, steps, s, "007", name);
    forall j: nat
      ensures Digits(j) == "007" ==> j == 0
    {
      NoLeadingZero(j);
    }
  }

  /** In a directory listing the playlist comes before every segment, so it is stored first. */
  lemma PlaylistPrecedesSegments(names: seq<string>, files: Dir, i: nat, j: nat, k: nat)
    requires IsListing(names, files)
    requires i < |names| && names[i] == "index.m3u8"
    requires j < |names| && names[j] == "index" + (Digits(k) + ".ts")
    ensures i < j
  {
    LessAfterPrefix("index", ".m3u8", Digits(k) + ".ts");
    assert "index" + ".m3u8" == "index.m3u8";
    assert IsDigit(Digits(k)[0]) && (Digits(k) + ".ts")[0] == Digits(k)[0];
    assert Less(names[i], names[j]);
    LessTrichotomy(names[i], names[j]);
    LessIrreflexive(names[i]);
  }

  // ----- The playlist promises nothing -----

  /** Everything an upload does up to its queued job, alone in an empty system. */
  ghost function Uploaded(req: Request): State
  {
    var job := JobFor(1, req);
    State(
      Disk(map["t" := 0], map[0 := req.file]),
      Store(map[1 := SavedRow(1, req)], map[OriginalKey(1, req.fileName) := req.file], map[1 := req]),
      Broker(multiset{job}, map[], 0, {job}),
      map[0 := Upload(req, "t", 0, Queued(1))],
      map[])
  }

  lemma UploadedIsReachable(t: Transcoder, req: Request) returns (steps: seq<Step>)
    ensures Runs(t, Init, steps, Uploaded(req))
    ensures steps != [] && forall i :: 1 <= i < |steps| ==> !steps[i].CreateTemp?
  {
    var s1 := Apply(t, Init, CreateTemp(0, req, "t", 0));
    var s2 := Apply(t, s1, CopyTemp(0));
    var s3 := Apply(t, s2, InsertRow(0, 1));
    RunsOne(t, Init, CreateTemp(0, req, "t", 0));
    RunsSnoc(t, Init, [CreateTemp(0, req, "t", 0)], s1, CopyTemp(0));
    steps := [CreateTemp(0, req, "t", 0)] + [CopyTemp(0)];
    RunsSnoc(t, Init, steps, s2, InsertRow(0, 1));
    steps := steps + [InsertRow(0, 1)];
    assert s3.store == Store(map[1 := FreshRow(1, req)], map[], map[1 := req]);
    assert s3.uploads == map[0 := Upload(req, "t", 0, Inserted(1))] && s3.disk == Disk(map["t" := 0], map[0 := req.file]);
    var more := RestOfUpload(t, req, s3);
    RunsConcat(t, Init, steps, s3, more, Uploaded(req));
    steps := steps + more;
  }

  /** The row of the upload inserted, its original not yet stored. */
  ghost predicate AtInserted(s: State, req: Request)
  {
    && s.disk == Disk(map["t" := 0], map[0 := req.file])
    && s.store == Store(map[1 := FreshRow(1, req)], map[], map[1 := req])
    && s.broker == Init.broker && s.attempts == map[] && s.uploads == map[0 := Upload(req, "t", 0, Inserted(1))]
  }

  /** The original stored and the row saved. */
  ghost predicate AtSaved(s: State, req: Request)
  {
    s == Uploaded(req).(broker := Init.broker, uploads := map[0 := Upload(req, "t", 0, Saved(1))])
  }

  lemma StoreAndSave(t: Transcoder, req: Request, s3: State) returns (steps: seq<Step>, s5: State)
    requires AtInserted(s3, req)
    ensures Runs(t, s3, steps, s5) && AtSaved(s5, req)
    ensures forall i :: 0 <= i < |steps| ==> !steps[i].CreateTemp?
  {
    var s4 := Apply(t, s3, StoreOriginal(0));
    s5 := Apply(t, s4, SaveRow(0));
    RunsOne(t, s3, StoreOriginal(0));
    RunsSnoc(t, s3, [StoreOriginal(0)], s4, SaveRow(0));
    steps := [StoreOriginal(0)] + [SaveRow(0)];
  }

  lemma RestOfUpload(t: Transcoder, req: Request, s3: State) returns (steps: seq<Step>)
    requires AtInserted(s3, req)
    ensures Runs(t, s3, steps, Uploaded(req))
    ensures forall i :: 0 <= i < |steps| ==> !steps[i].CreateTemp?
  {
    var s5;
    steps, s5 := StoreAndSave(t, req, s3);
    assert Apply(t, s5, PublishJob(0)) == Uploaded(req);
    RunsSnoc(t, s3, steps, s5, PublishJob(0));
    steps := steps + [PublishJob(0)];
  }

  lemma TakenIsReachable(t: Transcoder, req: Request) returns (steps: seq<Step>, s: State)
    ensures Runs(t, Uploaded(req), steps, s)
    ensures s.store == Uploaded(req).store && 0 in s.attempts
    ensures s.attempts[0] == Attempt(0, JobFor(1, req), Taken)
  {
    var job := JobFor(1, req);
    var s1 := Apply(t, Uploaded(req), Deliver(0, job));
    RunsOne(t, Uploaded(req), Deliver(0, job));
    s := Apply(t, s1, Begin(0, 0));
    RunsSnoc(t, Uploaded(req), [Deliver(0, job)], s1, Begin(0, 0));
    steps := [Deliver(0, job)] + [Begin(0, 0)];
  }

  /** A consumer on its way: the output is listed, nothing of it stored. */
  lemma ListedIsReachable(t: Transcoder, req: Request, names: seq<string>) returns (steps: seq<Step>, s: State)
    requires IsListing(names, t(req.file))
    ensures Runs(t, Uploaded(req), steps, s)
    ensures s.store == Uploaded(req).store && 0 in s.attempts
    ensures s.attempts[0] == Attempt(0, JobFor(1, req), Listed(t(req.file), names, 0))
  {
    var taken;
    steps, taken := TakenIsReachable(t, req);
    var fetched := Apply(t, taken, Download(0));
    RunsSnoc(t, Uploaded(req), steps, taken, Download(0));
    steps := steps + [Download(0)];
    assert map[] + t(req.file) == t(req.file);
    s := Apply(t, fetched, TranscodeInput(0, map[], names));
    RunsSnoc(t, Uploaded(req), steps, fetched, TranscodeInput(0, map[], names));
    steps := steps + [TranscodeInput(0, map[], names)];
  }

  lemma OnlyPlaylist(req: Request, files: Dir, names: seq<string>)
    requires IsListing(names, files) && names != [] && names[0] == "index.m3u8"
    ensures
      var st := PutObject(Uploaded(req).store, ProcessedKey(1, names[0]), files[names[0]]);
      && GetHlsSegment(st, Digits(1), "index.m3u8") == Success(files["index.m3u8"])
      && forall i :: 1 <= i < |names| ==> GetHlsSegment(st, Digits(1), names[i]).Failure?
  {
    var st := PutObject(Uploaded(req).store, ProcessedKey(1, names[0]), files[names[0]]);
    ReaderFindsProcessed(Digits(1), 1, "index.m3u8");
    forall i | 1 <= i < |names|
      ensures GetHlsSegment(st, Digits(1), names[i]).Failure?
    {
      ReaderFindsProcessed(Digits(1), 1, names[i]);
      KeysNeverCollide(1, names[i], 1, "index.m3u8");
      KeysNeverCollide(1, req.fileName, 1, names[i]);
      LessIrreflexive(names[0]);
    }
  }

  /**
   * Whatever the transcoder makes of a file besides a playlist that is listed first, a reachable state has the playlist
   * stored and readable, every other file missing, and the video not ready.
   */
  lemma PlaylistAlone(t: Transcoder, req: Request, names: seq<string>) returns (steps: seq<Step>, s: State)
    requires IsListing(names, t(req.file)) && names != [] && names[0] == "index.m3u8"
    ensures Runs(t, Init, steps, s) && !Done(s.store, 1)
    ensures GetHlsSegment(s.store, Digits(1), "index.m3u8") == Success(t(req.file)["index.m3u8"])
    ensures forall i :: 1 <= i < |names| ==> GetHlsSegment(s.store, Digits(1), names[i]).Failure?
  {
    steps := UploadedIsReachable(t, req);
    var more, listed := ListedIsReachable(t, req, names);
    RunsConcat(t, Init, steps, Uploaded(req), more, listed);
    RunsSnoc(t, Init, steps + more, listed, StoreOutput(0));
    steps := steps + more + [StoreOutput(0)];
    s := Apply(t, listed, StoreOutput(0));
    OnlyPlaylist(req, t(req.file), names);
  }
}

/**
 * The uploader and the consumer as the code runs them, one call after another on the shared stores.
 * Every run of a method is a run of the pipeline machine. Which call fails, and whether it failed after
 * taking effect, is chosen by the caller; so are database identifiers and leftover files.
 */
module StreamingService {
  import opened Wrappers
  import opened Lex
  import opened Keys
  import opened Pipeline
  import opened PipelineInvariant
  import PipelineTheorems

  datatype UploadFault =
    | NoFault
    | AtCreateDir
    | AtCreateFile
    | AtCopy(written: nat)
    | AtInsert(applied: bool)
    | AtStore(applied: bool)
    | AtSave(applied: bool)
    | AtMarshal
    | AtPublish(applied: bool)
    | AtRemove

  datatype UploadRes = UploadRes(message: string, videoID: nat)

  /** The file an open by this path takes, given a new one in case the name is not in use. */
  function Opening(disk: Disk, path: string, newFile: nat): nat
  {
    if path in disk.paths then disk.paths[path] else newFile
  }

  /** What an upload is about: its request, its temporary file by path and handle, and its row's identifier. */
  datatype Plan = Plan(u: nat, up: Request, path: string, file: nat, id: nat)

  /** The path names the open file. */
  predicate NamedBy(disk: Disk, p: Plan)
  {
    p.path in disk.paths && disk.paths[p.path] == p.file && p.file in disk.files
  }

  function FullUpload(p: Plan): (steps: seq<Step>)
    ensures |steps| == 7
  {
    [CreateTemp(p.u, p.up, p.path, p.file), CopyTemp(p.u), InsertRow(p.u, p.id), StoreOriginal(p.u), SaveRow(p.u),
     PublishJob(p.u), RemoveTemp(p.u)]
  }

  /** How many steps of a full upload take effect before the fault ends it. */
  function Reached(fault: UploadFault): (n: nat)
    ensures n <= 7
  {
    match fault
    case NoFault => 7
    case AtCreateDir => 0
    case AtCreateFile => 0
    case AtCopy(_) => 1
    case AtInsert(applied) => if applied then 3 else 2
    case AtStore(applied) => if applied then 4 else 3
    case AtSave(applied) => if applied then 5 else 4
    case AtMarshal => 5
    case AtPublish(applied) => if applied then 6 else 5
    case AtRemove => 6
  }

  predicate InsertsRow(fault: UploadFault)
  {
    !fault.AtCreateDir? && !fault.AtCreateFile? && !fault.AtCopy? && fault != AtInsert(false)
  }

  predicate StoresOriginal(fault: UploadFault)
  {
    InsertsRow(fault) && !fault.AtInsert? && fault != AtStore(false)
  }

  predicate SavesRow(fault: UploadFault)
  {
    StoresOriginal(fault) && !fault.AtStore? && fault != AtSave(false)
  }

  lemma StagesReached(fault: UploadFault)
    ensures Reached(fault) >= 3 <==> InsertsRow(fault)
    ensures Reached(fault) >= 4 <==> StoresOriginal(fault)
    ensures Reached(fault) >= 5 <==> SavesRow(fault)
  {
  }

  /** An upload reports an error although its job is queued exactly when clean-up fails or a publish that took effect errs. */
  lemma ErrorsThatQueue(fault: UploadFault)
    ensures Reached(fault) >= 6 && !fault.NoFault? <==> fault == AtRemove || fault == AtPublish(true)
  {
  }

  function UploadScript(p: Plan, fault: UploadFault): seq<Step>
  {
    FullUpload(p)[..Reached(fault)]
    + match fault
      case NoFault => []
      case AtCreateDir => []
      case AtCreateFile => []
      case AtCopy(written) => [CopyFails(p.u, if written <= |p.up.file| then written else |p.up.file|)]
      case _ => [UploadStops(p.u)]
  }

  datatype AttemptFault =
    | NoFailure
    | AtDownload
    | AtMakeDir
    | AtTranscode
    | AtReadDir
    | AtUpload(index: nat, uploaded: bool)
    | AtGetRow
    | AtUpdate(updated: bool)

  /** What one delivery meets: files an earlier attempt left in the output directory, and a failure if any. */
  datatype Conditions = Conditions(leftover: Dir, fault: AttemptFault)

  /** The objects once these files of a directory are stored, in order, under the video's prefix. */
  function WithOutputs(objects: map<string, Bytes>, id: nat, files: Dir, names: seq<string>): map<string, Bytes>
  {
    if names == [] then objects
    else
      var name := names[|names| - 1];
      WithOutputs(objects, id, files, names[..|names| - 1])[ProcessedKey(id, name) := if name in files then files[name] else []]
  }

  lemma {:induction false} OutputStays(objects: map<string, Bytes>, id: nat, files: Dir, names: seq<string>, i: nat)
    requires StrictlySorted(names) && i < |names| && names[i] in files
    ensures
      var now := WithOutputs(objects, id, files, names);
      ProcessedKey(id, names[i]) in now && now[ProcessedKey(id, names[i])] == files[names[i]]
  {
    if i < |names| - 1 {
      OutputStays(objects, id, files, names[..|names| - 1], i);
      KeysNeverCollide(id, names[i], id, names[|names| - 1]);
      LessIrreflexive(names[i]);
    }
  }

  lemma AllOutputs(objects: map<string, Bytes>, id: nat, files: Dir, names: seq<string>)
    requires IsListing(names, files)
    ensures
      var now := WithOutputs(objects, id, files, names);
      forall name :: name in files ==> ProcessedKey(id, name) in now && now[ProcessedKey(id, name)] == files[name]
  {
    forall name | name in files
      ensures
        var now := WithOutputs(objects, id, files, names);
        ProcessedKey(id, name) in now && now[ProcessedKey(id, name)] == files[name]
    {
      var i :| 0 <= i < |names| && names[i] == name;
      OutputStays(objects, id, files, names, i);
    }
  }

  /** How many of the listed files are stored when an attempt meets the fault. */
  function OutputsStored(names: seq<string>, fault: AttemptFault): (n: nat)
    ensures n <= |names|
  {
    if !fault.AtUpload? || fault.index >= |names| then |names|
    else if fault.uploaded then fault.index + 1 else fault.index
  }

  function Failures(cs: seq<Conditions>): nat
  {
    if cs == [] then 0 else (if cs[0].fault.NoFailure? then 0 else 1) + Failures(cs[1..])
  }

  method ReadDir(files: Dir) returns (names: seq<string>)
    ensures IsListing(names, files)
  {
    names := [];
    var rest := files.Keys;
    while rest != {}
      invariant rest <= files.Keys && StrictlySorted(names)
      invariant forall n :: n in files ==> n in names || n in rest
      invariant forall i :: 0 <= i < |names| ==> names[i] in files
      invariant forall i, x :: 0 <= i < |names| && x in rest ==> Less(names[i], x)
      decreases rest
    {
      LeastExists(rest);
      var m :| m in rest && forall x :: x in rest ==> AtMost(m, x);
      var next := names + [m];
      assert forall n :: n in names ==> n in next;
      assert m == next[|names|];
      names, rest := next, rest - {m};
    }
  }

  class Service {
    const transcode: Transcoder

    var disk: Disk
    var rows: map<nat, Video>
    var objects: map<string, Bytes>
    var queue: multiset<Job>
    var unacked: map<nat, Delivery>
    var nextTag: nat

    ghost var origin: map<nat, Request>
    ghost var published: set<Job>
    ghost var uploads: map<nat, Upload>
    ghost var attempts: map<nat, Attempt>

    ghost function View(): State
      reads this
    {
      State(disk, Store(rows, objects, origin), Broker(queue, unacked, nextTag, published), uploads, attempts)
    }

    constructor (transcode: Transcoder)
      ensures View() == Init && this.transcode == transcode
    {
      this.transcode := transcode;
      disk, rows, objects, queue, unacked, nextTag := Disk(map[], map[]), map[], map[], multiset{}, map[], 0;
      origin, published, uploads, attempts := map[], {}, map[], map[];
    }

    // ----- The producer -----

    /** The upload has taken the first `k` steps of its script, and its job is queued once the sixth is taken. */
    ghost predicate Progress(s0: State, p: Plan, k: nat)
      reads this
      requires 1 <= k <= 7
    {
      && Leads(transcode, s0, FullUpload(p)[..k], View())
      && (k < 7 ==> NamedBy(disk, p) && p.u in uploads && uploads[p.u] == Upload(p.up, p.path, p.file, PhaseAfter(k, p.id)))
      && (k < 3 ==> 0 < p.id && p.id !in rows)
      && (k < 7 ==> disk.files[p.file] == if k == 1 then [] else p.up.file)
      && Shows(s0, p, k)
    }

    static function PhaseAfter(k: nat, id: nat): UploadPhase
      requires 1 <= k < 7
    {
      if k == 1 then Opened
      else if k == 2 then Copied
      else if k == 3 then Inserted(id)
      else if k == 4 then Stored(id)
      else if k == 5 then Saved(id)
      else Queued(id)
    }

    /** What `k` steps of an upload leave in the table, the object store and the queue. */
    ghost predicate Shows(s0: State, p: Plan, k: nat)
      reads this
    {
      && rows == (if k >= 5 then s0.store.rows[p.id := SavedRow(p.id, p.up)]
                  else if k >= 3 then s0.store.rows[p.id := FreshRow(p.id, p.up)]
                  else s0.store.rows)
      && objects == (if k >= 4 then s0.store.objects[OriginalKey(p.id, p.up.fileName) := p.up.file]
                     else s0.store.objects)
      && queue == (if k >= 6 then s0.broker.queue + multiset{JobFor(p.id, p.up)} else s0.broker.queue)
    }

    /** The table, the object store and the queue after an upload, field by field. */
    ghost predicate Outcome(s0: State, up: Request, id: nat, fault: UploadFault)
      reads this
    {
      && rows == (
        if SavesRow(fault) then
          s0.store.rows[id := Video(id, up.title, up.description, OriginalKey(id, up.fileName), up.kind, VideoUpload, 0)]
        else if InsertsRow(fault) then
          s0.store.rows[id := Video(id, up.title, up.description, up.fileName, up.kind, VideoUpload, 0)]
        else s0.store.rows)
      && objects == (
        if StoresOriginal(fault) then s0.store.objects[OriginalKey(id, up.fileName) := up.file] else s0.store.objects)
      && queue == (
        if fault.NoFault? || fault == AtRemove || fault == AtPublish(true) then
          s0.broker.queue + multiset{Job(id, OriginalKey(id, up.fileName), up.kind)}
        else s0.broker.queue)
    }

    lemma ShowsOutcome(s0: State, p: Plan, fault: UploadFault)
      requires Shows(s0, p, Reached(fault))
      ensures Outcome(s0, p.up, p.id, fault)
    {
      StagesReached(fault);
      ErrorsThatQueue(fault);
    }

    /** The upload is over, having run exactly the script of its fault. */
    ghost predicate Ended(s0: State, p: Plan, fault: UploadFault)
      reads this
    {
      Leads(transcode, s0, UploadScript(p, fault), View()) && Outcome(s0, p.up, p.id, fault)
    }

    lemma Took(s0: State, p: Plan, k: nat)
      requires 1 <= k < 7 && Progress(s0, p, k)
      requires Enabled(transcode, View(), FullUpload(p)[k])
      ensures Leads(transcode, s0, FullUpload(p)[..k + 1], Apply(transcode, View(), FullUpload(p)[k]))
    {
      var full := FullUpload(p);
      LeadsSnoc(transcode, s0, full[..k], View(), full[k]);
      assert full[..k + 1] == full[..k] + [full[k]];
    }

    /** An error after `k` steps: the upload returns. */
    ghost method Fails(s0: State, p: Plan, k: nat, fault: UploadFault)
      requires 2 <= k < 7 && k == Reached(fault) && Progress(s0, p, k)
      modifies this`uploads
      ensures Ended(s0, p, fault)
    {
      LeadsSnoc(transcode, s0, FullUpload(p)[..k], View(), UploadStops(p.u));
      ShowsOutcome(s0, p, fault);
      uploads := uploads - {p.u};
    }

    method CreateFile(ghost s0: State, ghost p: Plan, path: string, file: nat)
      requires View() == s0 && p.u !in uploads && 0 < p.id && p.id !in rows
      requires p.path == path && p.file == file && MayOpen(disk, path, file)
      modifies this`disk, this`uploads
      ensures Progress(s0, p, 1)
    {
      ghost var full := FullUpload(p);
      LeadsOne(transcode, s0, full[0]);
      assert full[..1] == [full[0]];
      disk := Truncate(disk, path, file);
      uploads := uploads[p.u := Upload(p.up, path, file, Opened)];
    }

    /** Writes through the open file, whatever its path names by now. */
    method CopyFile(ghost s0: State, ghost p: Plan, up: Request, file: nat, fault: UploadFault) returns (ok: bool)
      requires Progress(s0, p, 1) && p.up == up && p.file == file
      modifies this`disk, this`uploads
      ensures ok <==> !fault.AtCopy?
      ensures if ok then Progress(s0, p, 2) else Ended(s0, p, fault)
    {
      if fault.AtCopy? {
        var written := if fault.written <= |up.file| then fault.written else |up.file|;
        LeadsSnoc(transcode, s0, FullUpload(p)[..1], View(), CopyFails(p.u, written));
        disk := WriteFile(disk, file, up.file[..written]);
        uploads := uploads - {p.u};
        return false;
      }
      Took(s0, p, 1);
      disk := WriteFile(disk, file, up.file);
      uploads := uploads[p.u := uploads[p.u].(phase := Copied)];
      return true;
    }

    method CreateVideo(ghost s0: State, ghost p: Plan, video: Video, fault: UploadFault) returns (ok: bool)
      requires Progress(s0, p, 2) && video == FreshRow(p.id, p.up) && Reached(fault) >= 2
      modifies this`rows, this`origin, this`uploads
      ensures ok <==> !fault.AtInsert?
      ensures if ok then Progress(s0, p, 3) else Ended(s0, p, fault)
    {
      if fault == AtInsert(false) {
        Fails(s0, p, 2, fault);
        return false;
      }
      InsertVideo(s0, p, video);
      if fault == AtInsert(true) {
        Fails(s0, p, 3, fault);
        return false;
      }
      return true;
    }

    method InsertVideo(ghost s0: State, ghost p: Plan, video: Video)
      requires Progress(s0, p, 2) && video == FreshRow(p.id, p.up)
      modifies this`rows, this`origin, this`uploads
      ensures Progress(s0, p, 3)
    {
      Took(s0, p, 2);
      rows := rows[video.id := video];
      origin := origin[video.id := p.up];
      uploads := uploads[p.u := uploads[p.u].(phase := Inserted(video.id))];
    }

    /** Reads back by path. */
    method UploadFile(ghost s0: State, ghost p: Plan, objectName: string, path: string, fault: UploadFault)
      returns (ok: bool)
      requires Progress(s0, p, 3) && objectName == OriginalKey(p.id, p.up.fileName) && Reached(fault) >= 3
      requires p.path == path && !fault.AtInsert?
      modifies this`objects, this`uploads
      ensures ok <==> !fault.AtStore?
      ensures if ok then Progress(s0, p, 4) else Ended(s0, p, fault)
    {
      if fault == AtStore(false) {
        Fails(s0, p, 3, fault);
        return false;
      }
      Took(s0, p, 3);
      objects := objects[objectName := ReadPath(disk, path)];
      uploads := uploads[p.u := uploads[p.u].(phase := Stored(p.id))];
      if fault == AtStore(true) {
        Fails(s0, p, 4, fault);
        return false;
      }
      return true;
    }

    method UpdateVideo(ghost s0: State, ghost p: Plan, video: Video, fault: UploadFault) returns (ok: bool)
      requires Progress(s0, p, 4) && video == SavedRow(p.id, p.up) && Reached(fault) >= 4
      requires !fault.AtStore?
      modifies this`rows, this`uploads
      ensures ok <==> !fault.AtSave?
      ensures if ok then Progress(s0, p, 5) else Ended(s0, p, fault)
    {
      if fault == AtSave(false) {
        Fails(s0, p, 4, fault);
        return false;
      }
      Took(s0, p, 4);
      rows := rows[video.id := video];
      uploads := uploads[p.u := uploads[p.u].(phase := Saved(video.id))];
      if fault == AtSave(true) {
        Fails(s0, p, 5, fault);
        return false;
      }
      return true;
    }

    method PublishMessage(ghost s0: State, ghost p: Plan, job: Job, fault: UploadFault) returns (ok: bool)
      requires Progress(s0, p, 5) && job == JobFor(p.id, p.up) && Reached(fault) >= 5
      requires !fault.AtSave? && !fault.AtMarshal?
      modifies this`queue, this`published, this`uploads
      ensures ok <==> !fault.AtPublish?
      ensures if ok then Progress(s0, p, 6) else Ended(s0, p, fault)
    {
      if fault == AtPublish(false) {
        Fails(s0, p, 5, fault);
        return false;
      }
      Enqueue(s0, p, job);
      if fault == AtPublish(true) {
        Fails(s0, p, 6, fault);
        return false;
      }
      return true;
    }

    method Enqueue(ghost s0: State, ghost p: Plan, job: Job)
      requires Progress(s0, p, 5) && job == JobFor(p.id, p.up)
      modifies this`queue, this`published, this`uploads
      ensures Progress(s0, p, 6)
    {
      Took(s0, p, 5);
      PublishResult(View(), p.u, Upload(p.up, p.path, p.file, Saved(p.id)));
      queue := queue + multiset{job};
      published := published + {job};
      uploads := uploads[p.u := uploads[p.u].(phase := Queued(job.videoID))];
    }

    lemma PublishResult(s: State, u: nat, upload: Upload)
      requires u in s.uploads && s.uploads[u] == upload && upload.phase.Saved?
      ensures Apply(transcode, s, PublishJob(u)) ==
        s.(broker := Publish(s.broker, JobFor(upload.phase.id, upload.req)),
           uploads := s.uploads[u := upload.(phase := Queued(upload.phase.id))])
    {
    }

    method RemoveName(ghost s0: State, ghost p: Plan, path: string)
      requires Progress(s0, p, 6) && p.path == path
      modifies this`disk, this`uploads
      ensures Leads(transcode, s0, FullUpload(p)[..7], View()) && Shows(s0, p, 6)
    {
      Took(s0, p, 6);
      disk := Unlink(disk, path);
      uploads := uploads - {p.u};
    }

    method RemoveFile(ghost s0: State, ghost p: Plan, path: string, fault: UploadFault) returns (ok: bool)
      requires Progress(s0, p, 6) && p.path == path && (fault.NoFault? || fault.AtRemove?)
      modifies this`disk, this`uploads
      ensures ok <==> fault.NoFault?
      ensures Ended(s0, p, fault)
    {
      if fault.AtRemove? {
        Fails(s0, p, 6, fault);
        return false;
      }
      RemoveName(s0, p, path);
      assert UploadScript(p, fault) == FullUpload(p)[..7];
      return true;
    }

    /**
     * Temporary file, row, original object, full-row save, message, clean-up, in that order. The upload
     * reports success only if every call did, but its job is queued as soon as the publish took effect.
     */
    method UploadVideo(ghost u: nat, up: Request, path: string, newFile: nat, id: nat, fault: UploadFault)
      returns (res: Result<UploadRes>)
      requires u !in uploads && 0 < id && id !in rows && newFile !in disk.files
      modifies this
      ensures Ended(old(View()), Plan(u, up, path, Opening(old(disk), path, newFile), id), fault)
      ensures res.Success? <==> fault.NoFault?
      ensures res.Success? ==> res.value.videoID == id
      ensures Outcome(old(View()), up, id, fault)
    {
      ghost var s0 := View();
      var file := Opening(disk, path, newFile);
      ghost var p := Plan(u, up, path, file, id);
      if fault.AtCreateDir? || fault.AtCreateFile? {
        assert UploadScript(p, fault) == [];
        LeadsNowhere(transcode, s0);
        return Failure("create temp file");
      }
      CreateFile(s0, p, path, file);
      var ok := CopyFile(s0, p, up, file, fault);
      if !ok {
        return Failure("save temp file");
      }
      var video := Video(id, up.title, up.description, up.fileName, up.kind, VideoUpload, 0);
      ok := CreateVideo(s0, p, video, fault);
      if !ok {
        return Failure("create video");
      }
      var objectName := OriginalKey(video.id, up.fileName);
      ok := UploadFile(s0, p, objectName, path, fault);
      if !ok {
        return Failure("upload to object store");
      }
      video := video.(fileName := objectName);
      ok := UpdateVideo(s0, p, video, fault);
      if !ok {
        return Failure("update video");
      }
      res := Announce(s0, p, video, path, fault);
    }

    /** The last calls of an upload: encode and publish the job, then clean up. */
    method Announce(ghost s0: State, ghost p: Plan, video: Video, path: string, fault: UploadFault)
      returns (res: Result<UploadRes>)
      requires Progress(s0, p, 5) && video == SavedRow(p.id, p.up) && p.path == path
      requires fault.NoFault? || fault.AtMarshal? || fault.AtPublish? || fault.AtRemove?
      modifies this`disk, this`queue, this`published, this`uploads
      ensures Ended(s0, p, fault)
      ensures res.Success? <==> fault.NoFault?
      ensures res.Success? ==> res.value.videoID == p.id
    {
      var job := Job(video.id, video.fileName, video.kind);
      if fault.AtMarshal? {
        Fails(s0, p, 5, fault);
        return Failure("encode job");
      }
      var ok := PublishMessage(s0, p, job, fault);
      if !ok {
        return Failure("publish job");
      }
      ok := RemoveFile(s0, p, path, fault);
      if !ok {
        return Failure("remove temp file");
      }
      return Success(UploadRes("uploaded, waiting for transcoding", video.id));
    }

    // ----- The consumer -----

    /** Consumer `c` has taken `steps` since `s0` and its attempt is in the given phase; only store and attempt changed. */
    ghost predicate Attempted(s0: State, steps: seq<Step>, c: nat, phase: AttemptPhase)
      reads this
    {
      && Leads(transcode, s0, steps, View())
      && c in s0.attempts && attempts == s0.attempts[c := s0.attempts[c].(phase := phase)]
      && Broker(queue, unacked, nextTag, published) == s0.broker
      && disk == s0.disk && uploads == s0.uploads && origin == s0.store.origin
    }

    ghost method AttemptStops(s0: State, steps: seq<Step>, c: nat, phase: AttemptPhase) returns (steps': seq<Step>)
      requires Attempted(s0, steps, c, phase)
      modifies this`attempts
      ensures Attempted(s0, steps', c, Failed)
    {
      LeadsSnoc(transcode, s0, steps, View(), AttemptFails(c));
      attempts := attempts[c := attempts[c].(phase := Failed)];
      steps' := steps + [AttemptFails(c)];
    }

    ghost method DownloadDone(s0: State, steps: seq<Step>, c: nat) returns (steps': seq<Step>)
      requires Attempted(s0, steps, c, Taken) && attempts[c].job.fileName in objects
      modifies this`attempts
      ensures Attempted(s0, steps', c, Fetched(objects[old(attempts)[c].job.fileName]))
    {
      LeadsSnoc(transcode, s0, steps, View(), Download(c));
      attempts := attempts[c := attempts[c].(phase := Fetched(objects[attempts[c].job.fileName]))];
      steps' := steps + [Download(c)];
    }

    ghost method TranscodeDone(s0: State, steps: seq<Step>, c: nat, input: Bytes, leftover: Dir, names: seq<string>)
      returns (steps': seq<Step>)
      requires Attempted(s0, steps, c, Fetched(input)) && IsListing(names, leftover + transcode(input))
      modifies this`attempts
      ensures Attempted(s0, steps', c, Listed(leftover + transcode(input), names, 0))
    {
      LeadsSnoc(transcode, s0, steps, View(), TranscodeInput(c, leftover, names));
      attempts := attempts[c := attempts[c].(phase := Listed(leftover + transcode(input), names, 0))];
      steps' := steps + [TranscodeInput(c, leftover, names)];
    }

    method UploadOutput(ghost s0: State, ghost steps: seq<Step>, ghost c: nat, id: nat, files: Dir,
                        names: seq<string>, k: nat)
      returns (ghost steps': seq<Step>)
      requires Attempted(s0, steps, c, Listed(files, names, k)) && attempts[c].job.videoID == id
      requires k < |names| && names[k] in files
      modifies this`objects, this`attempts
      ensures Attempted(s0, steps', c, Listed(files, names, k + 1))
      ensures objects == old(objects)[ProcessedKey(id, names[k]) := files[names[k]]]
    {
      LeadsSnoc(transcode, s0, steps, View(), StoreOutput(c));
      objects := objects[ProcessedKey(id, names[k]) := files[names[k]]];
      attempts := attempts[c := attempts[c].(phase := Listed(files, names, k + 1))];
      steps' := steps + [StoreOutput(c)];
    }

    /** One upload of the loop; it may fail before or after the file is stored. */
    method TryOutput(ghost s0: State, ghost steps: seq<Step>, ghost c: nat, id: nat, files: Dir, names: seq<string>,
                     k: nat,
                     fault: AttemptFault)
      returns (ok: bool, ghost steps': seq<Step>)
      requires Attempted(s0, steps, c, Listed(files, names, k)) && attempts[c].job.videoID == id
      requires k < |names| && names[k] in files
      modifies this`objects, this`attempts
      ensures Attempted(s0, steps', c, if ok then Listed(files, names, k + 1) else Failed)
      ensures ok <==> !(fault.AtUpload? && fault.index == k)
      ensures objects ==
        if fault == AtUpload(k, false) then old(objects) else old(objects)[ProcessedKey(id, names[k]) := files[names[k]]]
    {
      if fault == AtUpload(k, false) {
        steps' := AttemptStops(s0, steps, c, Listed(files, names, k));
        return false, steps';
      }
      steps' := UploadOutput(s0, steps, c, id, files, names, k);
      if fault == AtUpload(k, true) {
        steps' := AttemptStops(s0, steps', c, Listed(files, names, k + 1));
        return false, steps';
      }
      return true, steps';
    }

    ghost method GetRowDone(s0: State, steps: seq<Step>, c: nat, files: Dir, names: seq<string>)
      returns (steps': seq<Step>)
      requires Attempted(s0, steps, c, Listed(files, names, |names|)) && attempts[c].job.videoID in rows
      modifies this`attempts
      ensures Attempted(s0, steps', c, Loaded(rows[old(attempts)[c].job.videoID]))
    {
      LeadsSnoc(transcode, s0, steps, View(), LoadRow(c));
      attempts := attempts[c := attempts[c].(phase := Loaded(rows[attempts[c].job.videoID]))];
      steps' := steps + [LoadRow(c)];
    }

    method UpdateReady(ghost s0: State, ghost steps: seq<Step>, ghost c: nat, row: Video)
      returns (ghost steps': seq<Step>)
      requires Attempted(s0, steps, c, Loaded(row))
      modifies this`rows, this`attempts
      ensures Attempted(s0, steps', c, Finished)
      ensures rows == old(rows)[row.id := row.(status := VideoReady)]
    {
      LeadsSnoc(transcode, s0, steps, View(), SaveReady(c));
      rows := rows[row.id := row.(status := VideoReady)];
      attempts := attempts[c := attempts[c].(phase := Finished)];
      steps' := steps + [SaveReady(c)];
    }

    /** Uploads every file of the output directory, in listing order; stops at the first upload that fails. */
    method UploadOutputs(ghost s0: State, ghost steps: seq<Step>, ghost c: nat, id: nat, files: Dir,
                         names: seq<string>, fault: AttemptFault)
      returns (ok: bool, ghost steps': seq<Step>)
      requires Attempted(s0, steps, c, Listed(files, names, 0)) && attempts[c].job.videoID == id
      requires forall i :: 0 <= i < |names| ==> names[i] in files
      modifies this`objects, this`attempts
      ensures Attempted(s0, steps', c, if ok then Listed(files, names, |names|) else Failed)
      ensures ok <==> !(fault.AtUpload? && fault.index < |names|)
      ensures objects == WithOutputs(old(objects), id, files, names[..OutputsStored(names, fault)])
    {
      steps' := steps;
      var k := 0;
      while k < |names|
        invariant 0 <= k <= |names|
        invariant Attempted(s0, steps', c, Listed(files, names, k))
        invariant fault.AtUpload? ==> k <= fault.index
        invariant objects == WithOutputs(old(objects), id, files, names[..k])
      {
        assert names[..k + 1][..k] == names[..k];
        ok, steps' := TryOutput(s0, steps', c, id, files, names, k, fault);
        if !ok {
          return false, steps';
        }
        k := k + 1;
      }
      return true, steps';
    }

    /** One transcoding attempt: download, transcode, upload every output file, and only then mark the video ready. */
    method ProcessTranscodingJob(ghost c: nat, job: Job, conditions: Conditions)
      returns (ok: bool, ghost steps: seq<Step>)
      requires c in attempts && attempts[c].phase.Taken? && attempts[c].job == job
      modifies this`objects, this`rows, this`attempts
      ensures Attempted(old(View()), steps, c, if ok then Finished else Failed)
      ensures ok ==>
        && job.fileName in old(objects) && job.videoID in old(rows)
        && rows == old(rows)[old(rows)[job.videoID].id := old(rows)[job.videoID].(status := VideoReady)]
        && forall name :: name in transcode(old(objects)[job.fileName]) ==>
             && ProcessedKey(job.videoID, name) in objects
             && objects[ProcessedKey(job.videoID, name)] == transcode(old(objects)[job.fileName])[name]
      ensures conditions.fault.NoFailure? && job.fileName in old(objects) && job.videoID in old(rows) ==> ok
      ensures ok ==> conditions.fault.NoFailure? || conditions.fault.AtUpload?
      ensures !ok && conditions.fault != AtUpdate(true) ==> rows == old(rows)
    {
      ghost var s0 := View();
      var fault := conditions.fault;
      steps := [];
      LeadsNowhere(transcode, s0);
      ok := false;
      if fault.AtDownload? || job.fileName !in objects {
        steps := AttemptStops(s0, steps, c, Taken);
        return;
      }
      var input := objects[job.fileName];
      steps := DownloadDone(s0, steps, c);
      if fault.AtMakeDir? || fault.AtTranscode? || fault.AtReadDir? {
        steps := AttemptStops(s0, steps, c, Fetched(input));
        return;
      }
      var files := conditions.leftover + transcode(input);
      var names := ReadDir(files);
      steps := TranscodeDone(s0, steps, c, input, conditions.leftover, names);
      var uploaded;
      uploaded, steps := UploadOutputs(s0, steps, c, job.videoID, files, names, fault);
      if !uploaded {
        return;
      }
      assert names[..|names|] == names;
      AllOutputs(old(objects), job.videoID, files, names);
      ok, steps := MarkReady(s0, steps, c, job.videoID, files, names, fault);
    }

    /** Reads the row and saves it whole, ready. */
    method MarkReady(ghost s0: State, ghost steps: seq<Step>, ghost c: nat, id: nat, ghost files: Dir,
                     ghost names: seq<string>, fault: AttemptFault)
      returns (ok: bool, ghost steps': seq<Step>)
      requires Attempted(s0, steps, c, Listed(files, names, |names|)) && attempts[c].job.videoID == id
      modifies this`rows, this`attempts
      ensures Attempted(s0, steps', c, if ok then Finished else Failed)
      ensures ok <==> id in old(rows) && !fault.AtGetRow? && !fault.AtUpdate?
      ensures rows ==
        if ok || (id in old(rows) && fault == AtUpdate(true)) then
          old(rows)[old(rows)[id].id := old(rows)[id].(status := VideoReady)]
        else old(rows)
    {
      ok := false;
      if fault.AtGetRow? || id !in rows {
        steps' := AttemptStops(s0, steps, c, Listed(files, names, |names|));
        return;
      }
      var video := rows[id];
      steps' := GetRowDone(s0, steps, c, files, names);
      if fault == AtUpdate(false) {
        steps' := AttemptStops(s0, steps', c, Loaded(video));
        return;
      }
      steps' := UpdateReady(s0, steps', c, video);
      if fault.AtUpdate? {
        steps' := AttemptStops(s0, steps', c, Finished);
        return;
      }
      ok := true;
    }

    method TakeDelivery(c: nat, job: Job) returns (tag: nat, ghost steps: seq<Step>)
      requires job in queue && c !in attempts && nextTag !in unacked
      modifies this`queue, this`unacked, this`nextTag, this`attempts
      ensures Leads(transcode, old(View()), steps, View())
      ensures Holding(old(View()), c, tag, job) && attempts[c] == Attempt(tag, job, Taken)
      ensures nextTag == old(nextTag) + 1
    {
      ghost var s0 := View();
      tag, steps := ReceiveDelivery(c, job);
      steps := BeginAttempt(s0, steps, c, tag);
    }

    method ReceiveDelivery(c: nat, job: Job) returns (tag: nat, ghost steps: seq<Step>)
      requires job in queue
      modifies this`queue, this`unacked, this`nextTag
      ensures Leads(transcode, old(View()), steps, View())
      ensures tag == old(nextTag) && nextTag == tag + 1 && queue == old(queue) - multiset{job}
      ensures unacked == old(unacked)[tag := Delivery(c, job, false)]
    {
      steps := [Deliver(c, job)];
      LeadsOne(transcode, View(), Deliver(c, job));
      tag := nextTag;
      queue, unacked, nextTag := queue - multiset{job}, unacked[tag := Delivery(c, job, false)], nextTag + 1;
    }

    method BeginAttempt(ghost s0: State, ghost steps: seq<Step>, ghost c: nat, tag: nat)
      returns (ghost steps': seq<Step>)
      requires Leads(transcode, s0, steps, View()) && Enabled(transcode, View(), Begin(c, tag))
      modifies this`unacked, this`attempts
      ensures Leads(transcode, s0, steps', View())
      ensures unacked == old(unacked)[tag := old(unacked)[tag].(taken := true)]
      ensures attempts == old(attempts)[c := Attempt(tag, old(unacked)[tag].job, Taken)]
    {
      LeadsSnoc(transcode, s0, steps, View(), Begin(c, tag));
      attempts := attempts[c := Attempt(tag, unacked[tag].job, Taken)];
      unacked := unacked[tag := unacked[tag].(taken := true)];
      steps' := steps + [Begin(c, tag)];
    }

    /** Since `before`, consumer `c` has taken one delivery of `job` and nothing else has changed at the broker. */
    ghost predicate Holding(before: State, c: nat, tag: nat, job: Job)
      reads this
    {
      && job in before.broker.queue && queue == before.broker.queue - multiset{job}
      && tag !in before.broker.unacked && unacked == before.broker.unacked[tag := Delivery(c, job, true)]
      && c !in before.attempts && c in attempts && attempts == before.attempts[c := attempts[c]]
      && attempts[c].tag == tag
    }

    lemma Released(before: State, c: nat, tag: nat, job: Job)
      requires Holding(before, c, tag, job)
      ensures tag in unacked && unacked[tag].job == job
      ensures unacked - {tag} == before.broker.unacked && attempts - {c} == before.attempts
      ensures queue + multiset{job} == before.broker.queue
    {
    }

    lemma AckRuns(before: State, steps: seq<Step>, c: nat, tag: nat, job: Job)
      requires Leads(transcode, before, steps, View()) && Holding(before, c, tag, job) && attempts[c].phase.Finished?
      ensures Leads(transcode, before, steps + [Ack(c)],
                   View().(broker := View().broker.(unacked := unacked - {tag}), attempts := attempts - {c}))
    {
      LeadsSnoc(transcode, before, steps, View(), Ack(c));
    }

    lemma NackRuns(before: State, steps: seq<Step>, c: nat, tag: nat, job: Job)
      requires Leads(transcode, before, steps, View()) && Holding(before, c, tag, job) && attempts[c].phase.Failed?
      ensures Leads(transcode, before, steps + [Nack(c)],
                   View().(broker := View().broker.(queue := queue + multiset{unacked[tag].job}, unacked := unacked - {tag}),
                           attempts := attempts - {c}))
    {
      LeadsSnoc(transcode, before, steps, View(), Nack(c));
    }

    method AckDelivery(ghost s0: State, ghost steps: seq<Step>, ghost c: nat, tag: nat, ghost job: Job)
      returns (ghost steps': seq<Step>)
      requires Leads(transcode, s0, steps, View()) && Holding(s0, c, tag, job) && attempts[c].phase.Finished?
      modifies this`unacked, this`attempts
      ensures Leads(transcode, s0, steps', View())
      ensures unacked == s0.broker.unacked && attempts == s0.attempts
    {
      Released(s0, c, tag, job);
      AckRuns(s0, steps, c, tag, job);
      unacked := unacked - {tag};
      attempts := attempts - {c};
      steps' := steps + [Ack(c)];
    }

    method NackDelivery(ghost s0: State, ghost steps: seq<Step>, ghost c: nat, tag: nat, ghost job: Job)
      returns (ghost steps': seq<Step>)
      requires Leads(transcode, s0, steps, View()) && Holding(s0, c, tag, job) && attempts[c].phase.Failed?
      modifies this`queue, this`unacked, this`attempts
      ensures Leads(transcode, s0, steps', View())
      ensures queue == s0.broker.queue && unacked == s0.broker.unacked && attempts == s0.attempts
    {
      Released(s0, c, tag, job);
      NackRuns(s0, steps, c, tag, job);
      queue := queue + multiset{unacked[tag].job};
      unacked := unacked - {tag};
      attempts := attempts - {c};
      steps' := steps + [Nack(c)];
    }

    /** Handles one message: acknowledged when its job succeeded, put back when it failed. */
    method HandleMessage(c: nat, job: Job, conditions: Conditions) returns (acked: bool, ghost steps: seq<Step>)
      requires job in queue && c !in attempts && nextTag !in unacked
      modifies this`objects, this`rows, this`queue, this`unacked, this`nextTag, this`attempts
      ensures Leads(transcode, old(View()), steps, View())
      ensures queue == if acked then old(queue) - multiset{job} else old(queue)
      ensures unacked == old(unacked) && attempts == old(attempts)
      ensures nextTag == old(nextTag) + 1 && Deliveries(steps) == 1
      ensures acked ==>
        job.videoID in old(rows) &&
        rows == old(rows)[old(rows)[job.videoID].id := old(rows)[job.videoID].(status := VideoReady)]
      ensures conditions.fault.NoFailure? && job.fileName in old(objects) && job.videoID in old(rows) ==> acked
    {
      ghost var s0 := View();
      var tag;
      tag, acked, steps := TakeAndTry(c, job, conditions);
      steps := SettleDelivery(s0, steps, c, tag, job, acked);
      LeadsAreRuns(transcode, s0, steps, View());
      TagsCountDeliveries(transcode, s0, steps, View());
    }

    method SettleDelivery(ghost s0: State, ghost steps: seq<Step>, ghost c: nat, tag: nat, ghost job: Job, ok: bool)
      returns (ghost steps': seq<Step>)
      requires Leads(transcode, s0, steps, View()) && Holding(s0, c, tag, job)
      requires attempts[c].phase == if ok then Finished else Failed
      modifies this`queue, this`unacked, this`attempts
      ensures Leads(transcode, s0, steps', View())
      ensures queue == if ok then s0.broker.queue - multiset{job} else s0.broker.queue
      ensures unacked == s0.broker.unacked && attempts == s0.attempts
    {
      if ok {
        steps' := AckDelivery(s0, steps, c, tag, job);
      } else {
        steps' := NackDelivery(s0, steps, c, tag, job);
      }
    }

    method TakeAndTry(c: nat, job: Job, conditions: Conditions) returns (tag: nat, ok: bool, ghost steps: seq<Step>)
      requires job in queue && c !in attempts && nextTag !in unacked
      modifies this`objects, this`rows, this`queue, this`unacked, this`nextTag, this`attempts
      ensures Leads(transcode, old(View()), steps, View()) && Holding(old(View()), c, tag, job)
      ensures nextTag == old(nextTag) + 1
      ensures attempts[c].phase == if ok then Finished else Failed
      ensures ok ==>
        job.videoID in old(rows) &&
        rows == old(rows)[old(rows)[job.videoID].id := old(rows)[job.videoID].(status := VideoReady)]
      ensures conditions.fault.NoFailure? && job.fileName in old(objects) && job.videoID in old(rows) ==> ok
    {
      ghost var s0 := View();
      tag, steps := TakeDelivery(c, job);
      ok, steps := TryJob(s0, steps, c, tag, job, conditions);
    }

    method TryJob(ghost s0: State, ghost steps: seq<Step>, ghost c: nat, ghost tag: nat, job: Job,
                  conditions: Conditions)
      returns (ok: bool, ghost steps': seq<Step>)
      requires Leads(transcode, s0, steps, View()) && Holding(s0, c, tag, job)
      requires attempts[c] == Attempt(tag, job, Taken)
      modifies this`objects, this`rows, this`attempts
      ensures Leads(transcode, s0, steps', View()) && Holding(s0, c, tag, job)
      ensures attempts[c].phase == if ok then Finished else Failed
      ensures ok ==>
        job.videoID in old(rows) &&
        rows == old(rows)[old(rows)[job.videoID].id := old(rows)[job.videoID].(status := VideoReady)]
      ensures conditions.fault.NoFailure? && job.fileName in old(objects) && job.videoID in old(rows) ==> ok
    {
      ghost var s1 := View();
      ghost var more;
      ok, more := ProcessTranscodingJob(c, job, conditions);
      LeadsConcat(transcode, s0, steps, s1, more, View());
      steps' := steps + more;
    }

    /** What the delivery loop needs of the invariant. */
    lemma Deliverable(s0: State, steps: seq<Step>)
      requires Inv(transcode, s0) && Leads(transcode, s0, steps, View())
      ensures nextTag !in unacked
      ensures forall job :: job in queue ==>
        job.fileName in objects && job.videoID in rows && rows[job.videoID].id == job.videoID
    {
      LeadsAreRuns(transcode, s0, steps, View());
      PipelineTheorems.RunKeepsInv(transcode, s0, steps, View());
      assert nextTag in unacked ==> HeldAt(View().broker, nextTag, unacked[nextTag].job);
      forall job | job in queue
        ensures job.fileName in objects && job.videoID in rows && rows[job.videoID].id == job.videoID
      {
        assert JobOk(View().store, job);
      }
    }

    /**
     * The delivery loop, run until nothing is left to deliver. With `n` jobs queued and a schedule that
     * fails `F` attempts, every job is acknowledged within `n + F` deliveries, and every video is ready.
     */
    method StartConsumer(c: nat, schedule: seq<Conditions>) returns (deliveries: nat, ghost steps: seq<Step>)
      requires Inv(transcode, View()) && c !in attempts
      modifies this`objects, this`rows, this`queue, this`unacked, this`nextTag, this`attempts
      ensures Leads(transcode, old(View()), steps, View())
      ensures queue == multiset{} && unacked == old(unacked) && attempts == old(attempts)
      ensures forall job :: job in old(queue) ==> Done(View().store, job.videoID)
      ensures deliveries == Deliveries(steps) <= |old(queue)| + Failures(schedule)
    {
      ghost var s0 := View();
      deliveries, steps := 0, [];
      LeadsNowhere(transcode, s0);
      var rest := schedule;
      while queue != multiset{}
        invariant Leads(transcode, s0, steps, View())
        invariant unacked == s0.broker.unacked && attempts == s0.attempts
        invariant Accounted(s0) && nextTag == s0.broker.nextTag + deliveries
        invariant deliveries + |queue| + Failures(rest) <= |s0.broker.queue| + Failures(schedule)
        decreases |queue| + Failures(rest)
      {
        var job :| job in queue;
        var conditions := if rest == [] then Conditions(map[], NoFailure) else rest[0];
        var acked;
        acked, steps := ConsumeOne(s0, steps, c, job, conditions);
        deliveries := deliveries + 1;
        if rest != [] {
          rest := rest[1..];
        }
      }
      LeadsAreRuns(transcode, s0, steps, View());
      TagsCountDeliveries(transcode, s0, steps, View());
    }

    /** Every job queued at the start is still queued, or its video is ready. */
    ghost predicate Accounted(s0: State)
      reads this
    {
      forall job :: job in s0.broker.queue ==> job in queue || Done(View().store, job.videoID)
    }

    method ConsumeOne(ghost s0: State, ghost steps: seq<Step>, c: nat, job: Job, conditions: Conditions)
      returns (acked: bool, ghost steps': seq<Step>)
      requires Inv(transcode, s0) && Leads(transcode, s0, steps, View()) && Accounted(s0)
      requires job in queue && c !in attempts
      modifies this`objects, this`rows, this`queue, this`unacked, this`nextTag, this`attempts
      ensures Leads(transcode, s0, steps', View())
      ensures queue == if acked then old(queue) - multiset{job} else old(queue)
      ensures unacked == old(unacked) && attempts == old(attempts) && nextTag == old(nextTag) + 1
      ensures Accounted(s0)
      ensures conditions.fault.NoFailure? ==> acked
    {
      ghost var m := View();
      Deliverable(s0, steps);
      ghost var more;
      acked, more := HandleMessage(c, job, conditions);
      LeadsConcat(transcode, s0, steps, m, more, View());
      StaysDone(s0, steps, m, more, View());
      StaysAccounted(s0, m, job, acked);
      steps' := steps + more;
    }

    /** Settling one job of the queue loses track of none. */
    lemma StaysAccounted(s0: State, m: State, job: Job, acked: bool)
      requires forall j :: j in s0.broker.queue ==> j in m.broker.queue || Done(m.store, j.videoID)
      requires forall id :: Done(m.store, id) ==> Done(View().store, id)
      requires queue == if acked then m.broker.queue - multiset{job} else m.broker.queue
      requires acked ==> Done(View().store, job.videoID)
      ensures Accounted(s0)
    {
    }

    lemma StaysDone(s0: State, steps: seq<Step>, m: State, more: seq<Step>, s: State)
      requires Inv(transcode, s0) && Leads(transcode, s0, steps, m) && Leads(transcode, m, more, s)
      ensures forall id :: Done(m.store, id) ==> Done(s.store, id)
    {
      LeadsAreRuns(transcode, s0, steps, m);
      LeadsAreRuns(transcode, m, more, s);
      PipelineTheorems.RunKeepsInv(transcode, s0, steps, m);
      PipelineTheorems.RunKeepsInv(transcode, m, more, s);
      forall id | Done(m.store, id)
        ensures Done(s.store, id)
      {
        assert RowOk(transcode, m.store, id) && KeepsVideo(transcode, m.store, s.store, id);
      }
    }
  }
}

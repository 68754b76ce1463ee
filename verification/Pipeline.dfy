/**
 * Upload and transcoding as one machine whose atomic steps are the calls the uploader and the
 * consumers make on the shared stores. Any number of uploads and consumers interleave. A call that
 * fails is the upload stopping, or the attempt failing, either before or after the call's effect.
 */
module Pipeline {
  import opened Wrappers
  import opened Lex
  import opened Keys

  type Dir = map<string, Bytes>

  /** What transcoding one input leaves in an empty output directory. */
  type Transcoder = Bytes -> Dir

  datatype Status = VideoUpload | VideoProcessing | VideoReady

  datatype Video = Video(
    id: nat, title: string, description: string, fileName: string, kind: string, status: Status, viewCount: nat)

  datatype Request = Request(title: string, description: string, kind: string, fileName: string, file: Bytes)

  datatype Job = Job(videoID: nat, fileName: string, kind: string)

  /** How far an upload has come; each phase names the call that has just returned. */
  datatype UploadPhase = Opened | Copied | Inserted(id: nat) | Stored(id: nat) | Saved(id: nat) | Queued(id: nat)

  /** An upload keeps its temporary file open: it writes through `file`, and reads and removes by `path`. */
  datatype Upload = Upload(req: Request, path: string, file: nat, phase: UploadPhase)

  /** Names of files, and what each file holds. A file without a name lives on while it is open. */
  datatype Disk = Disk(paths: map<string, nat>, files: map<nat, Bytes>)

  /** A message handed to a consumer and not yet settled. */
  datatype Delivery = Delivery(consumer: nat, job: Job, taken: bool)

  datatype AttemptPhase =
    | Taken
    | Fetched(input: Bytes)
    | Listed(files: Dir, names: seq<string>, next: nat)
    | Loaded(row: Video)
    | Finished
    | Failed

  datatype Attempt = Attempt(tag: nat, job: Job, phase: AttemptPhase)

  /** Rows and objects, with a history field: which request each row came from. */
  datatype Store = Store(rows: map<nat, Video>, objects: map<string, Bytes>, origin: map<nat, Request>)

  /** The queue and the deliveries held by consumers, with a history field: every job ever published. */
  datatype Broker = Broker(queue: multiset<Job>, unacked: map<nat, Delivery>, nextTag: nat, published: set<Job>)

  datatype State = State(
    disk: Disk,
    store: Store,
    broker: Broker,
    uploads: map<nat, Upload>,
    attempts: map<nat, Attempt>)

  const Init := State(Disk(map[], map[]), Store(map[], map[], map[]), Broker(multiset{}, map[], 0, {}), map[], map[])

  datatype Step =
    | CreateTemp(u: nat, req: Request, path: string, file: nat)
    | CopyTemp(u: nat)
    | CopyFails(u: nat, written: nat)
    | InsertRow(u: nat, id: nat)
    | StoreOriginal(u: nat)
    | SaveRow(u: nat)
    | PublishJob(u: nat)
    | RemoveTemp(u: nat)
    | UploadStops(u: nat)
    | Deliver(c: nat, job: Job)
    | Begin(c: nat, tag: nat)
    | Download(c: nat)
    | TranscodeInput(c: nat, leftover: Dir, names: seq<string>)
    | StoreOutput(c: nat)
    | LoadRow(c: nat)
    | SaveReady(c: nat)
    | AttemptFails(c: nat)
    | Ack(c: nat)
    | Nack(c: nat)
    | SettleFails(c: nat)
    | Crash(c: nat)
    | Return(tag: nat)

  function FreshRow(id: nat, req: Request): Video
  {
    Video(id, req.title, req.description, req.fileName, req.kind, VideoUpload, 0)
  }

  function SavedRow(id: nat, req: Request): Video
  {
    FreshRow(id, req).(fileName := OriginalKey(id, req.fileName))
  }

  function JobFor(id: nat, req: Request): Job
  {
    Job(id, OriginalKey(id, req.fileName), req.kind)
  }

  /** Writing from the start of a file that may be longer. */
  function Overwrite(before: Bytes, data: Bytes): Bytes
  {
    if |before| <= |data| then data else data + before[|data|..]
  }

  /** Creating a name takes a new file; a name in use keeps the file it has. */
  predicate MayOpen(disk: Disk, path: string, file: nat)
  {
    if path in disk.paths then file == disk.paths[path] else file !in disk.files
  }

  function Truncate(disk: Disk, path: string, file: nat): Disk
  {
    Disk(disk.paths[path := file], disk.files[file := []])
  }

  function WriteFile(disk: Disk, file: nat, data: Bytes): Disk
    requires file in disk.files
  {
    disk.(files := disk.files[file := Overwrite(disk.files[file], data)])
  }

  predicate Readable(disk: Disk, path: string)
  {
    path in disk.paths && disk.paths[path] in disk.files
  }

  function ReadPath(disk: Disk, path: string): Bytes
    requires Readable(disk, path)
  {
    disk.files[disk.paths[path]]
  }

  function Unlink(disk: Disk, path: string): Disk
  {
    disk.(paths := disk.paths - {path})
  }

  /** Directory entries come sorted by name. */
  ghost predicate IsListing(names: seq<string>, files: Dir)
  {
    && StrictlySorted(names)
    && (forall i :: 0 <= i < |names| ==> names[i] in files)
    && (forall n :: n in files ==> n in names)
  }

  ghost predicate Enabled(t: Transcoder, s: State, step: Step)
  {
    match step
    case CreateTemp(u, req, path, file) => u !in s.uploads && MayOpen(s.disk, path, file)
    case CopyTemp(u) => u in s.uploads && s.uploads[u].phase.Opened? && s.uploads[u].file in s.disk.files
    case CopyFails(u, written) =>
      && u in s.uploads && s.uploads[u].phase.Opened? && s.uploads[u].file in s.disk.files
      && written <= |s.uploads[u].req.file|
    case InsertRow(u, id) => u in s.uploads && s.uploads[u].phase.Copied? && 0 < id && id !in s.store.rows
    case StoreOriginal(u) => u in s.uploads && s.uploads[u].phase.Inserted? && Readable(s.disk, s.uploads[u].path)
    case SaveRow(u) => u in s.uploads && s.uploads[u].phase.Stored?
    case PublishJob(u) => u in s.uploads && s.uploads[u].phase.Saved?
    case RemoveTemp(u) => u in s.uploads && s.uploads[u].phase.Queued? && s.uploads[u].path in s.disk.paths
    case UploadStops(u) => u in s.uploads
    case Deliver(c, job) => job in s.broker.queue
    case Begin(c, tag) =>
      && c !in s.attempts && tag in s.broker.unacked
      && s.broker.unacked[tag].consumer == c && !s.broker.unacked[tag].taken
    case Download(c) =>
      c in s.attempts && s.attempts[c].phase.Taken? && s.attempts[c].job.fileName in s.store.objects
    case TranscodeInput(c, leftover, names) =>
      c in s.attempts && s.attempts[c].phase.Fetched? && IsListing(names, leftover + t(s.attempts[c].phase.input))
    case StoreOutput(c) =>
      && c in s.attempts && s.attempts[c].phase.Listed?
      && s.attempts[c].phase.next < |s.attempts[c].phase.names|
      && s.attempts[c].phase.names[s.attempts[c].phase.next] in s.attempts[c].phase.files
    case LoadRow(c) =>
      && c in s.attempts && s.attempts[c].phase.Listed?
      && s.attempts[c].phase.next == |s.attempts[c].phase.names|
      && s.attempts[c].job.videoID in s.store.rows
    case SaveReady(c) => c in s.attempts && s.attempts[c].phase.Loaded?
    case AttemptFails(c) => c in s.attempts
    case Ack(c) => c in s.attempts && s.attempts[c].phase.Finished? && s.attempts[c].tag in s.broker.unacked
    case Nack(c) => c in s.attempts && s.attempts[c].phase.Failed? && s.attempts[c].tag in s.broker.unacked
    case SettleFails(c) => c in s.attempts && (s.attempts[c].phase.Finished? || s.attempts[c].phase.Failed?)
    case Crash(c) => c in s.attempts
    case Return(tag) => tag in s.broker.unacked
  }

  function Advance(s: State, u: nat, phase: UploadPhase): map<nat, Upload>
    requires u in s.uploads
  {
    s.uploads[u := s.uploads[u].(phase := phase)]
  }

  function Proceed(s: State, c: nat, phase: AttemptPhase): map<nat, Attempt>
    requires c in s.attempts
  {
    s.attempts[c := s.attempts[c].(phase := phase)]
  }

  function PutRow(store: Store, row: Video): Store
  {
    store.(rows := store.rows[row.id := row])
  }

  function PutObject(store: Store, key: string, data: Bytes): Store
  {
    store.(objects := store.objects[key := data])
  }

  function Publish(b: Broker, job: Job): Broker
  {
    b.(queue := b.queue + multiset{job}, published := b.published + {job})
  }

  function HandOver(b: Broker, c: nat, job: Job): Broker
    requires job in b.queue
  {
    b.(queue := b.queue - multiset{job}, unacked := b.unacked[b.nextTag := Delivery(c, job, false)],
       nextTag := b.nextTag + 1)
  }

  function Settle(b: Broker, tag: nat): Broker
  {
    b.(unacked := b.unacked - {tag})
  }

  function Requeue(b: Broker, tag: nat): Broker
    requires tag in b.unacked
  {
    b.(queue := b.queue + multiset{b.unacked[tag].job}, unacked := b.unacked - {tag})
  }

  ghost function Apply(t: Transcoder, s: State, step: Step): State
    requires Enabled(t, s, step)
  {
    match step
    case CreateTemp(u, req, path, file) =>
      s.(disk := Truncate(s.disk, path, file), uploads := s.uploads[u := Upload(req, path, file, Opened)])
    case CopyTemp(u) =>
      var up := s.uploads[u];
      s.(disk := WriteFile(s.disk, up.file, up.req.file), uploads := Advance(s, u, Copied))
    case CopyFails(u, written) =>
      var up := s.uploads[u];
      s.(disk := WriteFile(s.disk, up.file, up.req.file[..written]), uploads := s.uploads - {u})
    case InsertRow(u, id) =>
      var req := s.uploads[u].req;
      s.(store := PutRow(s.store, FreshRow(id, req)).(origin := s.store.origin[id := req]),
         uploads := Advance(s, u, Inserted(id)))
    case StoreOriginal(u) =>
      var up := s.uploads[u];
      s.(store := PutObject(s.store, OriginalKey(up.phase.id, up.req.fileName), ReadPath(s.disk, up.path)),
         uploads := Advance(s, u, Stored(up.phase.id)))
    case SaveRow(u) =>
      var up := s.uploads[u];
      s.(store := PutRow(s.store, SavedRow(up.phase.id, up.req)), uploads := Advance(s, u, Saved(up.phase.id)))
    case PublishJob(u) =>
      var up := s.uploads[u];
      s.(broker := Publish(s.broker, JobFor(up.phase.id, up.req)), uploads := Advance(s, u, Queued(up.phase.id)))
    case RemoveTemp(u) =>
      s.(disk := Unlink(s.disk, s.uploads[u].path), uploads := s.uploads - {u})
    case UploadStops(u) =>
      s.(uploads := s.uploads - {u})
    case Deliver(c, job) =>
      s.(broker := HandOver(s.broker, c, job))
    case Begin(c, tag) =>
      var d := s.broker.unacked[tag];
      s.(broker := s.broker.(unacked := s.broker.unacked[tag := d.(taken := true)]),
         attempts := s.attempts[c := Attempt(tag, d.job, Taken)])
    case Download(c) =>
      s.(attempts := Proceed(s, c, Fetched(s.store.objects[s.attempts[c].job.fileName])))
    case TranscodeInput(c, leftover, names) =>
      s.(attempts := Proceed(s, c, Listed(leftover + t(s.attempts[c].phase.input), names, 0)))
    case StoreOutput(c) =>
      var a := s.attempts[c];
      var name := a.phase.names[a.phase.next];
      s.(store := PutObject(s.store, ProcessedKey(a.job.videoID, name), a.phase.files[name]),
         attempts := Proceed(s, c, a.phase.(next := a.phase.next + 1)))
    case LoadRow(c) =>
      s.(attempts := Proceed(s, c, Loaded(s.store.rows[s.attempts[c].job.videoID])))
    case SaveReady(c) =>
      s.(store := PutRow(s.store, s.attempts[c].phase.row.(status := VideoReady)), attempts := Proceed(s, c, Finished))
    case AttemptFails(c) =>
      s.(attempts := Proceed(s, c, Failed))
    case Ack(c) =>
      s.(broker := Settle(s.broker, s.attempts[c].tag), attempts := s.attempts - {c})
    case Nack(c) =>
      s.(broker := Requeue(s.broker, s.attempts[c].tag), attempts := s.attempts - {c})
    case SettleFails(c) =>
      s.(attempts := s.attempts - {c})
    case Crash(c) =>
      s.(attempts := s.attempts - {c})
    case Return(tag) =>
      s.(broker := Requeue(s.broker, tag))
  }

  /** `steps` can be taken one after the other from `s`, ending in `s'`. */
  ghost predicate Runs(t: Transcoder, s: State, steps: seq<Step>, s': State)
    decreases |steps|
  {
    if steps == [] then s == s'
    else Enabled(t, s, steps[0]) && Runs(t, Apply(t, s, steps[0]), steps[1..], s')
  }

  lemma {:induction false} RunsConcat(t: Transcoder, s: State, a: seq<Step>, m: State, b: seq<Step>, s': State)
    requires Runs(t, s, a, m) && Runs(t, m, b, s')
    ensures Runs(t, s, a + b, s')
    decreases |a|
  {
    if a == [] {
      assert a + b == b;
    } else {
      assert (a + b)[1..] == a[1..] + b;
      RunsConcat(t, Apply(t, s, a[0]), a[1..], m, b, s');
    }
  }

  lemma RunsSnoc(t: Transcoder, s: State, steps: seq<Step>, m: State, step: Step)
    requires Runs(t, s, steps, m) && Enabled(t, m, step)
    ensures Runs(t, s, steps + [step], Apply(t, m, step))
  {
    RunsOne(t, m, step);
    RunsConcat(t, s, steps, m, [step], Apply(t, m, step));
  }

  lemma RunsOne(t: Transcoder, s: State, step: Step)
    requires Enabled(t, s, step)
    ensures Runs(t, s, [step], Apply(t, s, step))
  {
    assert [step][1..] == [];
  }

  // ----- Deliveries -----

  /** How many deliveries a sequence of steps takes. */
  function Deliveries(steps: seq<Step>): nat
  {
    if steps == [] then 0 else (if steps[0].Deliver? then 1 else 0) + Deliveries(steps[1..])
  }

  lemma StepTagsDelivery(t: Transcoder, s: State, step: Step)
    requires Enabled(t, s, step)
    ensures Apply(t, s, step).broker.nextTag == s.broker.nextTag + if step.Deliver? then 1 else 0
  {
  }

  /** The broker's tags count the deliveries of a run. */
  lemma {:induction false} TagsCountDeliveries(t: Transcoder, s: State, steps: seq<Step>, s': State)
    requires Runs(t, s, steps, s')
    ensures s'.broker.nextTag == s.broker.nextTag + Deliveries(steps)
    decreases |steps|
  {
    if steps != [] {
      StepTagsDelivery(t, s, steps[0]);
      TagsCountDeliveries(t, Apply(t, s, steps[0]), steps[1..], s');
    }
  }

  // ----- Runs by their states -----

  /** One state before each step and one after the last. */
  ghost predicate IsTrace(t: Transcoder, steps: seq<Step>, trace: seq<State>)
  {
    && |trace| == |steps| + 1
    && forall i :: 0 <= i < |steps| ==> Enabled(t, trace[i], steps[i]) && trace[i + 1] == Apply(t, trace[i], steps[i])
  }

  /** `Runs` by way of the states in between. */
  ghost predicate Leads(t: Transcoder, s: State, steps: seq<Step>, s': State)
  {
    exists trace :: IsTrace(t, steps, trace) && trace[0] == s && trace[|steps|] == s'
  }

  /** Both ways of saying that steps lead from one state to another agree. */
  lemma {:induction false} LeadsAreRuns(t: Transcoder, s: State, steps: seq<Step>, s': State)
    ensures Leads(t, s, steps, s') <==> Runs(t, s, steps, s')
    decreases |steps|
  {
    if steps == [] {
      if Runs(t, s, steps, s') {
        assert IsTrace(t, steps, [s]);
      }
    } else {
      if Leads(t, s, steps, s') {
        var trace :| IsTrace(t, steps, trace) && trace[0] == s && trace[|steps|] == s';
        TraceTail(t, steps, trace);
        LeadsAreRuns(t, Apply(t, s, steps[0]), steps[1..], s');
      }
      if Runs(t, s, steps, s') {
        LeadsAreRuns(t, Apply(t, s, steps[0]), steps[1..], s');
        var rest :| IsTrace(t, steps[1..], rest) && rest[0] == Apply(t, s, steps[0]) && rest[|steps[1..]|] == s';
        TraceFromHead(t, s, steps, rest);
      }
    }
  }

  lemma TraceTail(t: Transcoder, steps: seq<Step>, trace: seq<State>)
    requires steps != [] && IsTrace(t, steps, trace)
    ensures Enabled(t, trace[0], steps[0]) && trace[1] == Apply(t, trace[0], steps[0])
    ensures Leads(t, trace[1], steps[1..], trace[|steps|])
  {
    var tail, rest := steps[1..], trace[1..];
    forall i | 0 <= i < |tail|
      ensures Enabled(t, rest[i], tail[i]) && rest[i + 1] == Apply(t, rest[i], tail[i])
    {
      assert tail[i] == steps[i + 1] && rest[i] == trace[i + 1] && rest[i + 1] == trace[i + 2];
    }
    assert IsTrace(t, tail, rest);
  }

  lemma TraceFromHead(t: Transcoder, s: State, steps: seq<Step>, rest: seq<State>)
    requires steps != [] && Enabled(t, s, steps[0]) && IsTrace(t, steps[1..], rest)
    requires rest[0] == Apply(t, s, steps[0])
    ensures Leads(t, s, steps, rest[|steps| - 1])
  {
    var tail, trace := steps[1..], [s] + rest;
    forall i | 0 <= i < |steps|
      ensures Enabled(t, trace[i], steps[i]) && trace[i + 1] == Apply(t, trace[i], steps[i])
    {
      if i > 0 {
        assert steps[i] == tail[i - 1] && trace[i] == rest[i - 1] && trace[i + 1] == rest[i];
      }
    }
    assert IsTrace(t, steps, trace);
  }

  lemma LeadsConcat(t: Transcoder, s: State, a: seq<Step>, m: State, b: seq<Step>, s': State)
    requires Leads(t, s, a, m) && Leads(t, m, b, s')
    ensures Leads(t, s, a + b, s')
  {
    LeadsAreRuns(t, s, a, m);
    LeadsAreRuns(t, m, b, s');
    RunsConcat(t, s, a, m, b, s');
    LeadsAreRuns(t, s, a + b, s');
  }

  lemma LeadsSnoc(t: Transcoder, s: State, steps: seq<Step>, m: State, step: Step)
    requires Leads(t, s, steps, m) && Enabled(t, m, step)
    ensures Leads(t, s, steps + [step], Apply(t, m, step))
  {
    LeadsOne(t, m, step);
    LeadsConcat(t, s, steps, m, [step], Apply(t, m, step));
  }

  lemma LeadsOne(t: Transcoder, s: State, step: Step)
    requires Enabled(t, s, step)
    ensures Leads(t, s, [step], Apply(t, s, step))
  {
    RunsOne(t, s, step);
    LeadsAreRuns(t, s, [step], Apply(t, s, step));
  }

  lemma LeadsNowhere(t: Transcoder, s: State)
    ensures Leads(t, s, [], s)
  {
    LeadsAreRuns(t, s, [], s);
  }
}

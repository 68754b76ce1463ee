/**
 * Temporary files are named after the uploaded file and shared by all uploads; an upload writes through the file it
 * opened, reads back by path and removes by path. When a path is opened only while every upload that has yet to store from
 * it sends the same bytes, has not written them, and still has the path name its open file, every job stands for exactly
 * the uploaded bytes; opening it otherwise can always end in a job for other bytes.
 */
module TempFiles {
  import opened Wrappers
  import opened Keys
  import opened Pipeline
  import opened PipelineInvariant
  import opened PipelineTheorems
  import opened Playback

  /** The upload still has to read its temporary file. */
  predicate Unstored(up: Upload)
  {
    up.phase.Opened? || up.phase.Copied? || up.phase.Inserted?
  }

  /** The path still names the file the upload has open. */
  predicate Holds(disk: Disk, up: Upload)
  {
    up.path in disk.paths && disk.paths[up.path] == up.file
  }

  /** Emptying the file at this upload's path and refilling it with these bytes does not disturb the upload. */
  predicate Undisturbed(disk: Disk, up: Upload, req: Request)
  {
    up.req.file == req.file && (req.file == [] || (up.phase.Opened? && Holds(disk, up)))
  }

  ghost predicate Harmless(disk: Disk, uploads: map<nat, Upload>, path: string, req: Request)
  {
    forall u :: u in uploads && Unstored(uploads[u]) && uploads[u].path == path ==> Undisturbed(disk, uploads[u], req)
  }

  ghost predicate CarefulStep(s: State, step: Step)
  {
    step.CreateTemp? ==> Harmless(s.disk, s.uploads, step.path, step.req)
  }

  ghost predicate CarefulRun(t: Transcoder, s: State, steps: seq<Step>, s': State)
    decreases |steps|
  {
    if steps == [] then s == s'
    else Enabled(t, s, steps[0]) && CarefulStep(s, steps[0]) && CarefulRun(t, Apply(t, s, steps[0]), steps[1..], s')
  }

  // ----- What careful steps keep -----

  /** Every name has a file, and no two the same. */
  ghost predicate DiskOk(disk: Disk)
  {
    && (forall p :: p in disk.paths ==> disk.paths[p] in disk.files)
    && (forall p, q :: p in disk.paths && q in disk.paths && disk.paths[p] == disk.paths[q] ==> p == q)
  }

  /** An open file exists and has no other name than its upload's path. */
  ghost predicate HandleOk(disk: Disk, up: Upload)
  {
    up.file in disk.files && forall p :: p in disk.paths && disk.paths[p] == up.file ==> p == up.path
  }

  predicate TempOk(disk: Disk, up: Upload)
  {
    Unstored(up) && Readable(disk, up.path) ==>
      if up.phase.Opened? then ReadPath(disk, up.path) <= up.req.file && (up.req.file == [] || Holds(disk, up))
      else ReadPath(disk, up.path) == up.req.file
  }

  predicate OriginalOk(st: Store, up: Upload)
  {
    up.phase.Stored? || up.phase.Saved? ==>
      var key := OriginalKey(up.phase.id, up.req.fileName);
      key in st.objects && st.objects[key] == up.req.file
  }

  /** Uploads that have yet to store from one path send the same bytes. */
  ghost predicate SameBytes(uploads: map<nat, Upload>)
  {
    forall u, v ::
      u in uploads && v in uploads && Unstored(uploads[u]) && Unstored(uploads[v]) && uploads[u].path == uploads[v].path ==>
        uploads[u].req.file == uploads[v].req.file
  }

  /** The original kept for a video is what was uploaded for it. */
  predicate BytesKept(st: Store, id: nat)
  {
    Settled(st, id) ==> Original(st, id) == st.origin[id].file
  }

  ghost predicate DiskInv(disk: Disk, uploads: map<nat, Upload>)
  {
    && DiskOk(disk) && SameBytes(uploads)
    && forall u :: u in uploads ==> HandleOk(disk, uploads[u]) && TempOk(disk, uploads[u])
  }

  ghost predicate OriginalsInv(st: Store, uploads: map<nat, Upload>)
  {
    && (forall u :: u in uploads ==> OriginalOk(st, uploads[u]))
    && (forall id :: BytesKept(st, id))
  }

  ghost predicate TempInv(s: State)
  {
    DiskInv(s.disk, s.uploads) && OriginalsInv(s.store, s.uploads)
  }

  // ----- Steps on the disk -----

  lemma OpeningKeepsDisk(disk: Disk, uploads: map<nat, Upload>, u: nat, req: Request, path: string, file: nat)
    requires DiskInv(disk, uploads) && u !in uploads && MayOpen(disk, path, file) && Harmless(disk, uploads, path, req)
    ensures DiskInv(Truncate(disk, path, file), uploads[u := Upload(req, path, file, Opened)])
  {
    var disk', uploads' := Truncate(disk, path, file), uploads[u := Upload(req, path, file, Opened)];
    forall v | v in uploads'
      ensures HandleOk(disk', uploads'[v]) && TempOk(disk', uploads'[v])
    {
      if v in uploads {
        assert HandleOk(disk, uploads[v]) && TempOk(disk, uploads[v]);
      }
    }
  }

  /** Writing more of a file that holds a part of it. */
  lemma OverwriteKeepsPrefix(before: Bytes, data: Bytes, whole: Bytes)
    requires before <= whole && data <= whole
    ensures Overwrite(before, data) <= whole
    ensures before == whole || data == whole ==> Overwrite(before, data) == whole
  {
  }

  lemma WritingKeepsOthers(disk: Disk, uploads: map<nat, Upload>, u: nat, data: Bytes, v: nat)
    requires DiskInv(disk, uploads) && u in uploads && v in uploads
    requires uploads[u].phase.Opened? && data <= uploads[u].req.file
    ensures HandleOk(WriteFile(disk, uploads[u].file, data), uploads[v])
    ensures TempOk(WriteFile(disk, uploads[u].file, data), uploads[v])
  {
    assert HandleOk(disk, uploads[u]) && HandleOk(disk, uploads[v]) && TempOk(disk, uploads[v]);
    if Readable(disk, uploads[v].path) && disk.paths[uploads[v].path] == uploads[u].file && Unstored(uploads[v]) {
      OverwriteKeepsPrefix(ReadPath(disk, uploads[v].path), data, uploads[v].req.file);
    }
  }

  lemma CopyKeepsDisk(disk: Disk, uploads: map<nat, Upload>, u: nat)
    requires DiskInv(disk, uploads) && u in uploads && uploads[u].phase.Opened?
    ensures
      DiskInv(WriteFile(disk, uploads[u].file, uploads[u].req.file), uploads[u := uploads[u].(phase := Copied)])
  {
    var up := uploads[u];
    var disk', uploads' := WriteFile(disk, up.file, up.req.file), uploads[u := up.(phase := Copied)];
    forall v | v in uploads'
      ensures HandleOk(disk', uploads'[v]) && TempOk(disk', uploads'[v])
    {
      WritingKeepsOthers(disk, uploads, u, up.req.file, v);
      if v == u && Readable(disk, up.path) {
        OverwriteKeepsPrefix(ReadPath(disk, up.path), up.req.file, up.req.file);
      }
    }
  }

  lemma CopyFailsKeepsDisk(disk: Disk, uploads: map<nat, Upload>, u: nat, written: nat)
    requires DiskInv(disk, uploads) && u in uploads && uploads[u].phase.Opened? && written <= |uploads[u].req.file|
    ensures DiskInv(WriteFile(disk, uploads[u].file, uploads[u].req.file[..written]), uploads - {u})
  {
    var disk' := WriteFile(disk, uploads[u].file, uploads[u].req.file[..written]);
    forall v | v in uploads - {u}
      ensures HandleOk(disk', uploads[v]) && TempOk(disk', uploads[v])
    {
      WritingKeepsOthers(disk, uploads, u, uploads[u].req.file[..written], v);
    }
  }

  lemma UnlinkKeepsDisk(disk: Disk, uploads: map<nat, Upload>, u: nat, path: string)
    requires DiskInv(disk, uploads)
    ensures DiskInv(Unlink(disk, path), uploads - {u})
  {
    forall v | v in uploads
      ensures HandleOk(Unlink(disk, path), uploads[v]) && TempOk(Unlink(disk, path), uploads[v])
    {
      assert HandleOk(disk, uploads[v]) && TempOk(disk, uploads[v]);
    }
  }

  lemma StoppingKeepsDisk(disk: Disk, uploads: map<nat, Upload>, u: nat)
    requires DiskInv(disk, uploads)
    ensures DiskInv(disk, uploads - {u})
  {
  }

  /** An upload moves on without touching the disk. */
  lemma MovingKeepsDisk(disk: Disk, uploads: map<nat, Upload>, u: nat, phase: UploadPhase)
    requires DiskInv(disk, uploads) && u in uploads && !phase.Opened? && !phase.Copied?
    requires phase.Inserted? ==> uploads[u].phase.Copied?
    ensures DiskInv(disk, uploads[u := uploads[u].(phase := phase)])
  {
    assert HandleOk(disk, uploads[u]) && TempOk(disk, uploads[u]);
  }

  // ----- Steps on the originals -----

  lemma FewerKeepOriginals(st: Store, uploads: map<nat, Upload>, u: nat)
    requires OriginalsInv(st, uploads)
    ensures OriginalsInv(st, uploads - {u})
  {
  }

  lemma MovingKeepsOriginals(st: Store, uploads: map<nat, Upload>, u: nat, up: Upload)
    requires OriginalsInv(st, uploads) && OriginalOk(st, up)
    ensures OriginalsInv(st, uploads[u := up])
  {
  }

  lemma InsertKeepsOriginals(t: Transcoder, st: Store, uploads: map<nat, Upload>, id: nat, req: Request)
    requires StoreOk(t, st) && OriginalsInv(st, uploads) && id !in st.rows
    ensures OriginalsInv(PutRow(st, FreshRow(id, req)).(origin := st.origin[id := req]), uploads)
  {
    KeysApart();
    var st' := PutRow(st, FreshRow(id, req)).(origin := st.origin[id := req]);
    forall i
      ensures BytesKept(st', i)
    {
      assert BytesKept(st, i);
    }
    forall u | u in uploads
      ensures OriginalOk(st', uploads[u])
    {
      assert OriginalOk(st, uploads[u]);
    }
  }

  /** Storing the right original of a video whose row is not yet complete. */
  lemma StoringKeepsOriginals(st: Store, uploads: map<nat, Upload>, id: nat, req: Request, data: Bytes)
    requires OriginalsInv(st, uploads) && id in st.rows && st.rows[id] == FreshRow(id, req)
    requires forall v :: v in uploads && (uploads[v].phase.Stored? || uploads[v].phase.Saved?) ==> uploads[v].phase.id != id
    ensures OriginalsInv(PutObject(st, OriginalKey(id, req.fileName), data), uploads)
  {
    KeysApart();
    var st' := PutObject(st, OriginalKey(id, req.fileName), data);
    forall i
      ensures BytesKept(st', i)
    {
      assert BytesKept(st, i);
    }
    forall u | u in uploads
      ensures OriginalOk(st', uploads[u])
    {
      assert OriginalOk(st, uploads[u]);
    }
  }

  lemma SavingKeepsOriginals(st: Store, uploads: map<nat, Upload>, id: nat, req: Request)
    requires OriginalsInv(st, uploads) && id in st.origin && st.origin[id] == req
    requires OriginalKey(id, req.fileName) in st.objects && st.objects[OriginalKey(id, req.fileName)] == req.file
    ensures OriginalsInv(PutRow(st, SavedRow(id, req)), uploads)
  {
    var st' := PutRow(st, SavedRow(id, req));
    forall i
      ensures BytesKept(st', i)
    {
      assert BytesKept(st, i);
    }
    forall u | u in uploads
      ensures OriginalOk(st', uploads[u])
    {
      assert OriginalOk(st, uploads[u]);
    }
  }

  lemma OutputKeepsOriginals(st: Store, uploads: map<nat, Upload>, id: nat, name: string, data: Bytes)
    requires OriginalsInv(st, uploads)
    ensures OriginalsInv(PutObject(st, ProcessedKey(id, name), data), uploads)
  {
    KeysApart();
    var st' := PutObject(st, ProcessedKey(id, name), data);
    forall u | u in uploads
      ensures OriginalOk(st', uploads[u])
    {
      assert OriginalOk(st, uploads[u]);
    }
    forall i
      ensures BytesKept(st', i)
    {
      assert BytesKept(st, i);
    }
  }

  lemma ReadyKeepsOriginals(st: Store, uploads: map<nat, Upload>, id: nat, row: Video)
    requires OriginalsInv(st, uploads) && Settled(st, id) && row == st.rows[id].(status := row.status)
    ensures OriginalsInv(PutRow(st, row.(status := VideoReady)), uploads)
  {
    var st' := PutRow(st, row.(status := VideoReady));
    forall u | u in uploads
      ensures OriginalOk(st', uploads[u])
    {
      assert OriginalOk(st, uploads[u]);
    }
    forall i
      ensures BytesKept(st', i)
    {
      assert BytesKept(st, i);
    }
  }

  // ----- Steps of the machine -----

  lemma CreateTempKeeps(t: Transcoder, s: State, step: Step)
    requires TempInv(s) && Enabled(t, s, step) && step.CreateTemp? && CarefulStep(s, step)
    ensures TempInv(Apply(t, s, step))
  {
    OpeningKeepsDisk(s.disk, s.uploads, step.u, step.req, step.path, step.file);
    MovingKeepsOriginals(s.store, s.uploads, step.u, Upload(step.req, step.path, step.file, Opened));
  }

  lemma CopyTempKeeps(t: Transcoder, s: State, step: Step)
    requires TempInv(s) && Enabled(t, s, step) && step.CopyTemp?
    ensures TempInv(Apply(t, s, step))
  {
    CopyKeepsDisk(s.disk, s.uploads, step.u);
    MovingKeepsOriginals(s.store, s.uploads, step.u, s.uploads[step.u].(phase := Copied));
  }

  lemma CopyFailsKeeps(t: Transcoder, s: State, step: Step)
    requires TempInv(s) && Enabled(t, s, step) && step.CopyFails?
    ensures TempInv(Apply(t, s, step))
  {
    CopyFailsKeepsDisk(s.disk, s.uploads, step.u, step.written);
    FewerKeepOriginals(s.store, s.uploads, step.u);
  }

  lemma InsertRowKeepsFiles(t: Transcoder, s: State, step: Step)
    requires Inv(t, s) && TempInv(s) && Enabled(t, s, step) && step.InsertRow?
    ensures TempInv(Apply(t, s, step))
  {
    var up := s.uploads[step.u];
    var st' := PutRow(s.store, FreshRow(step.id, up.req)).(origin := s.store.origin[step.id := up.req]);
    MovingKeepsDisk(s.disk, s.uploads, step.u, Inserted(step.id));
    InsertKeepsOriginals(t, s.store, s.uploads, step.id, up.req);
    MovingKeepsOriginals(st', s.uploads, step.u, up.(phase := Inserted(step.id)));
  }

  lemma StoreOriginalKeepsFiles(t: Transcoder, s: State, step: Step)
    requires Inv(t, s) && TempInv(s) && Enabled(t, s, step) && step.StoreOriginal?
    ensures TempInv(Apply(t, s, step))
  {
    var up := s.uploads[step.u];
    var st' := PutObject(s.store, OriginalKey(up.phase.id, up.req.fileName), ReadPath(s.disk, up.path));
    assert UploadOk(s.store, s.broker.published, up) && TempOk(s.disk, up);
    MovingKeepsDisk(s.disk, s.uploads, step.u, Stored(up.phase.id));
    StoringKeepsOriginals(s.store, s.uploads, up.phase.id, up.req, ReadPath(s.disk, up.path));
    MovingKeepsOriginals(st', s.uploads, step.u, up.(phase := Stored(up.phase.id)));
  }

  lemma SaveRowKeepsFiles(t: Transcoder, s: State, step: Step)
    requires Inv(t, s) && TempInv(s) && Enabled(t, s, step) && step.SaveRow?
    ensures TempInv(Apply(t, s, step))
  {
    var up := s.uploads[step.u];
    assert UploadOk(s.store, s.broker.published, up) && OriginalOk(s.store, up);
    MovingKeepsDisk(s.disk, s.uploads, step.u, Saved(up.phase.id));
    SavingKeepsOriginals(s.store, s.uploads, up.phase.id, up.req);
    MovingKeepsOriginals(PutRow(s.store, SavedRow(up.phase.id, up.req)), s.uploads, step.u,
                         up.(phase := Saved(up.phase.id)));
  }

  lemma PublishJobKeeps(t: Transcoder, s: State, step: Step)
    requires TempInv(s) && Enabled(t, s, step) && step.PublishJob?
    ensures TempInv(Apply(t, s, step))
  {
    var up := s.uploads[step.u];
    MovingKeepsDisk(s.disk, s.uploads, step.u, Queued(up.phase.id));
    MovingKeepsOriginals(s.store, s.uploads, step.u, up.(phase := Queued(up.phase.id)));
  }

  lemma RemoveTempKeeps(t: Transcoder, s: State, step: Step)
    requires TempInv(s) && Enabled(t, s, step) && step.RemoveTemp?
    ensures TempInv(Apply(t, s, step))
  {
    UnlinkKeepsDisk(s.disk, s.uploads, step.u, s.uploads[step.u].path);
    FewerKeepOriginals(s.store, s.uploads, step.u);
  }

  lemma UploadStopsKeeps(t: Transcoder, s: State, step: Step)
    requires TempInv(s) && Enabled(t, s, step) && step.UploadStops?
    ensures TempInv(Apply(t, s, step))
  {
    StoppingKeepsDisk(s.disk, s.uploads, step.u);
    FewerKeepOriginals(s.store, s.uploads, step.u);
  }

  lemma StoreOutputKeepsFiles(t: Transcoder, s: State, step: Step)
    requires TempInv(s) && Enabled(t, s, step) && step.StoreOutput?
    ensures TempInv(Apply(t, s, step))
  {
    var a := s.attempts[step.c];
    var name := a.phase.names[a.phase.next];
    OutputKeepsOriginals(s.store, s.uploads, a.job.videoID, name, a.phase.files[name]);
  }

  lemma LoadedRowIsSettled(t: Transcoder, s: State, c: nat)
    requires AttemptsOk(t, s.store, s.broker, s.attempts) && c in s.attempts && s.attempts[c].phase.Loaded?
    ensures
      var id, row := s.attempts[c].job.videoID, s.attempts[c].phase.row;
      Settled(s.store, id) && row == s.store.rows[id].(status := row.status)
  {
    assert AttemptOk(t, s.store, s.attempts[c]);
  }

  lemma SaveReadyKeepsFiles(t: Transcoder, s: State, step: Step)
    requires Inv(t, s) && TempInv(s) && Enabled(t, s, step) && step.SaveReady?
    ensures TempInv(Apply(t, s, step))
  {
    LoadedRowIsSettled(t, s, step.c);
    ReadyKeepsOriginals(s.store, s.uploads, s.attempts[step.c].job.videoID, s.attempts[step.c].phase.row);
  }

  predicate OnlyConsumes(step: Step)
  {
    step.Deliver? || step.Begin? || step.Download? || step.TranscodeInput? || step.LoadRow? || step.AttemptFails?
    || step.Ack? || step.Nack? || step.SettleFails? || step.Crash? || step.Return?
  }

  lemma ConsumingLeavesFiles(t: Transcoder, s: State, step: Step)
    requires Enabled(t, s, step) && OnlyConsumes(step)
    ensures
      var s' := Apply(t, s, step);
      s'.disk == s.disk && s'.store == s.store && s'.uploads == s.uploads
  {
  }

  lemma UploadStepKeeps(t: Transcoder, s: State, step: Step)
    requires Inv(t, s) && TempInv(s) && Enabled(t, s, step) && CarefulStep(s, step)
    requires !OnlyConsumes(step) && !step.StoreOutput? && !step.SaveReady?
    ensures TempInv(Apply(t, s, step))
  {
    if step.CreateTemp? {
      CreateTempKeeps(t, s, step);
    } else if step.CopyTemp? {
      CopyTempKeeps(t, s, step);
    } else if step.CopyFails? {
      CopyFailsKeeps(t, s, step);
    } else if step.InsertRow? {
      InsertRowKeepsFiles(t, s, step);
    } else if step.StoreOriginal? {
      StoreOriginalKeepsFiles(t, s, step);
    } else if step.SaveRow? {
      SaveRowKeepsFiles(t, s, step);
    } else if step.PublishJob? {
      PublishJobKeeps(t, s, step);
    } else if step.RemoveTemp? {
      RemoveTempKeeps(t, s, step);
    } else {
      UploadStopsKeeps(t, s, step);
    }
  }

  lemma CarefulStepKeeps(t: Transcoder, s: State, step: Step)
    requires Inv(t, s) && TempInv(s) && Enabled(t, s, step) && CarefulStep(s, step)
    ensures TempInv(Apply(t, s, step))
  {
    if OnlyConsumes(step) {
      ConsumingLeavesFiles(t, s, step);
    } else if step.StoreOutput? {
      StoreOutputKeepsFiles(t, s, step);
    } else if step.SaveReady? {
      SaveReadyKeepsFiles(t, s, step);
    } else {
      UploadStepKeeps(t, s, step);
    }
  }

  lemma {:induction false} CarefulRunKeeps(t: Transcoder, s: State, steps: seq<Step>, s': State)
    requires Inv(t, s) && TempInv(s) && CarefulRun(t, s, steps, s')
    ensures Inv(t, s') && TempInv(s')
    decreases |steps|
  {
    if steps != [] {
      StepKeepsInv(t, s, steps[0]);
      CarefulStepKeeps(t, s, steps[0]);
      CarefulRunKeeps(t, Apply(t, s, steps[0]), steps[1..], s');
    }
  }

  /** The object a job names holds the bytes uploaded for its video, and the video's row names it too. */
  predicate Faithful(st: Store, job: Job)
  {
    && job.videoID in st.rows && job.videoID in st.origin
    && st.rows[job.videoID].fileName == job.fileName && st.rows[job.videoID].kind == job.kind
    && job.fileName in st.objects && st.objects[job.fileName] == st.origin[job.videoID].file
  }

  ghost predicate AllFaithful(s: State)
  {
    forall job :: job in s.broker.published ==> Faithful(s.store, job)
  }

  lemma JobsAreFaithful(t: Transcoder, s: State)
    requires Inv(t, s) && TempInv(s)
    ensures AllFaithful(s)
  {
    forall job | job in s.broker.published
      ensures Faithful(s.store, job)
    {
      assert JobOk(s.store, job) && BytesKept(s.store, job.videoID);
    }
  }

  /** In every careful run, each job queued, held or being worked on stands for exactly what was uploaded. */
  lemma JobsNameTheirUpload(t: Transcoder, steps: seq<Step>, s: State)
    requires CarefulRun(t, Init, steps, s)
    ensures forall job :: job in s.broker.queue ==> Faithful(s.store, job)
    ensures forall tag :: tag in s.broker.unacked ==> Faithful(s.store, s.broker.unacked[tag].job)
    ensures forall c :: c in s.attempts ==> Faithful(s.store, s.attempts[c].job)
  {
    InitInv(t);
    CarefulRunKeeps(t, Init, steps, s);
    JobsAreFaithful(t, s);
    forall tag | tag in s.broker.unacked
      ensures Faithful(s.store, s.broker.unacked[tag].job)
    {
      assert HeldAt(s.broker, tag, s.broker.unacked[tag].job);
    }
    forall c | c in s.attempts
      ensures Faithful(s.store, s.attempts[c].job)
    {
      assert AttemptHeld(s.broker, s.attempts[c]);
    }
  }

  /** With careful naming a ready video serves the transcode of the very bytes its uploader sent. */
  lemma ReadyServesTheUpload(t: Transcoder, steps: seq<Step>, s: State, id: nat)
    requires CarefulRun(t, Init, steps, s) && Done(s.store, id)
    ensures id in s.store.origin
    ensures
      forall name :: name in t(s.store.origin[id].file) ==>
        && ProcessedKey(id, name) in s.store.objects
        && s.store.objects[ProcessedKey(id, name)] == t(s.store.origin[id].file)[name]
  {
    InitInv(t);
    CarefulRunKeeps(t, Init, steps, s);
    assert RowOk(t, s.store, id) && BytesKept(s.store, id);
    forall name | name in t(s.store.origin[id].file)
      ensures ProcessedKey(id, name) in s.store.objects
      ensures s.store.objects[ProcessedKey(id, name)] == t(s.store.origin[id].file)[name]
    {
      assert StoredFile(t, s.store, id, name);
    }
  }

  // ----- Why the guard is needed -----

  lemma CarefulOne(t: Transcoder, s: State, step: Step, rest: seq<Step>, s': State)
    requires Enabled(t, s, step) && CarefulStep(s, step) && CarefulRun(t, Apply(t, s, step), rest, s')
    ensures CarefulRun(t, s, [step] + rest, s')
  {
    assert ([step] + rest)[1..] == rest;
  }

  /** Storing, saving and publishing whatever the temporary file holds by then. */
  lemma FinishFromInserted(t: Transcoder, s: State, u: nat) returns (steps: seq<Step>, s': State)
    requires u in s.uploads && s.uploads[u].phase.Inserted? && Readable(s.disk, s.uploads[u].path)
    requires
      var up := s.uploads[u];
      up.phase.id in s.store.origin && s.store.origin[up.phase.id] == up.req && ReadPath(s.disk, up.path) != up.req.file
    ensures CarefulRun(t, s, steps, s') && !AllFaithful(s')
  {
    var up := s.uploads[u];
    var job := JobFor(up.phase.id, up.req);
    var s1 := Apply(t, s, StoreOriginal(u));
    var s2 := Apply(t, s1, SaveRow(u));
    s' := Apply(t, s2, PublishJob(u));
    assert s'.store.objects == s1.store.objects && s'.store.origin == s.store.origin;
    assert job in s'.broker.published && !Faithful(s'.store, job);
    CarefulOne(t, s2, PublishJob(u), [], s');
    CarefulOne(t, s1, SaveRow(u), [PublishJob(u)] + [], s');
    steps := [StoreOriginal(u)] + ([SaveRow(u)] + ([PublishJob(u)] + []));
    CarefulOne(t, s, StoreOriginal(u), [SaveRow(u)] + ([PublishJob(u)] + []), s');
  }

  lemma FinishFromCopied(t: Transcoder, s: State, u: nat, id: nat) returns (steps: seq<Step>, s': State)
    requires u in s.uploads && s.uploads[u].phase.Copied? && Readable(s.disk, s.uploads[u].path)
    requires ReadPath(s.disk, s.uploads[u].path) != s.uploads[u].req.file
    requires 0 < id && id !in s.store.rows
    ensures CarefulRun(t, s, steps, s') && !AllFaithful(s')
  {
    var rest;
    rest, s' := FinishFromInserted(t, Apply(t, s, InsertRow(u, id)), u);
    steps := [InsertRow(u, id)] + rest;
    CarefulOne(t, s, InsertRow(u, id), rest, s');
  }

  /** Two uploads of different bytes, one path: from the moment it is opened twice, a wrong job can follow. */
  lemma SharedPathCorrupts(t: Transcoder, s: State, u: nat, v: nat, req: Request, file: nat, id: nat)
    returns (steps: seq<Step>, s': State)
    requires Inv(t, s) && u in s.uploads && Unstored(s.uploads[u]) && v !in s.uploads
    requires MayOpen(s.disk, s.uploads[u].path, file) && s.uploads[u].file in s.disk.files
    requires s.uploads[u].req.file != req.file
    requires 0 < id && id !in s.store.rows
    ensures CarefulRun(t, Apply(t, s, CreateTemp(v, req, s.uploads[u].path, file)), steps, s') && !AllFaithful(s')
  {
    var path := s.uploads[u].path;
    var s1 := Apply(t, s, CreateTemp(v, req, path, file));
    var s2 := Apply(t, s1, CopyTemp(v));
    assert ReadPath(s2.disk, path) == req.file && s2.uploads[u] == s.uploads[u] && s2.store == s.store;
    var rest;
    match s.uploads[u].phase {
      case Inserted(_) =>
        assert UploadOk(s.store, s.broker.published, s.uploads[u]);
        rest, s' := FinishFromInserted(t, s2, u);
      case Copied =>
        rest, s' := FinishFromCopied(t, s2, u, id);
      case Opened =>
        var s3 := Apply(t, s2, CopyTemp(u));
        var more;
        if ReadPath(s3.disk, path) != s.uploads[u].req.file {
          more, s' := FinishFromCopied(t, s3, u, id);
        } else {
          more, s' := FinishFromCopied(t, s3, v, id);
        }
        rest := [CopyTemp(u)] + more;
        CarefulOne(t, s2, CopyTemp(u), more, s');
    }
    steps := [CopyTemp(v)] + rest;
    CarefulOne(t, s1, CopyTemp(v), rest, s');
  }

  /** An upload that has filled its file and not yet stored it: emptying the file loses its bytes. */
  lemma ReopenedPathCorrupts(t: Transcoder, s: State, u: nat, v: nat, req: Request, file: nat, id: nat)
    returns (steps: seq<Step>, s': State)
    requires Inv(t, s) && u in s.uploads && v !in s.uploads && MayOpen(s.disk, s.uploads[u].path, file)
    requires s.uploads[u].phase.Copied? || s.uploads[u].phase.Inserted?
    requires s.uploads[u].req.file != []
    requires 0 < id && id !in s.store.rows
    ensures CarefulRun(t, Apply(t, s, CreateTemp(v, req, s.uploads[u].path, file)), steps, s') && !AllFaithful(s')
  {
    var s1 := Apply(t, s, CreateTemp(v, req, s.uploads[u].path, file));
    assert ReadPath(s1.disk, s.uploads[u].path) == [] && s1.uploads[u] == s.uploads[u] && s1.store == s.store;
    if s.uploads[u].phase.Inserted? {
      assert UploadOk(s.store, s.broker.published, s.uploads[u]);
      steps, s' := FinishFromInserted(t, s1, u);
    } else {
      steps, s' := FinishFromCopied(t, s1, u, id);
    }
  }

  /** An upload whose open file has lost its name: once its path is created anew it stores that file instead of its own. */
  lemma LostNameCorrupts(t: Transcoder, s: State, u: nat, v: nat, req: Request, file: nat, id: nat)
    returns (steps: seq<Step>, s': State)
    requires u in s.uploads && v !in s.uploads && MayOpen(s.disk, s.uploads[u].path, file)
    requires s.uploads[u].phase.Opened? && s.uploads[u].file in s.disk.files && !Holds(s.disk, s.uploads[u])
    requires s.uploads[u].req.file != []
    requires 0 < id && id !in s.store.rows
    ensures CarefulRun(t, Apply(t, s, CreateTemp(v, req, s.uploads[u].path, file)), steps, s') && !AllFaithful(s')
  {
    var s1 := Apply(t, s, CreateTemp(v, req, s.uploads[u].path, file));
    var s2 := Apply(t, s1, CopyTemp(u));
    assert file != s.uploads[u].file && ReadPath(s2.disk, s.uploads[u].path) == [] && s2.store == s.store;
    var rest;
    rest, s' := FinishFromCopied(t, s2, u, id);
    steps := [CopyTemp(u)] + rest;
    CarefulOne(t, s1, CopyTemp(u), rest, s');
  }

  /** No careful continuation ends with a published job for bytes other than the uploaded ones. */
  ghost predicate StaysFaithful(t: Transcoder, s: State)
  {
    forall steps, s' :: CarefulRun(t, s, steps, s') ==> AllFaithful(s')
  }

  lemma {:induction false} SomeFreshId(used: set<nat>, bound: nat) returns (id: nat)
    ensures 0 < id && id !in used && bound < id
    decreases used
  {
    if used == {} {
      id := bound + 1;
    } else {
      var x :| x in used;
      id := SomeFreshId(used - {x}, if bound < x then x else bound);
    }
  }

  /**
   * Opening a path is harmless in every careful continuation exactly when each upload that has yet to store its original
   * from it sends the same bytes, has not written them yet, and still has the path name its open file (or the bytes are
   * none).
   */
  lemma PathGuardIsExact(t: Transcoder, s: State, v: nat, req: Request, path: string, file: nat)
    requires Inv(t, s) && TempInv(s) && Enabled(t, s, CreateTemp(v, req, path, file))
    ensures Harmless(s.disk, s.uploads, path, req) <==> StaysFaithful(t, Apply(t, s, CreateTemp(v, req, path, file)))
  {
    var step := CreateTemp(v, req, path, file);
    if Harmless(s.disk, s.uploads, path, req) {
      StepKeepsInv(t, s, step);
      CarefulStepKeeps(t, s, step);
      forall steps, s' | CarefulRun(t, Apply(t, s, step), steps, s')
        ensures AllFaithful(s')
      {
        CarefulRunKeeps(t, Apply(t, s, step), steps, s');
        JobsAreFaithful(t, s');
      }
    } else {
      HarmIsReached(t, s, v, req, path, file);
    }
  }

  lemma HarmIsReached(t: Transcoder, s: State, v: nat, req: Request, path: string, file: nat)
    requires Inv(t, s) && TempInv(s) && v !in s.uploads && MayOpen(s.disk, path, file)
    requires !Harmless(s.disk, s.uploads, path, req)
    ensures !StaysFaithful(t, Apply(t, s, CreateTemp(v, req, path, file)))
  {
    var u :| u in s.uploads && Unstored(s.uploads[u]) && s.uploads[u].path == path
      && !Undisturbed(s.disk, s.uploads[u], req);
    assert HandleOk(s.disk, s.uploads[u]);
    var id := SomeFreshId(s.store.rows.Keys, 0);
    var steps, s';
    if s.uploads[u].req.file != req.file {
      steps, s' := SharedPathCorrupts(t, s, u, v, req, file, id);
    } else if s.uploads[u].phase.Opened? {
      steps, s' := LostNameCorrupts(t, s, u, v, req, file, id);
    } else {
      steps, s' := ReopenedPathCorrupts(t, s, u, v, req, file, id);
    }
  }

  // ----- A run to an open file without a name -----

  lemma {:induction false} OtherStepsAreCareful(t: Transcoder, s: State, steps: seq<Step>, s': State)
    requires Runs(t, s, steps, s') && forall i :: 0 <= i < |steps| ==> !steps[i].CreateTemp?
    ensures CarefulRun(t, s, steps, s')
    decreases |steps|
  {
    if steps != [] {
      OtherStepsAreCareful(t, Apply(t, s, steps[0]), steps[1..], s');
    }
  }

  lemma {:induction false} CarefulConcat(t: Transcoder, s: State, a: seq<Step>, m: State, b: seq<Step>, s': State)
    requires CarefulRun(t, s, a, m) && CarefulRun(t, m, b, s')
    ensures CarefulRun(t, s, a + b, s')
    decreases |a|
  {
    if a == [] {
      assert a + b == b;
    } else {
      assert (a + b)[1..] == a[1..] + b;
      CarefulConcat(t, Apply(t, s, a[0]), a[1..], m, b, s');
    }
  }

  /**
   * One upload has queued its job and not yet removed its file; a second opens the path, which is harmless; the first
   * removes it. The second is left writing to a file without a name.
   */
  lemma RemovalLosesName(t: Transcoder, first: Request, second: Request) returns (steps: seq<Step>, m: State)
    ensures CarefulRun(t, Uploaded(first), steps, m)
    ensures m.uploads == map[1 := Upload(second, "t", 0, Opened)] && m.disk == Disk(map[], map[0 := []])
    ensures m.store == Uploaded(first).store
  {
    var reopen := CreateTemp(1, second, "t", 0);
    var shared := Apply(t, Uploaded(first), reopen);
    m := Apply(t, shared, RemoveTemp(0));
    CarefulOne(t, shared, RemoveTemp(0), [], m);
    CarefulOne(t, Uploaded(first), reopen, [RemoveTemp(0)] + [], m);
    steps := [reopen] + ([RemoveTemp(0)] + []);
  }

  lemma NameIsLost(t: Transcoder, first: Request, second: Request) returns (steps: seq<Step>, m: State)
    ensures CarefulRun(t, Init, steps, m)
    ensures m.uploads == map[1 := Upload(second, "t", 0, Opened)] && m.disk == Disk(map[], map[0 := []])
    ensures m.store == Uploaded(first).store
  {
    var before := UploadedIsReachable(t, first);
    OtherStepsAreCareful(t, Apply(t, Init, before[0]), before[1..], Uploaded(first));
    assert before == [before[0]] + before[1..];
    CarefulOne(t, Init, before[0], before[1..], Uploaded(first));
    var more;
    more, m := RemovalLosesName(t, first, second);
    CarefulConcat(t, Init, before, Uploaded(first), more, m);
    steps := before + more;
  }

  /** Then a third upload, even of the second's own bytes, makes the second publish a job for others. */
  lemma SameBytesCorrupt(t: Transcoder, first: Request, second: Request)
    returns (before: seq<Step>, m: State, after: seq<Step>, s': State)
    requires second.file != []
    ensures CarefulRun(t, Init, before, m)
    ensures Enabled(t, m, CreateTemp(2, second, "t", 1))
    ensures CarefulRun(t, Apply(t, m, CreateTemp(2, second, "t", 1)), after, s') && !AllFaithful(s')
  {
    before, m := NameIsLost(t, first, second);
    after, s' := LostNameCorrupts(t, m, 1, 2, second, 1, 2);
  }
}

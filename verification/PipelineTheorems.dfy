/** What the pipeline guarantees in every reachable state and over every run. */
module PipelineTheorems {
  import opened Wrappers
  import opened Keys
  import opened Pipeline
  import opened PipelineInvariant

  lemma KeepsTransitive(t: Transcoder, a: Store, b: Store, c: Store)
    requires Keeps(t, a, b) && Keeps(t, b, c)
    ensures Keeps(t, a, c)
  {
    forall id | Settled(a, id)
      ensures KeepsVideo(t, a, c, id)
    {
      assert KeepsVideo(t, a, b, id) && KeepsVideo(t, b, c, id);
    }
  }

  lemma {:induction false} RunKeepsInv(t: Transcoder, s: State, steps: seq<Step>, s': State)
    requires Inv(t, s) && Runs(t, s, steps, s')
    ensures Inv(t, s')
    ensures Keeps(t, s.store, s'.store)
    decreases |steps|
  {
    if steps == [] {
      KeepsRefl(t, s.store);
    } else {
      var m := Apply(t, s, steps[0]);
      StepKeepsInv(t, s, steps[0]);
      RunKeepsInv(t, m, steps[1..], s');
      KeepsTransitive(t, s.store, m.store, s'.store);
    }
  }

  lemma Reachable(t: Transcoder, steps: seq<Step>, s: State)
    requires Runs(t, Init, steps, s)
    ensures Inv(t, s)
  {
    InitInv(t);
    RunKeepsInv(t, Init, steps, s);
  }

  /**
   * A ready video is complete: its original is kept, and every file of the transcoded original is
   * stored under the video's own prefix with the right bytes.
   */
  lemma ReadyIsComplete(t: Transcoder, steps: seq<Step>, s: State, id: nat)
    requires Runs(t, Init, steps, s) && Done(s.store, id)
    ensures id in s.store.origin && OriginalKey(id, s.store.origin[id].fileName) in s.store.objects
    ensures
      var files := t(s.store.objects[OriginalKey(id, s.store.origin[id].fileName)]);
      forall name :: name in files ==>
        ProcessedKey(id, name) in s.store.objects && s.store.objects[ProcessedKey(id, name)] == files[name]
  {
    Reachable(t, steps, s);
    assert RowOk(t, s.store, id);
    var files := t(Original(s.store, id));
    forall name | name in files
      ensures ProcessedKey(id, name) in s.store.objects && s.store.objects[ProcessedKey(id, name)] == files[name]
    {
      assert StoredFile(t, s.store, id, name);
    }
  }

  /** Once ready, always ready: whatever runs afterwards, the row is exactly what the upload saved, marked ready. */
  lemma ReadyIsForever(t: Transcoder, before: seq<Step>, m: State, after: seq<Step>, s: State, id: nat)
    requires Runs(t, Init, before, m) && Runs(t, m, after, s) && Done(m.store, id)
    ensures id in m.store.origin && id in s.store.origin && s.store.origin[id] == m.store.origin[id]
    ensures id in s.store.rows
    ensures s.store.rows[id] == m.store.rows[id] == SavedRow(id, s.store.origin[id]).(status := VideoReady)
  {
    Reachable(t, before, m);
    RunKeepsInv(t, m, after, s);
    assert RowOk(t, m.store, id);
    assert KeepsVideo(t, m.store, s.store, id);
  }

  /**
   * No job is lost or duplicated: until its video is ready, a published job is queued or held by a
   * consumer, and at every moment it is in at most one of those places, once.
   */
  lemma NoJobLost(t: Transcoder, steps: seq<Step>, s: State, job: Job)
    requires Runs(t, Init, steps, s) && job in s.broker.published
    ensures job in s.broker.queue || (exists tag: nat :: HeldAt(s.broker, tag, job)) || Done(s.store, job.videoID)
    ensures s.broker.queue[job] <= 1
    ensures job in s.broker.queue ==> forall tag: nat :: !HeldAt(s.broker, tag, job)
    ensures forall x: nat, y: nat :: HeldAt(s.broker, x, job) && HeldAt(s.broker, y, job) ==> x == y
  {
    Reachable(t, steps, s);
    assert WithBroker(s.broker, job) || Done(s.store, job.videoID);
  }

  /** What the upload was asked to publish, column by column. */
  predicate HoldsUpload(row: Video, id: nat, req: Request)
  {
    && row.id == id && row.title == req.title && row.description == req.description && row.kind == req.kind
    && row.fileName == OriginalKey(id, req.fileName) && row.viewCount == 0
  }

  /** In every reachable state a published or ready video's row holds what was uploaded, and its job names it. */
  lemma RowsHoldTheirUpload(t: Transcoder, steps: seq<Step>, s: State)
    requires Runs(t, Init, steps, s)
    ensures forall id: nat :: Done(s.store, id) ==>
              id in s.store.origin && HoldsUpload(s.store.rows[id], id, s.store.origin[id])
    ensures forall job :: job in s.broker.published ==>
              && job.videoID in s.store.rows && job.videoID in s.store.origin
              && HoldsUpload(s.store.rows[job.videoID], job.videoID, s.store.origin[job.videoID])
              && job.fileName == s.store.rows[job.videoID].fileName && job.kind == s.store.origin[job.videoID].kind
  {
    Reachable(t, steps, s);
    forall id: nat | Done(s.store, id)
      ensures id in s.store.origin && HoldsUpload(s.store.rows[id], id, s.store.origin[id])
    {
      assert RowOk(t, s.store, id);
    }
    forall job | job in s.broker.published
      ensures job.videoID in s.store.rows && job.videoID in s.store.origin
      ensures HoldsUpload(s.store.rows[job.videoID], job.videoID, s.store.origin[job.videoID])
      ensures job.fileName == s.store.rows[job.videoID].fileName && job.kind == s.store.origin[job.videoID].kind
    {
      assert JobOk(s.store, job);
    }
  }
}

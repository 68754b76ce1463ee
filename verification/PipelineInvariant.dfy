/** What every step of the pipeline keeps, in every interleaving and whatever the temporary file names are. */
module PipelineInvariant {
  import opened Wrappers
  import opened Lex
  import opened Keys
  import opened Pipeline

  // ----- The store -----

  /** The upload has written everything it will write about the video. */
  predicate Settled(st: Store, id: nat)
  {
    && id in st.rows && id in st.origin
    && st.rows[id] == SavedRow(id, st.origin[id]).(status := st.rows[id].status)
    && st.rows[id].fileName in st.objects
  }

  /** The bytes kept as a video's original. */
  function Original(st: Store, id: nat): Bytes
    requires Settled(st, id)
  {
    st.objects[st.rows[id].fileName]
  }

  /** If the transcoded original has a file of this name, it is stored under the video's key with the right bytes. */
  ghost predicate StoredFile(t: Transcoder, st: Store, id: nat, name: string)
    requires Settled(st, id)
  {
    name in t(Original(st, id)) ==>
      ProcessedKey(id, name) in st.objects && st.objects[ProcessedKey(id, name)] == t(Original(st, id))[name]
  }

  ghost predicate AllStored(t: Transcoder, st: Store, id: nat)
  {
    Settled(st, id) && forall name :: StoredFile(t, st, id, name)
  }

  predicate Done(st: Store, id: nat)
  {
    id in st.rows && st.rows[id].status == VideoReady
  }

  ghost predicate RowOk(t: Transcoder, st: Store, id: nat)
    requires id in st.rows
  {
    && 0 < id && id in st.origin
    && (st.rows[id] == FreshRow(id, st.origin[id]) || st.rows[id] == SavedRow(id, st.origin[id]) || Done(st, id))
    && (Done(st, id) ==> AllStored(t, st, id))
  }

  ghost predicate StoreOk(t: Transcoder, st: Store)
  {
    st.origin.Keys == st.rows.Keys && forall id :: id in st.rows ==> RowOk(t, st, id)
  }

  // ----- Uploads -----

  predicate Writing(up: Upload)
  {
    up.phase.Inserted? || up.phase.Stored? || up.phase.Saved?
  }

  ghost predicate UploadOk(st: Store, published: set<Job>, up: Upload)
  {
    Writing(up) ==>
      && up.phase.id in st.rows && up.phase.id in st.origin && st.origin[up.phase.id] == up.req
      && st.rows[up.phase.id] == (if up.phase.Saved? then SavedRow(up.phase.id, up.req) else FreshRow(up.phase.id, up.req))
      && (up.phase.Inserted? || OriginalKey(up.phase.id, up.req.fileName) in st.objects)
      && JobFor(up.phase.id, up.req) !in published
  }

  /** No two uploads write the same video. */
  ghost predicate OneWriter(uploads: map<nat, Upload>)
  {
    forall u, v ::
      (u in uploads && v in uploads && u != v && Writing(uploads[u]) && Writing(uploads[v])) ==>
        uploads[u].phase.id != uploads[v].phase.id
  }

  ghost predicate UploadsOk(st: Store, published: set<Job>, uploads: map<nat, Upload>)
  {
    OneWriter(uploads) && forall u :: u in uploads ==> UploadOk(st, published, uploads[u])
  }

  // ----- Jobs and deliveries -----

  /** A published job names a settled row. */
  predicate JobOk(st: Store, job: Job)
  {
    Settled(st, job.videoID) && job == JobFor(job.videoID, st.origin[job.videoID])
  }

  predicate HeldAt(b: Broker, tag: nat, job: Job)
  {
    tag in b.unacked && b.unacked[tag].job == job
  }

  /** A job has one copy with the broker, queued or held, until it is acknowledged. */
  ghost predicate BrokerOk(b: Broker)
  {
    && (forall job :: job in b.queue ==> job in b.published && b.queue[job] == 1)
    && (forall job, tag: nat :: HeldAt(b, tag, job) ==> tag < b.nextTag && job in b.published && job !in b.queue)
    && (forall job, x: nat, y: nat :: HeldAt(b, x, job) && HeldAt(b, y, job) ==> x == y)
  }

  ghost predicate WithBroker(b: Broker, job: Job)
  {
    job in b.queue || exists tag: nat :: HeldAt(b, tag, job)
  }

  ghost predicate JobsOk(st: Store, b: Broker)
  {
    forall job :: job in b.published ==> JobOk(st, job) && (WithBroker(b, job) || Done(st, job.videoID))
  }

  // ----- Attempts -----

  ghost predicate PhaseOk(t: Transcoder, st: Store, id: nat, phase: AttemptPhase)
    requires Settled(st, id)
  {
    match phase
    case Taken => true
    case Fetched(input) => input == Original(st, id)
    case Listed(files, names, next) =>
      && next <= |names|
      && (forall name :: name in t(Original(st, id)) ==>
            name in names && name in files && files[name] == t(Original(st, id))[name])
      && (forall i :: 0 <= i < next ==> StoredFile(t, st, id, names[i]))
    case Loaded(row) => AllStored(t, st, id) && row == st.rows[id].(status := row.status)
    case Finished => Done(st, id)
    case Failed => true
  }

  ghost predicate AttemptHeld(b: Broker, a: Attempt)
  {
    a.job in b.published && a.tag < b.nextTag && (a.tag in b.unacked ==> b.unacked[a.tag].job == a.job)
  }

  ghost predicate AttemptOk(t: Transcoder, st: Store, a: Attempt)
  {
    JobOk(st, a.job) && PhaseOk(t, st, a.job.videoID, a.phase)
  }

  ghost predicate AttemptsOk(t: Transcoder, st: Store, b: Broker, attempts: map<nat, Attempt>)
  {
    forall c :: c in attempts ==> AttemptHeld(b, attempts[c]) && AttemptOk(t, st, attempts[c])
  }

  ghost predicate Inv(t: Transcoder, s: State)
  {
    && StoreOk(t, s.store)
    && UploadsOk(s.store, s.broker.published, s.uploads)
    && BrokerOk(s.broker)
    && JobsOk(s.store, s.broker)
    && AttemptsOk(t, s.store, s.broker, s.attempts)
  }

  lemma InitInv(t: Transcoder)
    ensures Inv(t, Init)
  {
  }

  // ----- How the store may change -----

  lemma KeysApart()
    ensures forall i, m, j, n :: OriginalKey(i, m) == OriginalKey(j, n) ==> i == j && m == n
    ensures forall i, m, j, n :: ProcessedKey(i, m) == ProcessedKey(j, n) ==> i == j && m == n
    ensures forall i, m, j, n :: OriginalKey(i, m) != ProcessedKey(j, n)
    ensures forall i, m :: OriginalKey(i, m) != m
  {
    forall i, m, j, n
      ensures OriginalKey(i, m) == OriginalKey(j, n) ==> i == j && m == n
      ensures ProcessedKey(i, m) == ProcessedKey(j, n) ==> i == j && m == n
      ensures OriginalKey(i, m) != ProcessedKey(j, n)
    {
      KeysNeverCollide(i, m, j, n);
    }
    forall i, m
      ensures OriginalKey(i, m) != m
    {
      assert |OriginalKey(i, m)| > |m|;
    }
  }

  /** Whatever is settled about a video stays, files once stored stay, and its status can only become ready. */
  ghost predicate KeepsVideo(t: Transcoder, st: Store, st': Store, id: nat)
    requires Settled(st, id)
  {
    && Settled(st', id)
    && st'.origin[id] == st.origin[id]
    && (st'.rows[id] == st.rows[id] || st'.rows[id] == st.rows[id].(status := VideoReady))
    && Original(st', id) == Original(st, id)
    && (forall name :: StoredFile(t, st, id, name) ==> StoredFile(t, st', id, name))
  }

  ghost predicate Keeps(t: Transcoder, st: Store, st': Store)
  {
    forall id :: Settled(st, id) ==> KeepsVideo(t, st, st', id)
  }

  lemma JobsSurvive(t: Transcoder, st: Store, st': Store, b: Broker)
    requires Keeps(t, st, st') && JobsOk(st, b)
    ensures JobsOk(st', b)
  {
    forall job | job in b.published
      ensures JobOk(st', job) && (WithBroker(b, job) || Done(st', job.videoID))
    {
      assert JobOk(st, job);
      assert KeepsVideo(t, st, st', job.videoID);
    }
  }

  lemma AttemptSurvives(t: Transcoder, st: Store, st': Store, a: Attempt)
    requires Keeps(t, st, st') && AttemptOk(t, st, a)
    ensures AttemptOk(t, st', a)
  {
    assert KeepsVideo(t, st, st', a.job.videoID);
  }

  lemma AttemptsSurvive(t: Transcoder, st: Store, st': Store, b: Broker, attempts: map<nat, Attempt>)
    requires Keeps(t, st, st') && AttemptsOk(t, st, b, attempts)
    ensures AttemptsOk(t, st', b, attempts)
  {
    forall c | c in attempts
      ensures AttemptHeld(b, attempts[c]) && AttemptOk(t, st', attempts[c])
    {
      AttemptSurvives(t, st, st', attempts[c]);
    }
  }

  lemma RowSurvives(t: Transcoder, st: Store, st': Store, id: nat)
    requires Keeps(t, st, st')
    requires id in st.rows && RowOk(t, st, id)
    requires id in st'.rows && id in st'.origin && st'.rows[id] == st.rows[id] && st'.origin[id] == st.origin[id]
    ensures RowOk(t, st', id)
  {
    if Done(st, id) {
      assert KeepsVideo(t, st, st', id);
      forall name
        ensures StoredFile(t, st', id, name)
      {
        assert StoredFile(t, st, id, name);
      }
    }
  }

  lemma KeepsRefl(t: Transcoder, st: Store)
    ensures Keeps(t, st, st)
  {
  }

  /** Rows other than `id` stay well-formed across a change that keeps settled videos. */
  lemma OtherRowsSurvive(t: Transcoder, st: Store, st': Store, id: nat)
    requires StoreOk(t, st) && Keeps(t, st, st')
    requires st'.rows.Keys == st.rows.Keys + {id} && st'.origin.Keys == st'.rows.Keys
    requires forall i :: i in st.rows && i != id ==> st'.rows[i] == st.rows[i] && st'.origin[i] == st.origin[i]
    requires id in st'.rows && RowOk(t, st', id)
    ensures StoreOk(t, st')
  {
    forall i | i in st'.rows
      ensures RowOk(t, st', i)
    {
      if i != id {
        RowSurvives(t, st, st', i);
      }
    }
  }

  /** Adding a row for a new video. */
  lemma InsertRowKeeps(t: Transcoder, st: Store, id: nat, req: Request)
    requires StoreOk(t, st) && id !in st.rows && 0 < id
    ensures
      var st' := PutRow(st, FreshRow(id, req)).(origin := st.origin[id := req]);
      Keeps(t, st, st') && StoreOk(t, st')
  {
    var st' := PutRow(st, FreshRow(id, req)).(origin := st.origin[id := req]);
    forall i | Settled(st, i)
      ensures KeepsVideo(t, st, st', i)
    {
      forall name | StoredFile(t, st, i, name)
        ensures StoredFile(t, st', i, name)
      {
      }
    }
    OtherRowsSurvive(t, st, st', id);
  }

  /** Storing the original of a video whose row is not yet complete. */
  lemma StoreOriginalKeeps(t: Transcoder, st: Store, id: nat, req: Request, data: Bytes)
    requires StoreOk(t, st)
    requires id in st.rows && st.rows[id] == FreshRow(id, req) && id in st.origin && st.origin[id] == req
    ensures
      var st' := PutObject(st, OriginalKey(id, req.fileName), data);
      Keeps(t, st, st') && StoreOk(t, st')
  {
    KeysApart();
    var st' := PutObject(st, OriginalKey(id, req.fileName), data);
    forall i | Settled(st, i)
      ensures KeepsVideo(t, st, st', i)
    {
      assert i != id;
      forall name | StoredFile(t, st, i, name)
        ensures StoredFile(t, st', i, name)
      {
      }
    }
    OtherRowsSurvive(t, st, st', id);
  }

  /** Completing the row of a video whose original is stored. */
  lemma SaveRowKeeps(t: Transcoder, st: Store, id: nat, req: Request)
    requires StoreOk(t, st)
    requires id in st.rows && st.rows[id] == FreshRow(id, req) && id in st.origin && st.origin[id] == req
    ensures
      var st' := PutRow(st, SavedRow(id, req));
      Keeps(t, st, st') && StoreOk(t, st')
  {
    KeysApart();
    var st' := PutRow(st, SavedRow(id, req));
    forall i | Settled(st, i)
      ensures KeepsVideo(t, st, st', i)
    {
      assert i != id;
      forall name | StoredFile(t, st, i, name)
        ensures StoredFile(t, st', i, name)
      {
      }
    }
    OtherRowsSurvive(t, st, st', id);
  }

  /** Storing an output file: either not part of the transcoded original, or its right bytes. */
  lemma StoreOutputKeeps(t: Transcoder, st: Store, id: nat, name: string, data: Bytes)
    requires StoreOk(t, st) && Settled(st, id)
    requires name in t(Original(st, id)) ==> data == t(Original(st, id))[name]
    ensures
      var st' := PutObject(st, ProcessedKey(id, name), data);
      Keeps(t, st, st') && StoreOk(t, st') && Settled(st', id) && StoredFile(t, st', id, name)
  {
    KeysApart();
    var st' := PutObject(st, ProcessedKey(id, name), data);
    forall i | Settled(st, i)
      ensures KeepsVideo(t, st, st', i)
    {
      forall n | StoredFile(t, st, i, n)
        ensures StoredFile(t, st', i, n)
      {
        if ProcessedKey(i, n) == ProcessedKey(id, name) {
          assert i == id && n == name;
        }
      }
    }
    assert KeepsVideo(t, st, st', id);
    RowSurvives(t, st, st', id);
    OtherRowsSurvive(t, st, st', id);
  }

  /** Marking a video ready with a full-row save of an earlier reading of its row. */
  lemma SaveReadyKeeps(t: Transcoder, st: Store, id: nat, row: Video)
    requires StoreOk(t, st) && AllStored(t, st, id) && row == st.rows[id].(status := row.status)
    ensures
      var st' := PutRow(st, row.(status := VideoReady));
      Keeps(t, st, st') && StoreOk(t, st') && Done(st', id)
  {
    var st' := PutRow(st, row.(status := VideoReady));
    forall i | Settled(st, i)
      ensures KeepsVideo(t, st, st', i)
    {
      forall name | StoredFile(t, st, i, name)
        ensures StoredFile(t, st', i, name)
      {
      }
    }
    assert KeepsVideo(t, st, st', id);
    assert AllStored(t, st', id) by {
      assert forall name :: StoredFile(t, st, id, name);
    }
    assert RowOk(t, st, id);
    OtherRowsSurvive(t, st, st', id);
  }

  // ----- How the broker may change -----

  ghost predicate BrokerKeeps(b: Broker, b': Broker, except: set<Job>)
  {
    && b.published <= b'.published
    && (forall job :: WithBroker(b, job) && job !in except ==> WithBroker(b', job))
    && (forall a :: AttemptHeld(b, a) ==> AttemptHeld(b', a))
  }

  /** Membership with the broker, from what is queued and what is held. */
  lemma StillWithBroker(b: Broker, b': Broker, except: set<Job>)
    requires forall job :: job in b.queue && job !in except ==> WithBroker(b', job)
    requires forall job, tag: nat :: HeldAt(b, tag, job) && job !in except ==> WithBroker(b', job)
    ensures forall job :: WithBroker(b, job) && job !in except ==> WithBroker(b', job)
  {
  }

  lemma PublishBroker(b: Broker, job: Job)
    requires BrokerOk(b) && job !in b.published
    ensures BrokerOk(Publish(b, job)) && BrokerKeeps(b, Publish(b, job), {}) && WithBroker(Publish(b, job), job)
  {
    var b' := Publish(b, job);
    assert forall tag: nat, j :: HeldAt(b', tag, j) <==> HeldAt(b, tag, j);
    StillWithBroker(b, b', {});
  }

  lemma HandOverBroker(b: Broker, c: nat, job: Job)
    requires BrokerOk(b) && job in b.queue
    ensures BrokerOk(HandOver(b, c, job)) && BrokerKeeps(b, HandOver(b, c, job), {})
  {
    var b' := HandOver(b, c, job);
    assert HeldAt(b', b.nextTag, job);
    assert forall tag: nat, j :: HeldAt(b', tag, j) <==> (tag == b.nextTag && j == job) || HeldAt(b, tag, j);
    StillWithBroker(b, b', {});
  }

  lemma TakeBroker(b: Broker, tag: nat)
    requires BrokerOk(b) && tag in b.unacked
    ensures
      var b' := b.(unacked := b.unacked[tag := b.unacked[tag].(taken := true)]);
      BrokerOk(b') && BrokerKeeps(b, b', {})
  {
    var b' := b.(unacked := b.unacked[tag := b.unacked[tag].(taken := true)]);
    assert forall x: nat, j :: HeldAt(b', x, j) <==> HeldAt(b, x, j);
    StillWithBroker(b, b', {});
  }

  lemma RequeueBroker(b: Broker, tag: nat)
    requires BrokerOk(b) && tag in b.unacked
    ensures BrokerOk(Requeue(b, tag)) && BrokerKeeps(b, Requeue(b, tag), {})
  {
    var b' := Requeue(b, tag);
    assert HeldAt(b, tag, b.unacked[tag].job);
    assert forall x: nat, j :: HeldAt(b', x, j) <==> x != tag && HeldAt(b, x, j);
    StillWithBroker(b, b', {});
  }

  lemma SettleBroker(b: Broker, tag: nat)
    requires BrokerOk(b) && tag in b.unacked
    ensures BrokerOk(Settle(b, tag)) && BrokerKeeps(b, Settle(b, tag), {b.unacked[tag].job})
  {
    var b' := Settle(b, tag);
    assert forall x: nat, j :: HeldAt(b', x, j) <==> x != tag && HeldAt(b, x, j);
    StillWithBroker(b, b', {b.unacked[tag].job});
  }

  // ----- Steps -----

  /** A step that changes only the store, and keeps settled videos, keeps what is known of jobs and attempts. */
  lemma StoreStepKeepsRest(t: Transcoder, s: State, st': Store)
    requires Inv(t, s) && Keeps(t, s.store, st')
    ensures JobsOk(st', s.broker)
    ensures AttemptsOk(t, st', s.broker, s.attempts)
  {
    JobsSurvive(t, s.store, st', s.broker);
    AttemptsSurvive(t, s.store, st', s.broker, s.attempts);
  }

  /** A step that changes only the broker. */
  lemma BrokerStepKeepsRest(t: Transcoder, s: State, b': Broker, settled: set<Job>)
    requires Inv(t, s) && BrokerKeeps(s.broker, b', settled) && b'.published == s.broker.published
    requires forall job :: job in settled ==> Done(s.store, job.videoID)
    ensures JobsOk(s.store, b')
    ensures AttemptsOk(t, s.store, b', s.attempts)
  {
  }

  /** One upload moves on; the others are not affected by what it wrote about its own video. */
  lemma UploadsMoveOn(s: State, st': Store, published': set<Job>, u: nat, phase: UploadPhase)
    requires u in s.uploads && UploadsOk(s.store, s.broker.published, s.uploads)
    requires UploadOk(st', published', s.uploads[u].(phase := phase))
    requires Writing(s.uploads[u].(phase := phase)) ==>
      phase.id !in s.store.rows || (Writing(s.uploads[u]) && s.uploads[u].phase.id == phase.id)
    requires forall v :: v in s.uploads && v != u ==> UploadOk(st', published', s.uploads[v])
    ensures UploadsOk(st', published', Advance(s, u, phase))
  {
    assert forall v :: v in s.uploads && Writing(s.uploads[v]) ==> s.uploads[v].phase.id in s.store.rows by {
      assert forall v :: v in s.uploads ==> UploadOk(s.store, s.broker.published, s.uploads[v]);
    }
  }

  lemma InsertRowStep(t: Transcoder, s: State, step: Step)
    requires Inv(t, s) && Enabled(t, s, step) && step.InsertRow?
    ensures Inv(t, Apply(t, s, step))
    ensures Keeps(t, s.store, Apply(t, s, step).store)
  {
    var u, id := step.u, step.id;
    var req := s.uploads[u].req;
    var st' := PutRow(s.store, FreshRow(id, req)).(origin := s.store.origin[id := req]);
    InsertRowKeeps(t, s.store, id, req);
    StoreStepKeepsRest(t, s, st');
    assert JobFor(id, req) !in s.broker.published by {
      assert !JobOk(s.store, JobFor(id, req));
    }
    forall v | v in s.uploads && v != u
      ensures UploadOk(st', s.broker.published, s.uploads[v])
    {
      assert UploadOk(s.store, s.broker.published, s.uploads[v]);
    }
    UploadsMoveOn(s, st', s.broker.published, u, Inserted(id));
  }

  lemma StoreOriginalStep(t: Transcoder, s: State, step: Step)
    requires Inv(t, s) && Enabled(t, s, step) && step.StoreOriginal?
    ensures Inv(t, Apply(t, s, step))
    ensures Keeps(t, s.store, Apply(t, s, step).store)
  {
    var u := step.u;
    var up := s.uploads[u];
    var st' := PutObject(s.store, OriginalKey(up.phase.id, up.req.fileName), ReadPath(s.disk, up.path));
    assert UploadOk(s.store, s.broker.published, up);
    StoreOriginalKeeps(t, s.store, up.phase.id, up.req, ReadPath(s.disk, up.path));
    StoreStepKeepsRest(t, s, st');
    forall v | v in s.uploads && v != u
      ensures UploadOk(st', s.broker.published, s.uploads[v])
    {
      assert UploadOk(s.store, s.broker.published, s.uploads[v]);
    }
    UploadsMoveOn(s, st', s.broker.published, u, Stored(up.phase.id));
  }

  lemma SaveRowStep(t: Transcoder, s: State, step: Step)
    requires Inv(t, s) && Enabled(t, s, step) && step.SaveRow?
    ensures Inv(t, Apply(t, s, step))
    ensures Keeps(t, s.store, Apply(t, s, step).store)
  {
    var u := step.u;
    var up := s.uploads[u];
    var st' := PutRow(s.store, SavedRow(up.phase.id, up.req));
    assert UploadOk(s.store, s.broker.published, up);
    SaveRowKeeps(t, s.store, up.phase.id, up.req);
    StoreStepKeepsRest(t, s, st');
    forall v | v in s.uploads && v != u
      ensures UploadOk(st', s.broker.published, s.uploads[v])
    {
      assert UploadOk(s.store, s.broker.published, s.uploads[v]);
    }
    UploadsMoveOn(s, st', s.broker.published, u, Saved(up.phase.id));
  }

  /** Publishing the job of an upload that has saved its row. */
  lemma PublishKeeps(s: State, u: nat)
    requires u in s.uploads && s.uploads[u].phase.Saved? && UploadsOk(s.store, s.broker.published, s.uploads)
    requires BrokerOk(s.broker)
    ensures
      var up := s.uploads[u];
      var job := JobFor(up.phase.id, up.req);
      && BrokerOk(Publish(s.broker, job)) && BrokerKeeps(s.broker, Publish(s.broker, job), {})
      && WithBroker(Publish(s.broker, job), job) && JobOk(s.store, job)
      && UploadsOk(s.store, Publish(s.broker, job).published, Advance(s, u, Queued(up.phase.id)))
  {
    var up := s.uploads[u];
    var b' := Publish(s.broker, JobFor(up.phase.id, up.req));
    assert UploadOk(s.store, s.broker.published, up);
    PublishBroker(s.broker, JobFor(up.phase.id, up.req));
    forall v | v in s.uploads && v != u
      ensures UploadOk(s.store, b'.published, s.uploads[v])
    {
      assert UploadOk(s.store, s.broker.published, s.uploads[v]);
    }
    UploadsMoveOn(s, s.store, b'.published, u, Queued(up.phase.id));
  }

  lemma PublishStep(t: Transcoder, s: State, u: nat)
    requires Inv(t, s) && Enabled(t, s, PublishJob(u))
    ensures Inv(t, Apply(t, s, PublishJob(u)))
  {
    PublishKeeps(s, u);
  }

  /** Steps of an upload that touch neither store nor broker. */
  lemma UploadLocalStep(t: Transcoder, s: State, step: Step)
    requires Inv(t, s) && Enabled(t, s, step)
    requires step.CreateTemp? || step.CopyTemp? || step.CopyFails? || step.RemoveTemp? || step.UploadStops?
    ensures Inv(t, Apply(t, s, step))
  {
    var s' := Apply(t, s, step);
    assert s'.store == s.store && s'.broker == s.broker && s'.attempts == s.attempts;
    forall v | v in s'.uploads
      ensures UploadOk(s.store, s.broker.published, s'.uploads[v])
    {
      if v in s.uploads {
        assert UploadOk(s.store, s.broker.published, s.uploads[v]);
      }
    }
  }

  lemma DeliverStep(t: Transcoder, s: State, c: nat, job: Job)
    requires Inv(t, s) && job in s.broker.queue
    ensures Inv(t, s.(broker := HandOver(s.broker, c, job)))
  {
    HandOverBroker(s.broker, c, job);
    BrokerStepKeepsRest(t, s, HandOver(s.broker, c, job), {});
  }

  lemma BeginStep(t: Transcoder, s: State, c: nat, tag: nat)
    requires Inv(t, s) && c !in s.attempts && tag in s.broker.unacked
    ensures
      var d := s.broker.unacked[tag];
      Inv(t, s.(broker := s.broker.(unacked := s.broker.unacked[tag := d.(taken := true)]),
                attempts := s.attempts[c := Attempt(tag, d.job, Taken)]))
  {
    var d := s.broker.unacked[tag];
    var b' := s.broker.(unacked := s.broker.unacked[tag := d.(taken := true)]);
    TakeBroker(s.broker, tag);
    BrokerStepKeepsRest(t, s, b', {});
    assert HeldAt(s.broker, tag, d.job);
    assert JobOk(s.store, d.job);
  }

  lemma RequeueStep(t: Transcoder, s: State, tag: nat)
    requires Inv(t, s) && tag in s.broker.unacked
    ensures Inv(t, s.(broker := Requeue(s.broker, tag)))
  {
    RequeueBroker(s.broker, tag);
    BrokerStepKeepsRest(t, s, Requeue(s.broker, tag), {});
  }

  lemma FewerAttempts(t: Transcoder, s: State, c: nat)
    requires Inv(t, s)
    ensures Inv(t, s.(attempts := s.attempts - {c}))
  {
  }

  lemma AckStep(t: Transcoder, s: State, c: nat)
    requires Inv(t, s) && c in s.attempts && s.attempts[c].phase.Finished? && s.attempts[c].tag in s.broker.unacked
    ensures Inv(t, s.(broker := Settle(s.broker, s.attempts[c].tag), attempts := s.attempts - {c}))
  {
    var a := s.attempts[c];
    assert AttemptHeld(s.broker, a) && AttemptOk(t, s.store, a);
    SettleBroker(s.broker, a.tag);
    BrokerStepKeepsRest(t, s, Settle(s.broker, a.tag), {a.job});
  }

  /** The store, uploads and attempts after an output file was stored. */
  lemma StoreOutputRest(t: Transcoder, s: State, c: nat, st': Store)
    requires Inv(t, s) && c in s.attempts && s.attempts[c].phase.Listed?
    requires s.attempts[c].phase.next < |s.attempts[c].phase.names|
    requires
      var a := s.attempts[c];
      var name := a.phase.names[a.phase.next];
      && name in a.phase.files
      && st' == PutObject(s.store, ProcessedKey(a.job.videoID, name), a.phase.files[name])
    ensures Keeps(t, s.store, st') && StoreOk(t, st')
    ensures Settled(st', s.attempts[c].job.videoID)
    ensures StoredFile(t, st', s.attempts[c].job.videoID, s.attempts[c].phase.names[s.attempts[c].phase.next])
  {
    var a := s.attempts[c];
    var name := a.phase.names[a.phase.next];
    assert AttemptOk(t, s.store, a);
    StoreOutputKeeps(t, s.store, a.job.videoID, name, a.phase.files[name]);
  }

  lemma AttemptStoredOutput(t: Transcoder, s: State, c: nat, st': Store)
    requires c in s.attempts && AttemptOk(t, st', s.attempts[c])
    requires s.attempts[c].phase.Listed? && s.attempts[c].phase.next < |s.attempts[c].phase.names|
    requires StoredFile(t, st', s.attempts[c].job.videoID, s.attempts[c].phase.names[s.attempts[c].phase.next])
    requires AttemptsOk(t, st', s.broker, s.attempts)
    ensures
      var phase := s.attempts[c].phase;
      AttemptsOk(t, st', s.broker, Proceed(s, c, phase.(next := phase.next + 1)))
  {
    var a := s.attempts[c];
    NextOutput(t, st', a);
    AttemptMovesOn(t, s, st', c, a.phase.(next := a.phase.next + 1));
  }

  lemma StoreOutputInv(t: Transcoder, s: State, c: nat, st': Store)
    requires Inv(t, s) && c in s.attempts && s.attempts[c].phase.Listed?
    requires s.attempts[c].phase.next < |s.attempts[c].phase.names|
    requires
      var a := s.attempts[c];
      var name := a.phase.names[a.phase.next];
      && name in a.phase.files
      && st' == PutObject(s.store, ProcessedKey(a.job.videoID, name), a.phase.files[name])
    ensures Keeps(t, s.store, st')
    ensures
      var phase := s.attempts[c].phase;
      Inv(t, s.(store := st', attempts := Proceed(s, c, phase.(next := phase.next + 1))))
  {
    StoreOutputRest(t, s, c, st');
    StoreStepKeepsRest(t, s, st');
    UploadsIgnore(s, st');
    AttemptStoredOutput(t, s, c, st');
  }

  lemma StoreOutputStep(t: Transcoder, s: State, step: Step)
    requires Inv(t, s) && Enabled(t, s, step) && step.StoreOutput?
    ensures Inv(t, Apply(t, s, step))
    ensures Keeps(t, s.store, Apply(t, s, step).store)
  {
    var c := step.c;
    StoreOutputResult(t, s, c);
    StoreOutputInv(t, s, c, Apply(t, s, step).store);
  }

  lemma StoreOutputResult(t: Transcoder, s: State, c: nat)
    requires Enabled(t, s, StoreOutput(c))
    ensures
      var s', a := Apply(t, s, StoreOutput(c)), s.attempts[c];
      var name := a.phase.names[a.phase.next];
      && s'.store == PutObject(s.store, ProcessedKey(a.job.videoID, name), a.phase.files[name])
      && s' == s.(store := s'.store, attempts := Proceed(s, c, a.phase.(next := a.phase.next + 1)))
  {
  }

  lemma NextOutput(t: Transcoder, st: Store, a: Attempt)
    requires AttemptOk(t, st, a) && a.phase.Listed? && a.phase.next < |a.phase.names|
    requires StoredFile(t, st, a.job.videoID, a.phase.names[a.phase.next])
    ensures AttemptOk(t, st, a.(phase := a.phase.(next := a.phase.next + 1)))
  {
  }

  /** Store changes that leave unfinished rows alone do not concern uploads. */
  lemma UploadsIgnore(s: State, st': Store)
    requires UploadsOk(s.store, s.broker.published, s.uploads)
    requires st'.origin == s.store.origin && s.store.objects.Keys <= st'.objects.Keys
    requires s.store.rows.Keys <= st'.rows.Keys
    requires forall v :: v in s.uploads && Writing(s.uploads[v]) ==>
      st'.rows[s.uploads[v].phase.id] == s.store.rows[s.uploads[v].phase.id]
    ensures UploadsOk(st', s.broker.published, s.uploads)
  {
    forall v | v in s.uploads
      ensures UploadOk(st', s.broker.published, s.uploads[v])
    {
      assert UploadOk(s.store, s.broker.published, s.uploads[v]);
    }
  }

  lemma AttemptMovesOn(t: Transcoder, s: State, st': Store, c: nat, phase: AttemptPhase)
    requires c in s.attempts && AttemptsOk(t, st', s.broker, s.attempts)
    requires AttemptOk(t, st', s.attempts[c].(phase := phase))
    ensures AttemptsOk(t, st', s.broker, Proceed(s, c, phase))
  {
    assert AttemptHeld(s.broker, s.attempts[c]);
  }

  /** The row saved ready is not one an upload is still writing. */
  lemma SaveReadyRest(t: Transcoder, s: State, c: nat)
    requires Inv(t, s) && c in s.attempts && s.attempts[c].phase.Loaded?
    ensures
      var st' := PutRow(s.store, s.attempts[c].phase.row.(status := VideoReady));
      && Keeps(t, s.store, st') && StoreOk(t, st') && Done(st', s.attempts[c].job.videoID)
      && UploadsOk(st', s.broker.published, s.uploads)
  {
    var a := s.attempts[c];
    var st' := PutRow(s.store, a.phase.row.(status := VideoReady));
    assert AttemptHeld(s.broker, a) && AttemptOk(t, s.store, a);
    SaveReadyKeeps(t, s.store, a.job.videoID, a.phase.row);
    forall v | v in s.uploads && Writing(s.uploads[v])
      ensures s.uploads[v].phase.id in s.store.rows && s.uploads[v].phase.id != a.job.videoID
    {
      assert UploadOk(s.store, s.broker.published, s.uploads[v]);
    }
    UploadsIgnore(s, st');
  }

  lemma SaveReadyStep(t: Transcoder, s: State, step: Step)
    requires Inv(t, s) && Enabled(t, s, step) && step.SaveReady?
    ensures Inv(t, Apply(t, s, step))
    ensures Keeps(t, s.store, Apply(t, s, step).store)
  {
    var c := step.c;
    var st' := PutRow(s.store, s.attempts[c].phase.row.(status := VideoReady));
    SaveReadyRest(t, s, c);
    StoreStepKeepsRest(t, s, st');
    assert AttemptOk(t, st', s.attempts[c]);
    AttemptMovesOn(t, s, st', c, Finished);
  }

  lemma AllListedStored(t: Transcoder, st: Store, a: Attempt)
    requires AttemptOk(t, st, a) && a.phase.Listed? && a.phase.next == |a.phase.names|
    ensures AllStored(t, st, a.job.videoID)
  {
    forall name
      ensures StoredFile(t, st, a.job.videoID, name)
    {
      if name in a.phase.names {
        var i :| 0 <= i < |a.phase.names| && a.phase.names[i] == name;
        assert StoredFile(t, st, a.job.videoID, a.phase.names[i]);
      }
    }
  }

  /** An attempt moves on without writing anything. */
  lemma AttemptStepInv(t: Transcoder, s: State, c: nat, phase: AttemptPhase)
    requires Inv(t, s) && c in s.attempts
    requires AttemptOk(t, s.store, s.attempts[c]) ==> AttemptOk(t, s.store, s.attempts[c].(phase := phase))
    ensures Inv(t, s.(attempts := Proceed(s, c, phase)))
  {
    assert AttemptOk(t, s.store, s.attempts[c]);
    AttemptMovesOn(t, s, s.store, c, phase);
  }

  lemma TranscodedPhase(t: Transcoder, st: Store, a: Attempt, leftover: Dir, names: seq<string>)
    requires AttemptOk(t, st, a) && a.phase.Fetched? && IsListing(names, leftover + t(a.phase.input))
    ensures AttemptOk(t, st, a.(phase := Listed(leftover + t(a.phase.input), names, 0)))
  {
  }

  lemma LoadedPhase(t: Transcoder, st: Store, a: Attempt)
    requires AttemptOk(t, st, a) && a.phase.Listed? && a.phase.next == |a.phase.names| && a.job.videoID in st.rows
    ensures AttemptOk(t, st, a.(phase := Loaded(st.rows[a.job.videoID])))
  {
    AllListedStored(t, st, a);
  }

  /** How an attempt's steps that write nothing move it on. */
  ghost function NextPhase(t: Transcoder, s: State, step: Step): AttemptPhase
    requires Enabled(t, s, step) && (step.Download? || step.TranscodeInput? || step.LoadRow? || step.AttemptFails?)
  {
    match step
    case Download(c) => Fetched(s.store.objects[s.attempts[c].job.fileName])
    case TranscodeInput(c, leftover, names) => Listed(leftover + t(s.attempts[c].phase.input), names, 0)
    case LoadRow(c) => Loaded(s.store.rows[s.attempts[c].job.videoID])
    case AttemptFails(_) => Failed
  }

  lemma NextPhaseOk(t: Transcoder, s: State, step: Step)
    requires Enabled(t, s, step) && (step.Download? || step.TranscodeInput? || step.LoadRow? || step.AttemptFails?)
    ensures AttemptOk(t, s.store, s.attempts[step.c]) ==>
              AttemptOk(t, s.store, s.attempts[step.c].(phase := NextPhase(t, s, step)))
  {
    if AttemptOk(t, s.store, s.attempts[step.c]) {
      if step.TranscodeInput? {
        TranscodedPhase(t, s.store, s.attempts[step.c], step.leftover, step.names);
      } else if step.LoadRow? {
        LoadedPhase(t, s.store, s.attempts[step.c]);
      }
    }
  }

  /** Steps that write the store. */
  predicate WritesStore(step: Step)
  {
    step.InsertRow? || step.StoreOriginal? || step.SaveRow? || step.StoreOutput? || step.SaveReady?
  }

  lemma StoreStep(t: Transcoder, s: State, step: Step)
    requires Inv(t, s) && Enabled(t, s, step) && WritesStore(step)
    ensures Inv(t, Apply(t, s, step))
    ensures Keeps(t, s.store, Apply(t, s, step).store)
  {
    if step.InsertRow? {
      InsertRowStep(t, s, step);
    } else if step.StoreOriginal? {
      StoreOriginalStep(t, s, step);
    } else if step.SaveRow? {
      SaveRowStep(t, s, step);
    } else if step.StoreOutput? {
      StoreOutputStep(t, s, step);
    } else {
      SaveReadyStep(t, s, step);
    }
  }

  lemma DeliverApplied(t: Transcoder, s: State, step: Step)
    requires Inv(t, s) && Enabled(t, s, step) && step.Deliver?
    ensures Inv(t, Apply(t, s, step))
  {
    DeliverStep(t, s, step.c, step.job);
  }

  lemma BeginApplied(t: Transcoder, s: State, step: Step)
    requires Inv(t, s) && Enabled(t, s, step) && step.Begin?
    ensures Inv(t, Apply(t, s, step))
  {
    BeginStep(t, s, step.c, step.tag);
  }

  lemma AckApplied(t: Transcoder, s: State, step: Step)
    requires Inv(t, s) && Enabled(t, s, step) && step.Ack?
    ensures Inv(t, Apply(t, s, step))
  {
    AckStep(t, s, step.c);
  }

  lemma NackApplied(t: Transcoder, s: State, step: Step)
    requires Inv(t, s) && Enabled(t, s, step) && step.Nack?
    ensures Inv(t, Apply(t, s, step))
  {
    var tag := s.attempts[step.c].tag;
    RequeueStep(t, s, tag);
    FewerAttempts(t, s.(broker := Requeue(s.broker, tag)), step.c);
  }

  lemma ReturnApplied(t: Transcoder, s: State, step: Step)
    requires Inv(t, s) && Enabled(t, s, step) && step.Return?
    ensures Inv(t, Apply(t, s, step))
  {
    RequeueStep(t, s, step.tag);
  }

  lemma BrokerStep(t: Transcoder, s: State, step: Step)
    requires Inv(t, s) && Enabled(t, s, step)
    requires step.Deliver? || step.Begin? || step.Ack? || step.Nack? || step.Return?
    ensures Inv(t, Apply(t, s, step))
  {
    if step.Deliver? {
      DeliverApplied(t, s, step);
    } else if step.Begin? {
      BeginApplied(t, s, step);
    } else if step.Ack? {
      AckApplied(t, s, step);
    } else if step.Nack? {
      NackApplied(t, s, step);
    } else {
      ReturnApplied(t, s, step);
    }
  }

  lemma SettleFailsApplied(t: Transcoder, s: State, step: Step)
    requires Inv(t, s) && Enabled(t, s, step) && step.SettleFails?
    ensures Inv(t, Apply(t, s, step))
  {
    FewerAttempts(t, s, step.c);
  }

  lemma CrashApplied(t: Transcoder, s: State, step: Step)
    requires Inv(t, s) && Enabled(t, s, step) && step.Crash?
    ensures Inv(t, Apply(t, s, step))
  {
    FewerAttempts(t, s, step.c);
  }

  lemma AttemptResult(t: Transcoder, s: State, step: Step)
    requires Enabled(t, s, step) && (step.Download? || step.TranscodeInput? || step.LoadRow? || step.AttemptFails?)
    ensures Apply(t, s, step) == s.(attempts := Proceed(s, step.c, NextPhase(t, s, step)))
  {
  }

  lemma DownloadApplied(t: Transcoder, s: State, step: Step)
    requires Inv(t, s) && Enabled(t, s, step) && step.Download?
    ensures Inv(t, Apply(t, s, step))
  {
    AttemptResult(t, s, step);
    NextPhaseOk(t, s, step);
    AttemptStepInv(t, s, step.c, NextPhase(t, s, step));
  }

  lemma TranscodeApplied(t: Transcoder, s: State, step: Step)
    requires Inv(t, s) && Enabled(t, s, step) && step.TranscodeInput?
    ensures Inv(t, Apply(t, s, step))
  {
    AttemptResult(t, s, step);
    NextPhaseOk(t, s, step);
    AttemptStepInv(t, s, step.c, NextPhase(t, s, step));
  }

  lemma LoadRowApplied(t: Transcoder, s: State, step: Step)
    requires Inv(t, s) && Enabled(t, s, step) && step.LoadRow?
    ensures Inv(t, Apply(t, s, step))
  {
    AttemptResult(t, s, step);
    NextPhaseOk(t, s, step);
    AttemptStepInv(t, s, step.c, NextPhase(t, s, step));
  }

  lemma AttemptFailsApplied(t: Transcoder, s: State, step: Step)
    requires Inv(t, s) && Enabled(t, s, step) && step.AttemptFails?
    ensures Inv(t, Apply(t, s, step))
  {
    AttemptResult(t, s, step);
    NextPhaseOk(t, s, step);
    AttemptStepInv(t, s, step.c, NextPhase(t, s, step));
  }

  lemma AttemptStep(t: Transcoder, s: State, step: Step)
    requires Inv(t, s) && Enabled(t, s, step)
    requires step.Download? || step.TranscodeInput? || step.LoadRow? || step.AttemptFails?
    ensures Inv(t, Apply(t, s, step))
  {
    if step.Download? {
      DownloadApplied(t, s, step);
    } else if step.TranscodeInput? {
      TranscodeApplied(t, s, step);
    } else if step.LoadRow? {
      LoadRowApplied(t, s, step);
    } else {
      AttemptFailsApplied(t, s, step);
    }
  }

  lemma OtherStep(t: Transcoder, s: State, step: Step)
    requires Inv(t, s) && Enabled(t, s, step) && !WritesStore(step)
    ensures Inv(t, Apply(t, s, step))
  {
    if step.PublishJob? {
      PublishStep(t, s, step.u);
    } else if step.Deliver? || step.Begin? || step.Ack? || step.Nack? || step.Return? {
      BrokerStep(t, s, step);
    } else if step.CreateTemp? || step.CopyTemp? || step.CopyFails? || step.RemoveTemp? || step.UploadStops? {
      UploadLocalStep(t, s, step);
    } else if step.Download? || step.TranscodeInput? || step.LoadRow? || step.AttemptFails? {
      AttemptStep(t, s, step);
    } else if step.SettleFails? {
      SettleFailsApplied(t, s, step);
    } else {
      CrashApplied(t, s, step);
    }
  }

  lemma OtherStepsLeaveStore(t: Transcoder, s: State, step: Step)
    requires Enabled(t, s, step) && !WritesStore(step)
    ensures Apply(t, s, step).store == s.store
  {
  }

  /** Every step keeps the invariant, and keeps everything settled about every video. */
  lemma StepKeepsInv(t: Transcoder, s: State, step: Step)
    requires Inv(t, s) && Enabled(t, s, step)
    ensures Inv(t, Apply(t, s, step))
    ensures Keeps(t, s.store, Apply(t, s, step).store)
  {
    if WritesStore(step) {
      StoreStep(t, s, step);
    } else {
      OtherStep(t, s, step);
      OtherStepsLeaveStore(t, s, step);
      KeepsRefl(t, s.store);
    }
  }
}

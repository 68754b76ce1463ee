/** Nothing is ever stuck: from every reachable state some continuation makes every published job's video ready. */
module Recovery {
  import opened Wrappers
  import opened Lex
  import opened Pipeline
  import opened PipelineInvariant
  import opened PipelineTheorems

  // ----- Attempts and deliveries given up -----

  /** Every consumer crashes. */
  lemma {:induction false} CrashAll(t: Transcoder, s: State) returns (steps: seq<Step>)
    ensures Runs(t, s, steps, s.(attempts := map[]))
    decreases |s.attempts|
  {
    if s.attempts == map[] {
      steps := [];
    } else {
      var c :| c in s.attempts;
      var m := s.(attempts := s.attempts - {c});
      assert m.attempts.Keys == s.attempts.Keys - {c};
      assert |m.attempts| < |s.attempts| by {
        assert |m.attempts.Keys| < |s.attempts.Keys|;
      }
      assert Apply(t, s, Crash(c)) == m;
      var rest := CrashAll(t, m);
      RunsOne(t, s, Crash(c));
      RunsConcat(t, s, [Crash(c)], m, rest, s.(attempts := map[]));
      steps := [Crash(c)] + rest;
    }
  }

  /** Every delivery goes back to the queue. */
  lemma {:induction false} ReturnAll(t: Transcoder, s: State) returns (steps: seq<Step>, s': State)
    ensures Runs(t, s, steps, s')
    ensures s'.broker.unacked == map[] && s'.attempts == s.attempts && s'.broker.published == s.broker.published
    decreases |s.broker.unacked|
  {
    if s.broker.unacked == map[] {
      steps, s' := [], s;
    } else {
      var tag :| tag in s.broker.unacked;
      var m := Apply(t, s, Return(tag));
      assert m.broker.unacked == s.broker.unacked - {tag} && m.broker.published == s.broker.published;
      assert m.broker.unacked.Keys == s.broker.unacked.Keys - {tag};
      assert |m.broker.unacked| < |s.broker.unacked| by {
        assert |m.broker.unacked.Keys| < |s.broker.unacked.Keys|;
      }
      var rest;
      rest, s' := ReturnAll(t, m);
      RunsOne(t, s, Return(tag));
      RunsConcat(t, s, [Return(tag)], m, rest, s');
      steps := [Return(tag)] + rest;
    }
  }

  // ----- One job, start to end -----

  lemma {:induction false} ListingExists(files: set<string>) returns (names: seq<string>)
    ensures StrictlySorted(names) && forall n :: n in files <==> n in names
    decreases files
  {
    names := [];
    if files != {} {
      LeastExists(files);
      var m :| m in files && forall x :: x in files ==> AtMost(m, x);
      var rest := ListingExists(files - {m});
      forall i | 0 <= i < |rest|
        ensures Less(m, rest[i])
      {
        assert rest[i] in rest;
      }
      names := [m] + rest;
    }
  }

  /** Consumer 0 alone works on the job, at this phase. */
  predicate Working(s: State, b: Broker, tag: nat, job: Job, phase: AttemptPhase)
  {
    s.broker == b && s.attempts == map[0 := Attempt(tag, job, phase)]
  }

  lemma Take(t: Transcoder, s: State, job: Job) returns (steps: seq<Step>, s': State)
    requires job in s.broker.queue && s.attempts == map[] && s.broker.unacked == map[]
    ensures Runs(t, s, steps, s') && s'.store == s.store
    ensures
      var tag := s.broker.nextTag;
      Working(s', Broker(s.broker.queue - multiset{job}, map[tag := Delivery(0, job, true)], tag + 1, s.broker.published),
              tag, job, Taken)
  {
    var tag := s.broker.nextTag;
    var m := Apply(t, s, Deliver(0, job));
    RunsOne(t, s, Deliver(0, job));
    s' := Apply(t, m, Begin(0, tag));
    RunsSnoc(t, s, [Deliver(0, job)], m, Begin(0, tag));
    steps := [Deliver(0, job)] + [Begin(0, tag)];
    assert s'.broker.unacked == map[tag := Delivery(0, job, true)];
  }

  lemma Fetch(t: Transcoder, s: State, b: Broker, tag: nat, job: Job) returns (step: Step, s': State)
    requires Working(s, b, tag, job, Taken) && job.fileName in s.store.objects
    ensures Enabled(t, s, step) && s' == Apply(t, s, step)
    ensures Working(s', b, tag, job, Fetched(s.store.objects[job.fileName]))
  {
    step := Download(0);
    s' := Apply(t, s, step);
  }

  lemma Transcode(t: Transcoder, s: State, b: Broker, tag: nat, job: Job, input: Bytes, names: seq<string>)
    returns (step: Step, s': State)
    requires Working(s, b, tag, job, Fetched(input)) && IsListing(names, t(input))
    ensures Enabled(t, s, step) && s' == Apply(t, s, step)
    ensures Working(s', b, tag, job, Listed(t(input), names, 0))
  {
    assert map[] + t(input) == t(input);
    step := TranscodeInput(0, map[], names);
    s' := Apply(t, s, step);
  }

  lemma StoreNext(t: Transcoder, s: State, b: Broker, tag: nat, job: Job, files: Dir, names: seq<string>, k: nat)
    returns (s': State)
    requires Working(s, b, tag, job, Listed(files, names, k)) && IsListing(names, files) && k < |names|
    ensures Enabled(t, s, StoreOutput(0)) && s' == Apply(t, s, StoreOutput(0))
    ensures Working(s', b, tag, job, Listed(files, names, k + 1))
  {
    s' := Apply(t, s, StoreOutput(0));
  }

  lemma {:induction false} StoreAll(t: Transcoder, s: State, b: Broker, tag: nat, job: Job, files: Dir,
                                    names: seq<string>, k: nat)
    returns (steps: seq<Step>, s': State)
    requires Working(s, b, tag, job, Listed(files, names, k)) && IsListing(names, files) && k <= |names|
    ensures Runs(t, s, steps, s') && Working(s', b, tag, job, Listed(files, names, |names|))
    decreases |names| - k
  {
    if k == |names| {
      steps, s' := [], s;
    } else {
      var m := StoreNext(t, s, b, tag, job, files, names, k);
      var rest;
      rest, s' := StoreAll(t, m, b, tag, job, files, names, k + 1);
      RunsOne(t, s, StoreOutput(0));
      RunsConcat(t, s, [StoreOutput(0)], m, rest, s');
      steps := [StoreOutput(0)] + rest;
    }
  }

  lemma Load(t: Transcoder, s: State, b: Broker, tag: nat, job: Job, files: Dir, names: seq<string>)
    returns (step: Step, s': State)
    requires Working(s, b, tag, job, Listed(files, names, |names|)) && job.videoID in s.store.rows
    ensures Enabled(t, s, step) && s' == Apply(t, s, step)
    ensures Working(s', b, tag, job, Loaded(s.store.rows[job.videoID]))
  {
    step := LoadRow(0);
    s' := Apply(t, s, step);
  }

  lemma Save(t: Transcoder, s: State, b: Broker, tag: nat, job: Job, row: Video) returns (step: Step, s': State)
    requires Working(s, b, tag, job, Loaded(row))
    ensures Enabled(t, s, step) && s' == Apply(t, s, step)
    ensures Working(s', b, tag, job, Finished)
  {
    step := SaveReady(0);
    s' := Apply(t, s, step);
  }

  lemma Settling(t: Transcoder, s: State, b: Broker, tag: nat, job: Job) returns (step: Step, s': State)
    requires Working(s, b, tag, job, Finished) && tag in b.unacked
    ensures Enabled(t, s, step) && s' == Apply(t, s, step)
    ensures s'.attempts == map[] && s'.broker == Settle(b, tag)
  {
    step := Ack(0);
    s' := Apply(t, s, step);
  }

  /** What the invariant gives an attempt on a published job. */
  lemma JobIsServed(t: Transcoder, s: State, job: Job)
    requires Inv(t, s) && job in s.broker.published
    ensures job.fileName in s.store.objects && job.videoID in s.store.rows
  {
    assert JobOk(s.store, job);
  }

  /** From a delivered job to its stored output. */
  lemma FinishToListed(t: Transcoder, s: State, b: Broker, tag: nat, job: Job)
    returns (steps: seq<Step>, s': State, files: Dir, names: seq<string>)
    requires Working(s, b, tag, job, Taken) && job.fileName in s.store.objects
    ensures Runs(t, s, steps, s') && Working(s', b, tag, job, Listed(files, names, |names|))
  {
    var fetch, fetched := Fetch(t, s, b, tag, job);
    var input := s.store.objects[job.fileName];
    files := t(input);
    names := ListingExists(files.Keys);
    assert IsListing(names, files) by {
      assert forall i :: 0 <= i < |names| ==> names[i] in names;
    }
    var transcode, listed := Transcode(t, fetched, b, tag, job, input, names);
    RunsOne(t, s, fetch);
    RunsSnoc(t, s, [fetch], fetched, transcode);
    var more;
    more, s' := StoreAll(t, listed, b, tag, job, files, names, 0);
    RunsConcat(t, s, [fetch] + [transcode], listed, more, s');
    steps := [fetch] + [transcode] + more;
  }

  lemma FinishFromListed(t: Transcoder, s: State, b: Broker, tag: nat, job: Job, files: Dir, names: seq<string>)
    returns (steps: seq<Step>, s': State)
    requires Working(s, b, tag, job, Listed(files, names, |names|)) && job.videoID in s.store.rows && tag in b.unacked
    ensures Runs(t, s, steps, s') && s'.attempts == map[] && s'.broker == Settle(b, tag)
  {
    var load, loaded := Load(t, s, b, tag, job, files, names);
    var save, saved := Save(t, loaded, b, tag, job, s.store.rows[job.videoID]);
    var ack;
    ack, s' := Settling(t, saved, b, tag, job);
    RunsOne(t, s, load);
    RunsSnoc(t, s, [load], loaded, save);
    RunsSnoc(t, s, [load] + [save], saved, ack);
    steps := [load] + [save] + [ack];
  }

  lemma TakeToListed(t: Transcoder, s: State, job: Job)
    returns (steps: seq<Step>, s': State, b: Broker, files: Dir, names: seq<string>)
    requires job in s.broker.queue && s.attempts == map[] && s.broker.unacked == map[]
    requires job.fileName in s.store.objects
    ensures Runs(t, s, steps, s') && Working(s', b, s.broker.nextTag, job, Listed(files, names, |names|))
    ensures b.unacked == map[s.broker.nextTag := Delivery(0, job, true)]
    ensures b.queue == s.broker.queue - multiset{job} && b.published == s.broker.published
  {
    var first, taken := Take(t, s, job);
    b := taken.broker;
    var second;
    second, s', files, names := FinishToListed(t, taken, b, s.broker.nextTag, job);
    RunsConcat(t, s, first, taken, second, s');
    steps := first + second;
  }

  /** One queued job taken, finished and acknowledged. */
  lemma FinishOne(t: Transcoder, s: State, job: Job) returns (steps: seq<Step>, s': State)
    requires Inv(t, s) && job in s.broker.queue && s.attempts == map[] && s.broker.unacked == map[]
    ensures Runs(t, s, steps, s') && s'.attempts == map[] && s'.broker.unacked == map[]
    ensures s'.broker.queue == s.broker.queue - multiset{job} && s'.broker.published == s.broker.published
  {
    JobIsServed(t, s, job);
    var first, listed, b, files, names := TakeToListed(t, s, job);
    RunKeepsInv(t, s, first, listed);
    JobIsServed(t, listed, job);
    var second;
    second, s' := FinishFromListed(t, listed, b, s.broker.nextTag, job, files, names);
    RunsConcat(t, s, first, listed, second, s');
    steps := first + second;
    assert s'.broker.unacked == map[];
  }

  lemma {:induction false} Drain(t: Transcoder, s: State) returns (steps: seq<Step>, s': State)
    requires Inv(t, s) && s.attempts == map[] && s.broker.unacked == map[]
    ensures Runs(t, s, steps, s') && s'.broker.queue == multiset{} && s'.broker.unacked == map[]
    ensures s'.broker.published == s.broker.published
    decreases |s.broker.queue|
  {
    if s.broker.queue == multiset{} {
      steps, s' := [], s;
    } else {
      var job :| job in s.broker.queue;
      var first, m := FinishOne(t, s, job);
      RunKeepsInv(t, s, first, m);
      var rest;
      rest, s' := Drain(t, m);
      RunsConcat(t, s, first, m, rest, s');
      steps := first + rest;
    }
  }

  lemma NothingHeldIsDone(t: Transcoder, s: State)
    requires Inv(t, s) && s.broker.queue == multiset{} && s.broker.unacked == map[]
    ensures forall job :: job in s.broker.published ==> Done(s.store, job.videoID)
  {
    forall job | job in s.broker.published
      ensures Done(s.store, job.videoID)
    {
      assert WithBroker(s.broker, job) || Done(s.store, job.videoID);
    }
  }

  /**
   * However many consumers have crashed, failed or are at work, and whatever acknowledgements were lost, the system can go
   * on so that every job published so far has its video ready.
   */
  lemma AlwaysRecoverable(t: Transcoder, before: seq<Step>, s: State) returns (steps: seq<Step>, s': State)
    requires Runs(t, Init, before, s)
    ensures Runs(t, s, steps, s') && s'.broker.published == s.broker.published
    ensures forall job :: job in s.broker.published ==> Done(s'.store, job.videoID)
  {
    Reachable(t, before, s);
    var crash := CrashAll(t, s);
    var idle := s.(attempts := map[]);
    var back, ready := ReturnAll(t, idle);
    RunsConcat(t, s, crash, idle, back, ready);
    RunKeepsInv(t, s, crash + back, ready);
    var drain;
    drain, s' := Drain(t, ready);
    RunKeepsInv(t, ready, drain, s');
    RunsConcat(t, s, crash + back, ready, drain, s');
    steps := crash + back + drain;
    NothingHeldIsDone(t, s');
  }
}

/** Member sessions: one key per member in a store whose keys expire, on a clock of whole seconds. */
module Sessions {
  import opened Wrappers

  datatype Session = Session(token: string, memberID: string, createdAt: nat, lastActivity: nat, expiredAt: nat)

  /** A stored session and when it expires, if it does. */
  datatype Entry = Entry(session: Session, deadline: Option<nat>)

  type Store = map<string, Entry>

  datatype MemberStatus = OffLine | OnLine | Ban | Delete

  datatype State = State(store: Store, status: map<string, MemberStatus>)

  const Init := State(map[], map[])

  // ----- The key store -----

  predicate Present(store: Store, key: string, now: nat)
  {
    key in store && (store[key].deadline.Some? ==> now < store[key].deadline.value)
  }

  /** A zero lifetime means a key without expiry. */
  function Set(store: Store, key: string, session: Session, ttl: nat, now: nat): Store
  {
    store[key := Entry(session, if ttl == 0 then None else Some(now + ttl))]
  }

  /** Absent and expired keys are left alone; a zero lifetime removes the key. */
  function ExtendTTL(store: Store, key: string, ttl: nat, now: nat): Store
  {
    if !Present(store, key, now) then store
    else if ttl == 0 then store - {key}
    else store[key := store[key].(deadline := Some(now + ttl))]
  }

  /** Remaining seconds; 0 for an absent key and for one without expiry. */
  function GetTTL(store: Store, key: string, now: nat): nat
  {
    if Present(store, key, now) && store[key].deadline.Some? then store[key].deadline.value - now else 0
  }

  // ----- Use cases -----

  /**
   * `account` is the member found for the email, `token` the token generated or, for the other calls,
   * `member` is whom the presented token names, if it parses.
   */
  datatype Event =
    | Login(account: Option<string>, passwordMatches: bool, token: Option<string>, now: nat, save: Write, update: Write)
    | Logout(member: Option<string>, now: nat, del: Write, update: Write)
    | ForceLogout(memberID: string, now: nat, del: Write, update: Write)
    | Reconnect(member: Option<string>, now: nat, extend: Write)

  function SetStatus(status: map<string, MemberStatus>, m: string, to: MemberStatus, w: Write): map<string,
                     MemberStatus>
  {
    if Effective(w) then status[m := to] else status
  }

  function ExecuteLogin(s: State, ttl: nat, e: Event): (State, Result<string>)
    requires e.Login?
  {
    if e.account.None? then (s, Failure("can't find"))
    else if !e.passwordMatches then (s, Failure("password can't match"))
    else if e.token.None? then (s, Failure("can't generate token"))
    else
      var m := e.account.value;
      var session := Session(e.token.value, m, e.now, e.now, e.now + ttl);
      var s1 := if Effective(e.save) then s.(store := Set(s.store, m, session, ttl, e.now)) else s;
      if e.save.Fails? then (s1, Failure("can't save session"))
      else
        var s2 := s1.(status := SetStatus(s1.status, m, OnLine, e.update));
        (s2, if e.update.Succeeds? then Success(e.token.value) else Failure("can't update status"))
  }

  function Remove(s: State, m: string, del: Write, update: Write): (State, Result<string>)
  {
    var s1 := if Effective(del) then s.(store := s.store - {m}) else s;
    if del.Fails? then (s1, Failure("can't delete session"))
    else
      (s1.(status := SetStatus(s1.status, m, OffLine, update)),
       if update.Succeeds? then Success("") else Failure("can't update status"))
  }

  function Step(s: State, ttl: nat, e: Event): (State, Result<string>)
  {
    match e
    case Login(_, _, _, _, _, _) => ExecuteLogin(s, ttl, e)
    case Logout(member, _, del, update) =>
      if member.None? then (s, Failure("invalid token")) else Remove(s, member.value, del, update)
    case ForceLogout(m, _, del, update) => Remove(s, m, del, update)
    case Reconnect(member, now, extend) =>
      if member.None? then (s, Failure("invalid token"))
      else
        (if Effective(extend) then s.(store := ExtendTTL(s.store, member.value, ttl, now)) else s,
         if extend.Succeeds? then Success("") else Failure("can't extend session"))
  }

  /** Whether a session counts as timed out: no token, no key, or no time left. */
  function CheckSessionTimeout(s: State, member: Option<string>, now: nat): bool
  {
    member.None? || GetTTL(s.store, member.value, now) == 0
  }

  // ----- What a caller observes -----

  /** The key is there exactly before the given time, or for ever. */
  ghost predicate PresentUntil(store: Store, key: string, until: Option<nat>)
  {
    forall t: nat :: Present(store, key, t) <==> until.None? || t < until.value
  }

  ghost predicate OtherKeysKept(before: Store, after: Store, key: string)
  {
    forall k :: k != key ==> (k in after <==> k in before) && (k in after ==> after[k] == before[k])
  }

  /** From a time on, the timeout check says live exactly before another. */
  ghost predicate LiveUntil(s: State, m: string, from: nat, until: nat)
  {
    forall t: nat :: from <= t ==> (CheckSessionTimeout(s, Some(m), t) <==> until <= t)
  }

  ghost predicate OthersKept(before: State, after: State, m: string)
  {
    forall k: string, t: nat :: k != m ==>
      CheckSessionTimeout(after, Some(k), t) == CheckSessionTimeout(before, Some(k), t)
  }

  function Run(ttl: nat, events: seq<Event>): State
  {
    if events == [] then Init else Step(Run(ttl, events[..|events| - 1]), ttl, events[|events| - 1]).0
  }

  ghost predicate Chronological(events: seq<Event>, now: nat)
  {
    && (forall i, j :: 0 <= i < j < |events| ==> events[i].now <= events[j].now)
    && (forall i :: 0 <= i < |events| ==> events[i].now <= now)
  }

  // ----- Liveness, from the history alone -----

  /** The login reached the session store, whatever it replied afterwards. */
  predicate LogsIn(e: Event, m: string)
  {
    e.Login? && e.account == Some(m) && e.passwordMatches && e.token.Some? && Effective(e.save)
  }

  predicate LogsOut(e: Event, m: string)
  {
    (e.Logout? && e.member == Some(m) && Effective(e.del)) || (e.ForceLogout? && e.memberID == m && Effective(e.del))
  }

  predicate Touches(e: Event, m: string)
  {
    LogsIn(e, m) || (e.Reconnect? && e.member == Some(m) && Effective(e.extend))
  }

  /** Some login or refresh at position `from` or later, before position `k`, lies less than `ttl` before time `t`. */
  ghost predicate Recent(events: seq<Event>, ttl: nat, m: string, from: nat, k: nat, t: nat)
    requires k <= |events|
  {
    exists j: nat :: from <= j < k && Touches(events[j], m) && t < events[j].now + ttl
  }

  /** A refresh at position `k` came less than `ttl` after an earlier login or refresh. */
  ghost predicate NoGapAt(events: seq<Event>, ttl: nat, m: string, from: nat, k: nat)
    requires k < |events|
  {
    Touches(events[k], m) ==> Recent(events, ttl, m, from, k, events[k].now)
  }

  /** A login with no logout after it, and no gap of `ttl` from it through every later refresh to now. */
  ghost predicate LiveSince(events: seq<Event>, ttl: nat, m: string, now: nat, i: nat)
  {
    && i < |events| && LogsIn(events[i], m)
    && (forall j :: i < j < |events| ==> !LogsOut(events[j], m))
    && (forall k: nat :: i < k < |events| ==> NoGapAt(events, ttl, m, i, k))
    && Recent(events, ttl, m, i, |events|, now)
  }

  ghost predicate Live(events: seq<Event>, ttl: nat, m: string, now: nat)
  {
    exists i: nat :: LiveSince(events, ttl, m, now, i)
  }

  // ----- The store agrees with the history -----

  predicate HasTime(s: State, m: string, now: nat)
  {
    m in s.store && s.store[m].deadline.Some? && now < s.store[m].deadline.value
  }

  lemma RecentInFront(events: seq<Event>, ttl: nat, m: string, from: nat, k: nat, t: nat)
    requires events != [] && k < |events|
    ensures Recent(events, ttl, m, from, k, t) <==> Recent(events[..|events| - 1], ttl, m, from, k, t)
  {
    var front := events[..|events| - 1];
    if Recent(events, ttl, m, from, k, t) {
      var j: nat :| from <= j < k && Touches(events[j], m) && t < events[j].now + ttl;
      assert front[j] == events[j];
    }
    if Recent(front, ttl, m, from, k, t) {
      var j: nat :| from <= j < k && Touches(front[j], m) && t < front[j].now + ttl;
      assert events[j] == front[j];
    }
  }

  lemma SameSince(events: seq<Event>, ttl: nat, m: string, now: nat, i: nat)
    requires events != [] && i < |events| - 1
    requires !Touches(events[|events| - 1], m) && !LogsOut(events[|events| - 1], m)
    ensures LiveSince(events, ttl, m, now, i) <==> LiveSince(events[..|events| - 1], ttl, m, now, i)
  {
    var front, n := events[..|events| - 1], |events| - 1;
    assert forall j :: 0 <= j < n ==> front[j] == events[j];
    forall k: nat | i < k < n
      ensures NoGapAt(events, ttl, m, i, k) <==> NoGapAt(front, ttl, m, i, k)
    {
      RecentInFront(events, ttl, m, i, k, events[k].now);
    }
    RecentSkips(events, ttl, m, i, now);
  }

  /** An event that does not concern the member changes nothing about their liveness. */
  lemma OthersDoNotMatter(events: seq<Event>, ttl: nat, m: string, now: nat)
    requires events != []
    requires !Touches(events[|events| - 1], m) && !LogsOut(events[|events| - 1], m)
    ensures Live(events, ttl, m, now) <==> Live(events[..|events| - 1], ttl, m, now)
  {
    var front := events[..|events| - 1];
    if Live(events, ttl, m, now) {
      var i: nat :| LiveSince(events, ttl, m, now, i);
      SameSince(events, ttl, m, now, i);
    }
    if Live(front, ttl, m, now) {
      var i: nat :| LiveSince(front, ttl, m, now, i);
      SameSince(events, ttl, m, now, i);
    }
  }

  lemma RecentSkips(events: seq<Event>, ttl: nat, m: string, from: nat, t: nat)
    requires events != [] && !Touches(events[|events| - 1], m)
    ensures Recent(events, ttl, m, from, |events|, t) <==> Recent(events[..|events| - 1], ttl, m, from, |events| - 1, t)
  {
    var front := events[..|events| - 1];
    if Recent(events, ttl, m, from, |events|, t) {
      var j: nat :| from <= j < |events| && Touches(events[j], m) && t < events[j].now + ttl;
      assert front[j] == events[j];
    }
    if Recent(front, ttl, m, from, |front|, t) {
      var j: nat :| from <= j < |front| && Touches(front[j], m) && t < front[j].now + ttl;
      assert events[j] == front[j];
    }
  }

  lemma AfterLogout(events: seq<Event>, ttl: nat, m: string, now: nat)
    requires events != [] && LogsOut(events[|events| - 1], m)
    ensures !Live(events, ttl, m, now)
  {
  }

  lemma AfterLogin(events: seq<Event>, ttl: nat, m: string, now: nat)
    requires events != [] && LogsIn(events[|events| - 1], m) && Chronological(events, now)
    ensures Live(events, ttl, m, now) <==> now < events[|events| - 1].now + ttl
  {
    var n := |events| - 1;
    if now < events[n].now + ttl {
      assert Touches(events[n], m);
      assert LiveSince(events, ttl, m, now, n);
    }
  }

  lemma ReconnectSince(events: seq<Event>, ttl: nat, m: string, now: nat, i: nat)
    requires events != [] && i < |events| - 1 && Touches(events[|events| - 1], m) && !LogsOut(events[|events| - 1], m)
    requires Chronological(events, now)
    ensures
      var e := events[|events| - 1];
      LiveSince(events, ttl, m, now, i) <==> LiveSince(events[..|events| - 1], ttl, m, e.now, i) && now < e.now + ttl
  {
    var front, n := events[..|events| - 1], |events| - 1;
    assert forall j :: 0 <= j < n ==> front[j] == events[j];
    forall k: nat | i < k < n
      ensures NoGapAt(events, ttl, m, i, k) <==> NoGapAt(front, ttl, m, i, k)
    {
      RecentInFront(events, ttl, m, i, k, events[k].now);
    }
    RecentInFront(events, ttl, m, i, n, events[n].now);
    assert LiveSince(events, ttl, m, now, i) ==> NoGapAt(events, ttl, m, i, n);
    LastTouchDecides(events, ttl, m, i, now);
  }

  lemma LastTouchDecides(events: seq<Event>, ttl: nat, m: string, from: nat, now: nat)
    requires events != [] && from < |events| && Touches(events[|events| - 1], m) && Chronological(events, now)
    ensures Recent(events, ttl, m, from, |events|, now) <==> now < events[|events| - 1].now + ttl
  {
  }

  /** A refresh prolongs a live session and does nothing for one that has lapsed. */
  lemma AfterReconnect(events: seq<Event>, ttl: nat, m: string, now: nat)
    requires events != [] && events[|events| - 1].Reconnect? && Touches(events[|events| - 1], m)
    requires Chronological(events, now)
    ensures
      var e := events[|events| - 1];
      Live(events, ttl, m, now) <==> Live(events[..|events| - 1], ttl, m, e.now) && now < e.now + ttl
  {
    var front, e := events[..|events| - 1], events[|events| - 1];
    if Live(events, ttl, m, now) {
      var i: nat :| LiveSince(events, ttl, m, now, i);
      ReconnectSince(events, ttl, m, now, i);
    }
    if Live(front, ttl, m, e.now) && now < e.now + ttl {
      var i: nat :| LiveSince(front, ttl, m, e.now, i);
      ReconnectSince(events, ttl, m, now, i);
    }
  }

  lemma {:induction false} StoreAgrees(ttl: nat, events: seq<Event>, m: string, now: nat)
    requires Chronological(events, now)
    ensures HasTime(Run(ttl, events), m, now) <==> Live(events, ttl, m, now)
    decreases |events|
  {
    if events != [] {
      var front, e := events[..|events| - 1], events[|events| - 1];
      assert Chronological(front, e.now) && Chronological(front, now);
      StoreAgrees(ttl, front, m, now);
      StoreAgrees(ttl, front, m, e.now);
      if LogsIn(e, m) {
        AfterLogin(events, ttl, m, now);
      } else if LogsOut(e, m) {
        AfterLogout(events, ttl, m, now);
      } else if Touches(e, m) {
        AfterReconnect(events, ttl, m, now);
        ReconnectOnStore(ttl, front, e, m, now);
      } else {
        OthersDoNotMatter(events, ttl, m, now);
      }
    }
  }

  lemma ReconnectOnStore(ttl: nat, front: seq<Event>, e: Event, m: string, now: nat)
    requires e.Reconnect? && Touches(e, m) && e.now <= now
    ensures HasTime(Step(Run(ttl, front), ttl, e).0, m, now) <==> HasTime(Run(ttl, front), m, e.now) && now < e.now + ttl
  {
    AllExpire(ttl, front);
  }

  /** With a positive lifetime every stored key has a deadline; with none, no key has. */
  lemma {:induction false} AllExpire(ttl: nat, events: seq<Event>)
    ensures forall m :: m in Run(ttl, events).store ==> (Run(ttl, events).store[m].deadline.Some? <==> ttl > 0)
  {
    if events != [] {
      AllExpire(ttl, events[..|events| - 1]);
    }
  }

  /**
   * For a token that names a member, the timeout check reports live exactly when the history says so,
   * and for any token of that member: sessions belong to members, not to tokens.
   */
  lemma CheckDecidesLiveness(ttl: nat, events: seq<Event>, m: string, now: nat)
    requires Chronological(events, now)
    ensures CheckSessionTimeout(Run(ttl, events), Some(m), now) <==> !Live(events, ttl, m, now)
  {
    StoreAgrees(ttl, events, m, now);
  }

  /** Reconnecting after a lapse replies success, and the session stays lapsed until the next login. */
  lemma ReconnectDoesNotRevive(ttl: nat, events: seq<Event>, m: string, at: nat, now: nat)
    requires Chronological(events, at) && at <= now && !Live(events, ttl, m, at)
    ensures Step(Run(ttl, events), ttl, Reconnect(Some(m), at, Succeeds)).1 == Success("")
    ensures CheckSessionTimeout(Run(ttl, events + [Reconnect(Some(m), at, Succeeds)]), Some(m), now)
  {
    var more := events + [Reconnect(Some(m), at, Succeeds)];
    assert more[..|more| - 1] == events;
    AfterReconnect(more, ttl, m, now);
    CheckDecidesLiveness(ttl, more, m, now);
  }

  /** A lapsed session stays lapsed through any history without a login of that member. */
  lemma {:induction false} LapsedUntilLogin(ttl: nat, events: seq<Event>, later: seq<Event>, m: string, at: nat,
                                            now: nat)
    requires Chronological(events, at) && at <= now && Chronological(events + later, now)
    requires forall i :: 0 <= i < |later| ==> at <= later[i].now && !LogsIn(later[i], m)
    requires !Live(events, ttl, m, at)
    ensures !Live(events + later, ttl, m, now)
    decreases |later|
  {
    if later == [] {
      assert events + later == events;
      NoTimeLater(ttl, events, m, at, now);
    } else {
      var front, e := later[..|later| - 1], later[|later| - 1];
      var all := events + later;
      assert all[..|all| - 1] == events + front;
      assert forall i :: 0 <= i < |events + front| ==> (events + front)[i] == all[i];
      assert all[|all| - 1] == e;
      assert Chronological(events + front, e.now);
      LapsedUntilLogin(ttl, events, front, m, at, e.now);
      if LogsOut(e, m) {
        AfterLogout(all, ttl, m, now);
      } else if Touches(e, m) {
        AfterReconnect(all, ttl, m, now);
      } else {
        OthersDoNotMatter(all, ttl, m, now);
        NoTimeLater(ttl, events + front, m, e.now, now);
      }
    }
  }

  lemma NoTimeLater(ttl: nat, events: seq<Event>, m: string, at: nat, now: nat)
    requires Chronological(events, at) && at <= now && !Live(events, ttl, m, at)
    ensures !Live(events, ttl, m, now)
  {
    StoreAgrees(ttl, events, m, at);
    StoreAgrees(ttl, events, m, now);
  }
}

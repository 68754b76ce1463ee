/** What holds of rooms and invitations over every history of use-case calls. */
module RoomTheorems {
  import opened Wrappers
  import opened Rooms

  /** Two different people never have two private rooms, however they invite, accept and exit. */
  lemma AtMostOnePrivateRoom(events: seq<Event>, a: string, b: string, i: nat, j: nat)
    requires a != b
    requires i < |Run(Init, events).rooms| && HasBoth(Run(Init, events).rooms[i], a, b)
    requires j < |Run(Init, events).rooms| && HasBoth(Run(Init, events).rooms[j], a, b)
    ensures i == j
  {
    RunKeepsInv(events);
  }

  // ----- Invitations -----

  /** An invitation stays in place; only its status changes, from pending to accepted. */
  ghost predicate Later(before: seq<Invitation>, after: seq<Invitation>)
  {
    && |before| <= |after|
    && forall i :: 0 <= i < |before| ==>
         after[i] == before[i] || (before[i].status == Pending && after[i] == before[i].(status := Accepted))
  }

  lemma StepIsLater(s: State, e: Event)
    ensures Later(s.invitations, Step(s, e).0.invitations)
  {
  }

  lemma {:induction false} InvitationsMoveOneWay(s: State, events: seq<Event>)
    ensures Later(s.invitations, Run(s, events).invitations)
  {
    if events != [] {
      InvitationsMoveOneWay(s, events[..|events| - 1]);
      StepIsLater(Run(s, events[..|events| - 1]), events[|events| - 1]);
    }
  }

  lemma {:induction false} RunConcat(s: State, a: seq<Event>, b: seq<Event>)
    ensures Run(s, a + b) == Run(Run(s, a), b)
  {
    if b == [] {
      assert a + b == a;
    } else {
      RunConcat(s, a, b[..|b| - 1]);
      assert (a + b)[..|a + b| - 1] == a + b[..|b| - 1];
    }
  }

  /** Each ordered pair has at most one stored invitation. */
  lemma {:induction false} OneInvitationEver(events: seq<Event>, i: nat, j: nat)
    requires i < |Run(Init, events).invitations| && j < |Run(Init, events).invitations|
    requires Run(Init, events).invitations[i].inviter == Run(Init, events).invitations[j].inviter
    requires Run(Init, events).invitations[i].invitee == Run(Init, events).invitations[j].invitee
    ensures i == j
  {
    RunKeepsInv(events);
  }

  /** Whom an invitation or acceptance is from and to. */
  function Pair(e: Event): (string, string)
    requires e.Invite? || e.Accept?
  {
    (e.inviter, if e.Invite? then e.invitee else e.user)
  }

  lemma ClosedPair(s: State, i: nat, e: Event)
    requires OneInvitationPerPair(s.invitations)
    requires i < |s.invitations| && s.invitations[i].status == Accepted
    requires (e.Invite? || e.Accept?) && Pair(e) == (s.invitations[i].inviter, s.invitations[i].invitee)
    ensures Step(s, e).1.Failure?
  {
    var (inviter, invitee) := Pair(e);
    assert FindInvitation(s.invitations, inviter, invitee) == Some(i);
  }

  /**
   * Once an acceptance has been recorded, the pair is closed: every later invitation and every later
   * acceptance fails, also when the acceptance itself failed to create the room.
   */
  lemma AcceptedIsFinal(before: seq<Event>, after: seq<Event>, i: nat, e: Event)
    requires i < |Run(Init, before).invitations| && Run(Init, before).invitations[i].status == Accepted
    requires e.Invite? || e.Accept?
    requires Pair(e) == (Run(Init, before).invitations[i].inviter, Run(Init, before).invitations[i].invitee)
    ensures Step(Run(Init, before + after), e).1.Failure?
  {
    RunConcat(Init, before, after);
    InvitationsMoveOneWay(Run(Init, before), after);
    RunKeepsInv(before + after);
    ClosedPair(Run(Init, before + after), i, e);
  }

  lemma EffectiveAcceptIsRecorded(s: State, e: Event)
    requires e.Accept? && Step(s, e).1.Success?
    ensures
      var k := FindInvitation(s.invitations, e.inviter, e.user);
      && k.Some? && k.value < |Step(s, e).0.invitations|
      && Step(s, e).0.invitations[k.value] == s.invitations[k.value].(status := Accepted)
  {
  }

  /** Over a whole history, accepting one ordered pair succeeds at most once. */
  lemma AcceptSucceedsOnce(before: seq<Event>, first: Event, between: seq<Event>, second: Event)
    requires first.Accept? && second.Accept? && Pair(first) == Pair(second)
    requires Step(Run(Init, before), first).1.Success?
    ensures Step(Run(Init, before + [first] + between), second).1.Failure?
  {
    var s := Run(Init, before);
    EffectiveAcceptIsRecorded(s, first);
    RunOneMore(before, first);
    AcceptedIsFinal(before + [first], between, FindInvitation(s.invitations, first.inviter, first.user).value, second);
  }

  lemma RunOneMore(before: seq<Event>, e: Event)
    ensures Run(Init, before + [e]) == Step(Run(Init, before), e).0
  {
    assert (before + [e])[..|before|] == before;
  }

  /** A successful acceptance returns a private room that holds both people, and no other does. */
  lemma AcceptGivesTheirRoom(events: seq<Event>) returns (k: nat)
    requires events != [] && events[|events| - 1].Accept? && Reply(Init, events).Success?
    ensures
      var s, e := Run(Init, events), events[|events| - 1];
      && k < |s.rooms| && Reply(Init, events) == Success(s.rooms[k].id) && HasBoth(s.rooms[k], e.inviter, e.user)
      && (e.inviter != e.user ==> forall j :: 0 <= j < |s.rooms| && HasBoth(s.rooms[j], e.inviter, e.user) ==> j == k)
  {
    var s, e := Run(Init, events[..|events| - 1]), events[|events| - 1];
    RunKeepsInv(events);
    match FindOnePrivateRoom(s.rooms, e.inviter, e.user)
    case Some(i) => k := i;
    case None => k := |s.rooms|;
  }

  // ----- Group membership -----

  /** Who a group's members are, from the joins and exits whose write took effect, in order. */
  function Membership(room: ChatRoom, history: seq<Event>): seq<string>
  {
    if history == [] then room.members
    else
      MembersAfter(room, Membership(room, history[..|history| - 1]), history[|history| - 1])
  }

  /** Open groups admit everyone, password groups whoever knows a non-empty password, all others nobody. */
  predicate Admits(room: ChatRoom, password: string)
  {
    room.joinMode == Open || (room.joinMode == Password && password == room.password && password != "")
  }

  lemma {:induction false} MembershipIsProper(room: ChatRoom, history: seq<Event>)
    requires room.members != [] && NoDuplicates(room.members)
    ensures Membership(room, history) != [] && NoDuplicates(Membership(room, history))
  {
    if history != [] {
      MembershipIsProper(room, history[..|history| - 1]);
      var members, e := Membership(room, history[..|history| - 1]), history[|history| - 1];
      if e.Exit? {
        WithoutMembers(members, e.user);
        OnlyMember(members, e.user);
      }
    }
  }

  /** Removing someone empties a list without duplicates exactly when they are all there is. */
  lemma OnlyMember(members: seq<string>, user: string)
    requires members != [] && NoDuplicates(members)
    ensures Without(members, user) == [] <==> members == [user]
  {
    WithoutMembers(members, user);
    var left := Without(members, user);
    assert members[0] in members && (members[0] != user ==> members[0] in left);
    if |members| > 1 {
      assert members[0] != members[1] && members[1] in members;
      assert members[0] in left || members[1] in left;
    } else {
      assert members == [members[0]];
      assert left != [] ==> left[0] in left;
    }
  }

  /** The stored document of a room is the created one, but for its members. */
  ghost predicate StoredAs(s: State, i: nat, room: ChatRoom, members: seq<string>)
  {
    i < |s.rooms| && s.rooms[i] == room.(members := members)
  }

  /** One event's effect on a group's members. */
  function MembersAfter(room: ChatRoom, members: seq<string>, e: Event): seq<string>
  {
    if e.Join? && e.roomID == room.id && Effective(e.write) && Admits(room, e.password) then
      if e.user in members then members else members + [e.user]
    else if e.Exit? && e.roomID == room.id && Effective(e.write) && members != [e.user] then Without(members, e.user)
    else members
  }

  lemma GroupJoin(s: State, e: Event, i: nat, room: ChatRoom, members: seq<string>)
    requires RoomsOk(s.rooms) && room.roomType == Group && e.Join?
    requires StoredAs(s, i, room, members) && members != []
    ensures StoredAs(Step(s, e).0, i, room, MembersAfter(room, members, e))
  {
    FindUnique(s.rooms, i);
  }

  lemma GroupExit(s: State, e: Event, i: nat, room: ChatRoom, members: seq<string>)
    requires RoomsOk(s.rooms) && room.roomType == Group && e.Exit?
    requires StoredAs(s, i, room, members) && members != [] && NoDuplicates(members)
    ensures StoredAs(Step(s, e).0, i, room, MembersAfter(room, members, e))
  {
    FindUnique(s.rooms, i);
    OnlyMember(members, e.user);
  }

  lemma GroupStep(s: State, e: Event, i: nat, room: ChatRoom, members: seq<string>)
    requires Inv(s) && room.roomType == Group
    requires StoredAs(s, i, room, members) && members != [] && NoDuplicates(members)
    ensures StoredAs(Step(s, e).0, i, room, MembersAfter(room, members, e))
  {
    if e.Join? {
      GroupJoin(s, e, i, room, members);
    } else if e.Exit? {
      GroupExit(s, e, i, room, members);
    }
  }

  /** The document a successful group creation stores. */
  function Created(create: Event): ChatRoom
    requires create.CreateGroup?
  {
    ChatRoom(create.id, Group, create.name, [create.creator], [create.creator], create.joinMode,
             create.password, create.isPrivate, false, create.now)
  }

  lemma CreateStep(s: State, create: Event)
    requires create.CreateGroup? && create.roomType == Group && Effective(create.write)
    requires FindByID(s.rooms, create.id).None?
    ensures StoredAs(Step(s, create).0, |s.rooms|, Created(create), [create.creator])
  {
  }

  /**
   * A group's stored document, after any history: everything but the members is as created, and the
   * members are exactly the fold of the effective joins and exits, which starts from the creator,
   * never has duplicates and is never empty.
   */
  lemma {:induction false} GroupIsItsHistory(before: seq<Event>, create: Event, after: seq<Event>)
    requires create.CreateGroup? && create.roomType == Group && Effective(create.write)
    requires FindByID(Run(Init, before).rooms, create.id).None?
    ensures
      var members := Membership(Created(create), after);
      && StoredAs(Run(Init, before + [create] + after), |Run(Init, before).rooms|, Created(create), members)
      && members != [] && NoDuplicates(members)
  {
    MembershipIsProper(Created(create), after);
    if after == [] {
      assert before + [create] + after == before + [create];
      RunOneMore(before, create);
      CreateStep(Run(Init, before), create);
    } else {
      var front, e := after[..|after| - 1], after[|after| - 1];
      GroupIsItsHistory(before, create, front);
      SplitLast(before + [create], after);
      GroupOneMore(before + [create] + front, e, |Run(Init, before).rooms|, Created(create), Membership(Created(create), front));
    }
  }

  lemma SplitLast<T>(a: seq<T>, b: seq<T>)
    requires b != []
    ensures a + b == a + b[..|b| - 1] + [b[|b| - 1]]
  {
  }

  lemma GroupOneMore(history: seq<Event>, e: Event, i: nat, room: ChatRoom, members: seq<string>)
    requires room.roomType == Group && StoredAs(Run(Init, history), i, room, members)
    requires members != [] && NoDuplicates(members)
    ensures StoredAs(Run(Init, history + [e]), i, room, MembersAfter(room, members, e))
  {
    RunKeepsInv(history);
    RunOneMore(history, e);
    GroupStep(Run(Init, history), e, i, room, members);
  }

  /** Removing someone empties a list exactly when it names nobody else. */
  lemma NobodyElse(members: seq<string>, user: string)
    ensures Without(members, user) == [] <==> forall x :: x in members ==> x == user
  {
    WithoutMembers(members, user);
    var left := Without(members, user);
    assert left != [] ==> left[0] in left;
  }

  /** Leaving any room, private or not, takes effect unless nobody would be left, and removes nobody else. */
  lemma ExitRemovesUnlessLast(events: seq<Event>, e: Event, i: nat)
    requires e.Exit? && Effective(e.write)
    requires i < |Run(Init, events).rooms| && Run(Init, events).rooms[i].id == e.roomID
    ensures
      var was, now := Run(Init, events).rooms[i].members, Step(Run(Init, events), e).0.rooms[i].members;
      && (e.user in now <==> forall x :: x in was ==> x == e.user)
      && (forall x :: x != e.user ==> (x in now <==> x in was))
  {
    RunKeepsInv(events);
    var s := Run(Init, events);
    FindUnique(s.rooms, i);
    WithoutMembers(s.rooms[i].members, e.user);
    NobodyElse(s.rooms[i].members, e.user);
    assert s.rooms[i].members[0] in s.rooms[i].members;
  }

  // ----- Stranded invitations -----

  ghost predicate RoomFor(s: State, a: string, b: string)
  {
    exists i :: 0 <= i < |s.rooms| && HasBoth(s.rooms[i], a, b)
  }

  /** The invitation of the ordered pair has been accepted. */
  predicate Closed(s: State, inviter: string, invitee: string)
  {
    var found := FindInvitation(s.invitations, inviter, invitee);
    found.Some? && s.invitations[found.value].status == Accepted
  }

  predicate Awaiting(s: State, inviter: string, invitee: string)
  {
    var found := FindInvitation(s.invitations, inviter, invitee);
    found.Some? && s.invitations[found.value].status == Pending
  }

  lemma {:induction false} FindAtReplaced(invs: seq<Invitation>, i: nat, inv: Invitation, a: string, b: string)
    requires i < |invs| && inv.inviter == invs[i].inviter && inv.invitee == invs[i].invitee
    ensures FindInvitation(invs[i := inv], a, b) == FindInvitation(invs, a, b)
  {
    var front := invs[..|invs| - 1];
    if i < |front| {
      FindAtReplaced(front, i, inv, a, b);
      assert invs[i := inv][..|invs| - 1] == front[i := inv];
    } else {
      assert invs[i := inv][..|invs| - 1] == front;
    }
  }

  /** When an acceptance succeeds: it was pending, its status was written, and a room is there or was created. */
  lemma AcceptSucceedsExactly(s: State, e: Event)
    requires e.Accept?
    ensures Step(s, e).1.Success? <==>
      && Awaiting(s, e.inviter, e.user) && e.update.Succeeds?
      && (RoomFor(s, e.inviter, e.user) || (FindByID(s.rooms, e.id).None? && e.write.Succeeds?))
  {
    if FindOnePrivateRoom(s.rooms, e.inviter, e.user).Some? {
      assert HasBoth(s.rooms[FindOnePrivateRoom(s.rooms, e.inviter, e.user).value], e.inviter, e.user);
    }
  }

  /**
   * Accepting a pending invitation leaves it accepted with no room for the two exactly when they had none and the status
   * was written but no room was: the status write reported an error, or the room could not be stored.
   */
  lemma StrandedExactly(s: State, e: Event)
    requires e.Accept? && Awaiting(s, e.inviter, e.user)
    ensures
      var after := Step(s, e).0;
      Closed(after, e.inviter, e.user) && !RoomFor(after, e.inviter, e.user) <==>
        && !RoomFor(s, e.inviter, e.user) && Effective(e.update)
        && (e.update.Fails? || !Effective(e.write) || FindByID(s.rooms, e.id).Some?)
  {
    var after := Step(s, e).0;
    var k := FindInvitation(s.invitations, e.inviter, e.user).value;
    FindAtReplaced(s.invitations, k, s.invitations[k].(status := Accepted), e.inviter, e.user);
    if |after.rooms| > |s.rooms| {
      assert HasBoth(after.rooms[|s.rooms|], e.inviter, e.user);
    } else {
      assert after.rooms == s.rooms;
    }
  }

  /** Two runs that strand an invitation: the room is not stored, or the status write reports an error it took effect. */
  lemma StrandedRuns()
    ensures forall update, write ::
      (update == Succeeds && write == Fails(false)) || update == Fails(true) ==>
        var s := Run(Init, [Invite("a", "b", "i", 0, Succeeds), Accept("a", "b", "r", 1, update, write)]);
        Closed(s, "a", "b") && !RoomFor(s, "a", "b")
  {
    forall update, write | (update == Succeeds && write == Fails(false)) || update == Fails(true)
      ensures
        var s := Run(Init, [Invite("a", "b", "i", 0, Succeeds), Accept("a", "b", "r", 1, update, write)]);
        Closed(s, "a", "b") && !RoomFor(s, "a", "b")
    {
      var invite, accept := Invite("a", "b", "i", 0, Succeeds), Accept("a", "b", "r", 1, update, write);
      assert [invite, accept] == [] + [invite] + [accept];
      RunOneMore([], invite);
      RunOneMore([] + [invite], accept);
      var s := Run(Init, [] + [invite]);
      assert s.invitations == [Invitation("i", "a", "b", Pending, 0)] && s.rooms == [];
      assert s.invitations[..0] == [];
      StrandedExactly(s, accept);
    }
  }

  lemma NewIsPending(s: State, e: Event)
    ensures forall i :: |s.invitations| <= i < |Step(s, e).0.invitations| ==> Step(s, e).0.invitations[i].status == Pending
  {
  }

  /** Statuses are pending or accepted. */
  lemma {:induction false} NeverRejected(events: seq<Event>)
    ensures forall i :: 0 <= i < |Run(Init, events).invitations| ==> Run(Init, events).invitations[i].status != Rejected
  {
    if events != [] {
      NeverRejected(events[..|events| - 1]);
      StepIsLater(Run(Init, events[..|events| - 1]), events[|events| - 1]);
      NewIsPending(Run(Init, events[..|events| - 1]), events[|events| - 1]);
    }
  }

  lemma {:induction false} UnusedID(rooms: seq<ChatRoom>) returns (id: string)
    ensures forall i :: 0 <= i < |rooms| ==> |rooms[i].id| < |id|
  {
    id := "x";
    if rooms != [] {
      var rest := UnusedID(rooms[..|rooms| - 1]);
      id := rest + rooms[|rooms| - 1].id + "x";
    }
  }

  ghost predicate RoomLater(events: seq<Event>, a: string, b: string)
  {
    exists later :: RoomFor(Run(Init, events + later), a, b)
  }

  lemma AcceptOpens(events: seq<Event>, a: string, b: string)
    requires !RoomFor(Run(Init, events), a, b) && Awaiting(Run(Init, events), a, b)
    ensures RoomLater(events, a, b)
  {
    var s := Run(Init, events);
    var id := UnusedID(s.rooms);
    var accept := Accept(a, b, id, 0, Succeeds, Succeeds);
    RunOneMore(events, accept);
    var after := Run(Init, events + [accept]);
    assert HasBoth(after.rooms[|s.rooms|], a, b);
  }

  lemma InviteAwaits(s: State, a: string, b: string)
    requires !RoomFor(s, a, b) && FindInvitation(s.invitations, a, b).None?
    ensures
      var after := Step(s, Invite(a, b, "", 0, Succeeds)).0;
      Awaiting(after, a, b) && !RoomFor(after, a, b)
  {
    var after := Step(s, Invite(a, b, "", 0, Succeeds)).0;
    assert after.invitations[..|s.invitations|] == s.invitations;
  }

  lemma RoomStaysLater(events: seq<Event>, e: Event, a: string, b: string)
    requires RoomLater(events + [e], a, b)
    ensures RoomLater(events, a, b)
  {
    var later :| RoomFor(Run(Init, events + [e] + later), a, b);
    assert events + ([e] + later) == events + [e] + later;
  }

  /** A pair that is not closed can still get its room. */
  lemma NotClosedRecovers(events: seq<Event>, a: string, b: string)
    requires !RoomFor(Run(Init, events), a, b) && !Closed(Run(Init, events), a, b)
    ensures RoomLater(events, a, b)
  {
    NeverRejected(events);
    if Awaiting(Run(Init, events), a, b) {
      AcceptOpens(events, a, b);
    } else {
      var invite := Invite(a, b, "", 0, Succeeds);
      RunOneMore(events, invite);
      InviteAwaits(Run(Init, events), a, b);
      AcceptOpens(events + [invite], a, b);
      RoomStaysLater(events, invite, a, b);
    }
  }

  /** With both directions closed no step makes a room. */
  lemma ClosedStep(s: State, e: Event, a: string, b: string)
    requires a != b && Closed(s, a, b) && Closed(s, b, a) && !RoomFor(s, a, b)
    ensures !RoomFor(Step(s, e).0, a, b)
  {
    var after := Step(s, e).0;
    forall i | 0 <= i < |after.rooms|
      ensures !HasBoth(after.rooms[i], a, b)
    {
      if i < |s.rooms| {
        assert !HasBoth(s.rooms[i], a, b);
        if e.Exit? {
          WithoutMembers(s.rooms[i].members, e.user);
        }
      }
    }
  }

  lemma ClosedStays(s: State, e: Event, a: string, b: string)
    requires Closed(s, a, b)
    ensures Closed(Step(s, e).0, a, b)
  {
    if e.Invite? {
      var invs := Step(s, e).0.invitations;
      assert |invs| > |s.invitations| ==> invs[..|s.invitations|] == s.invitations;
    } else if e.Accept? && FindInvitation(s.invitations, e.inviter, e.user).Some? {
      var k := FindInvitation(s.invitations, e.inviter, e.user).value;
      FindAtReplaced(s.invitations, k, s.invitations[k].(status := Accepted), a, b);
    }
  }

  lemma {:induction false} ClosedForever(events: seq<Event>, later: seq<Event>, a: string, b: string)
    requires a != b && Closed(Run(Init, events), a, b) && Closed(Run(Init, events), b, a)
    requires !RoomFor(Run(Init, events), a, b)
    ensures Closed(Run(Init, events + later), a, b) && Closed(Run(Init, events + later), b, a)
    ensures !RoomFor(Run(Init, events + later), a, b)
    decreases |later|
  {
    if later == [] {
      assert events + later == events;
    } else {
      var front, e := later[..|later| - 1], later[|later| - 1];
      ClosedForever(events, front, a, b);
      SplitLast(events, later);
      RunOneMore(events + front, e);
      var s := Run(Init, events + front);
      ClosedStep(s, e, a, b);
      ClosedStays(s, e, a, b);
      ClosedStays(s, e, b, a);
    }
  }

  /**
   * Two different people without a room can still get one exactly when one of the two ordered pairs is not closed: a
   * stranded invitation is recovered by inviting in the other direction, and by nothing once that is accepted too.
   */
  lemma RecoverableExactly(events: seq<Event>, a: string, b: string)
    requires a != b && !RoomFor(Run(Init, events), a, b)
    ensures RoomLater(events, a, b) <==> !(Closed(Run(Init, events), a, b) && Closed(Run(Init, events), b, a))
  {
    var s := Run(Init, events);
    if Closed(s, a, b) && Closed(s, b, a) {
      forall later
        ensures !RoomFor(Run(Init, events + later), a, b)
      {
        ClosedForever(events, later, a, b);
      }
    } else if !Closed(s, a, b) {
      NotClosedRecovers(events, a, b);
    } else {
      assert !RoomFor(s, b, a) by {
        assert forall i :: 0 <= i < |s.rooms| ==> HasBoth(s.rooms[i], b, a) == HasBoth(s.rooms[i], a, b);
      }
      NotClosedRecovers(events, b, a);
      var later :| RoomFor(Run(Init, events + later), b, a);
      assert RoomFor(Run(Init, events + later), a, b);
    }
  }
}

/** The room use cases as the code runs them, on collections they update in place. */
module RoomService {
  import opened Wrappers
  import opened Rooms
  import RoomTheorems

  method AddIfMissing(list: seq<string>, val: string) returns (result: seq<string>)
    ensures result == AppendIfNotExists(list, val)
  {
    for i := 0 to |list|
      invariant val !in list[..i]
    {
      if list[i] == val {
        return list;
      }
    }
    return list + [val];
  }

  method RemoveAll(list: seq<string>, val: string) returns (result: seq<string>)
    ensures result == Without(list, val)
  {
    result := [];
    for i := 0 to |list|
      invariant result == Without(list[..i], val)
    {
      assert list[..i + 1][..i] == list[..i];
      if list[i] != val {
        result := result + [list[i]];
      }
    }
    assert list[..|list|] == list;
  }

  /** The pending invitations of a list addressed to one person, in order. */
  function PendingFor(invs: seq<Invitation>, user: string): seq<Invitation>
  {
    if invs == [] then []
    else
      var last := invs[|invs| - 1];
      PendingFor(invs[..|invs| - 1], user) + if last.invitee == user && last.status == Pending then [last] else []
  }

  /** After the save: the fields left empty are as before, the others as given; no other document changed. */
  ghost predicate SavedOver(before: seq<ChatRoom>, after: seq<ChatRoom>, i: nat, room: ChatRoom)
    requires i < |before|
  {
    && |after| == |before| && (forall j :: 0 <= j < |before| && j != i ==> after[j] == before[j])
    && after[i].id == before[i].id && after[i].roomType == room.roomType
    && after[i].members == (if room.members == [] then before[i].members else room.members)
    && after[i].admins == (if room.admins == [] then before[i].admins else room.admins)
    && after[i].name == (if room.name == "" then before[i].name else room.name)
    && after[i].joinMode == (if room.joinMode == OtherMode("") then before[i].joinMode else room.joinMode)
    && after[i].password == (if room.password == "" then before[i].password else room.password)
    && after[i].isPrivate == room.isPrivate && after[i].isInvite == room.isInvite
    && after[i].createdAt == (if room.createdAt == 0 then before[i].createdAt else room.createdAt)
  }

  /** Finding no pending invitation but theirs, and every one of those. */
  lemma {:induction false} PendingMembers(invs: seq<Invitation>, user: string, inv: Invitation)
    ensures inv in PendingFor(invs, user) <==> inv in invs && inv.invitee == user && inv.status == Pending
  {
    if invs != [] {
      PendingMembers(invs[..|invs| - 1], user, inv);
      assert invs == invs[..|invs| - 1] + [invs[|invs| - 1]];
    }
  }

  /** The group exists and its mode admits by this password, or has no check at all. */
  predicate LetsIn(rooms: seq<ChatRoom>, roomID: string, password: string)
  {
    var found := FindByID(rooms, roomID);
    && found.Some? && rooms[found.value].roomType == Group
    && match rooms[found.value].joinMode
       case Open => true
       case Password => password != "" && password == rooms[found.value].password
       case Approve => false
       case OtherMode(_) => true
  }

  /** The rooms after a join: at most one of them has one more member, at its end. */
  function Joined(rooms: seq<ChatRoom>, roomID: string, user: string, password: string, w: Write): seq<ChatRoom>
  {
    if LetsIn(rooms, roomID, password) && Effective(w) then
      var i := FindByID(rooms, roomID).value;
      if rooms[i].joinMode.OtherMode? || user in rooms[i].members then rooms
      else rooms[i := rooms[i].(members := rooms[i].members + [user])]
    else rooms
  }

  lemma JoinResult(s: State, roomID: string, user: string, password: string, w: Write)
    ensures
      var (after, r) := Step(s, Join(roomID, user, password, w));
      && (r.Success? <==> LetsIn(s.rooms, roomID, password) && w.Succeeds?)
      && after == s.(rooms := Joined(s.rooms, roomID, user, password, w))
  {
  }

  class RoomUseCase {
    var rooms: seq<ChatRoom>
    var invitations: seq<Invitation>

    ghost function View(): State
      reads this
    {
      State(rooms, invitations)
    }

    constructor ()
      ensures View() == Init
    {
      rooms, invitations := [], [];
    }

    // ----- Collections -----

    method InsertRoom(room: ChatRoom, w: Write) returns (r: Result<string>)
      modifies this`rooms
      ensures (rooms, r) == CreateRoom(old(rooms), room, w)
      ensures r.Success? <==> FindByID(old(rooms), room.id).None? && w.Succeeds?
      ensures r.Success? ==> r.value == room.id
      ensures rooms == if FindByID(old(rooms), room.id).None? && Effective(w) then old(rooms) + [room] else old(rooms)
    {
      if FindByID(rooms, room.id).Some? {
        return Failure("duplicate key");
      }
      if Effective(w) {
        rooms := rooms + [room];
      }
      return if w.Succeeds? then Success(room.id) else Failure("create room");
    }

    method SaveRoom(room: ChatRoom, w: Write) returns (r: Result<string>)
      modifies this`rooms
      ensures (rooms, r) == UpdateRoom(old(rooms), room, w)
      ensures r.Success? <==> w.Succeeds?
      ensures Effective(w) && FindByID(old(rooms), room.id).Some? ==>
        SavedOver(old(rooms), rooms, FindByID(old(rooms), room.id).value, room)
      ensures !Effective(w) || FindByID(old(rooms), room.id).None? ==> rooms == old(rooms)
    {
      var found := FindByID(rooms, room.id);
      if Effective(w) && found.Some? {
        rooms := rooms[found.value := SetFields(rooms[found.value], room)];
      }
      return if w.Succeeds? then Success("") else Failure("update room");
    }

    method FindInvitationByPending(user: string) returns (pending: seq<Invitation>)
      ensures pending == PendingFor(invitations, user)
    {
      pending := [];
      for i := 0 to |invitations|
        invariant pending == PendingFor(invitations[..i], user)
      {
        var inv := invitations[i];
        assert invitations[..i + 1][..i] == invitations[..i];
        if inv.invitee == user && inv.status == Pending {
          pending := pending + [inv];
        }
      }
      assert invitations[..|invitations|] == invitations;
    }

    // ----- Use cases -----

    method ExecuteRoom(creator: string, id: string, roomType: RoomType, name: string, joinMode: JoinMode,
                       password: string,
                       isPrivate: bool, now: int, w: Write)
      returns (r: Result<string>)
      modifies this`rooms
      ensures (View(), r) == Step(old(View()), CreateGroup(creator, id, roomType, name, joinMode, password, isPrivate, now, w))
      ensures r.Success? <==> roomType != Private && FindByID(old(rooms), id).None? && w.Succeeds?
      ensures r.Success? ==> r.value == id && FindByID(rooms, id) == Some(|old(rooms)|)
      ensures rooms ==
        if roomType != Private && FindByID(old(rooms), id).None? && Effective(w) then
          old(rooms) + [ChatRoom(id, roomType, name, [creator], if roomType == Group then [creator] else [], joinMode,
                                 password, isPrivate, false, now)]
        else old(rooms)
    {
      var members := [creator];
      if roomType == Private && |members| != 2 {
        return Failure("private room must have exactly 2 members");
      }
      var room := ChatRoom(id, roomType, name, members, [], joinMode, password, isPrivate, false, now);
      if roomType == Group && |members| > 0 {
        room := room.(admins := [members[0]]);
      }
      ghost var before := rooms;
      r := InsertRoom(room, w);
      assert r.Success? ==> rooms[..|before|] == before;
    }

    method JoinRoom(roomID: string, user: string, password: string, w: Write) returns (r: Result<string>)
      modifies this`rooms
      ensures (View(), r) == Step(old(View()), Join(roomID, user, password, w))
      ensures r.Success? <==> LetsIn(old(rooms), roomID, password) && w.Succeeds?
      ensures rooms == Joined(old(rooms), roomID, user, password, w)
    {
      JoinResult(View(), roomID, user, password, w);
      var found := FindByID(rooms, roomID);
      if found.None? {
        return Failure("room not found");
      }
      var room := rooms[found.value];
      if room.roomType != Group {
        return Failure("not a group chat room");
      }
      match room.joinMode {
        case Open =>
          var members := AddIfMissing(room.members, user);
          room := room.(members := members);
        case Password =>
          if password == "" || password != room.password {
            return Failure("invalid password");
          }
          var members := AddIfMissing(room.members, user);
          room := room.(members := members);
        case Approve =>
          return Failure("need admin approval");
        case OtherMode(_) =>
      }
      r := SaveRoom(room, w);
    }

    method ExitRoom(roomID: string, user: string, w: Write) returns (r: Result<string>)
      modifies this`rooms
      ensures (View(), r) == Step(old(View()), Exit(roomID, user, w))
      ensures r.Success? <==> FindByID(old(rooms), roomID).Some? && w.Succeeds?
      ensures rooms ==
        if FindByID(old(rooms), roomID).Some? && Effective(w) then
          var i := FindByID(old(rooms), roomID).value;
          var left := Without(old(rooms)[i].members, user);
          old(rooms)[i := old(rooms)[i].(members := if left == [] then old(rooms)[i].members else left)]
        else old(rooms)
    {
      var found := FindByID(rooms, roomID);
      if found.None? {
        return Failure("room not found");
      }
      var room := rooms[found.value];
      var newMembers := RemoveAll(room.members, user);
      room := room.(members := newMembers);
      r := SaveRoom(room, w);
    }

    method ExecuteInvite(inviter: string, invitee: string, id: string, now: int, w: Write) returns (r: Result<string>)
      modifies this`invitations
      ensures (View(), r) == Step(old(View()), Invite(inviter, invitee, id, now, w))
      ensures r.Success? <==> FindInvitation(old(invitations), inviter, invitee).None? && w.Succeeds?
      ensures r.Success? ==> r.value == id && FindInvitation(invitations, inviter, invitee).Some?
      ensures invitations ==
        if FindInvitation(old(invitations), inviter, invitee).None? && Effective(w) then
          old(invitations) + [Invitation(id, inviter, invitee, Pending, now)]
        else old(invitations)
      ensures r.Success? ==>
        PendingFor(invitations, invitee) ==
          old(PendingFor(invitations, invitee)) + [Invitation(id, inviter, invitee, Pending, now)]
    {
      var pending := FindInvitation(invitations, inviter, invitee);
      if pending.Some? {
        return Failure("already invited, wait for acceptance");
      }
      var inv := Invitation(id, inviter, invitee, Pending, now);
      if Effective(w) {
        invitations := invitations + [inv];
      }
      return if w.Succeeds? then Success(inv.id) else Failure("create invitation");
    }

    method ExecuteAccept(inviter: string, user: string, id: string, now: int, update: Write, w: Write)
      returns (r: Result<string>)
      modifies this`rooms, this`invitations
      ensures (View(), r) == Step(old(View()), Accept(inviter, user, id, now, update, w))
      ensures r.Success? <==>
        && RoomTheorems.Awaiting(old(View()), inviter, user) && update.Succeeds?
        && (RoomTheorems.RoomFor(old(View()), inviter, user) || (FindByID(old(rooms), id).None? && w.Succeeds?))
      ensures rooms ==
        if RoomTheorems.Awaiting(old(View()), inviter, user) && update.Succeeds?
           && !RoomTheorems.RoomFor(old(View()), inviter, user) && FindByID(old(rooms), id).None? && Effective(w) then
          old(rooms) + [ChatRoom(id, Private, "", [inviter, user], [], OtherMode(""), "", false, true, now)]
        else old(rooms)
      ensures RoomTheorems.Closed(View(), inviter, user) <==>
        || RoomTheorems.Closed(old(View()), inviter, user)
        || (RoomTheorems.Awaiting(old(View()), inviter, user) && Effective(update))
      ensures r.Success? ==>
        && RoomTheorems.Awaiting(old(View()), inviter, user) && RoomTheorems.Closed(View(), inviter, user)
        && exists i :: 0 <= i < |rooms| && rooms[i].id == r.value && HasBoth(rooms[i], inviter, user)
    {
      var found := FindInvitation(invitations, inviter, user);
      if found.None? {
        return Failure("invitation not found");
      }
      var inv := invitations[found.value];
      if inv.invitee != user {
        return Failure("not the correct invitee");
      }
      if inv.status != Pending {
        return Failure("invitation not pending");
      }
      RoomTheorems.FindAtReplaced(invitations, found.value, inv.(status := Accepted), inviter, user);
      if Effective(update) {
        invitations := invitations[found.value := inv.(status := Accepted)];
      }
      if update.Fails? {
        return Failure("update invitation");
      }
      var existing := FindOnePrivateRoom(rooms, inv.inviter, inv.invitee);
      if existing.Some? {
        return Success(rooms[existing.value].id);
      }
      var room := ChatRoom(id, Private, "", [inv.inviter, inv.invitee], [], OtherMode(""), "", false, true, now);
      r := InsertRoom(room, w);
      assert r.Success? ==> HasBoth(rooms[|rooms| - 1], inviter, user);
    }
  }
}

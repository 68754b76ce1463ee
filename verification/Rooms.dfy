/** Chat rooms and private-chat invitations: each use-case call is one atomic step on two collections. */
module Rooms {
  import opened Wrappers

  datatype RoomType = Private | Group | OtherType(name: string)

  datatype JoinMode = Open | Password | Approve | OtherMode(name: string)

  datatype ChatRoom = ChatRoom(
    id: string, roomType: RoomType, name: string, members: seq<string>, admins: seq<string>,
    joinMode: JoinMode, password: string, isPrivate: bool, isInvite: bool, createdAt: int)

  datatype InvitationStatus = Pending | Accepted | Rejected

  datatype Invitation = Invitation(id: string, inviter: string, invitee: string, status: InvitationStatus, createdAt: int)

  datatype State = State(rooms: seq<ChatRoom>, invitations: seq<Invitation>)

  const Init := State([], [])

  // ----- Queries -----

  /** The first room with this identifier. */
  function FindByID(rooms: seq<ChatRoom>, id: string): (r: Option<nat>)
    ensures r.Some? ==> r.value < |rooms| && rooms[r.value].id == id
    ensures r.None? ==> forall i :: 0 <= i < |rooms| ==> rooms[i].id != id
  {
    if rooms == [] then None
    else match FindByID(rooms[..|rooms| - 1], id)
      case Some(i) => Some(i)
      case None => if rooms[|rooms| - 1].id == id then Some(|rooms| - 1) else None
  }

  predicate HasBoth(room: ChatRoom, a: string, b: string)
  {
    room.roomType == Private && a in room.members && b in room.members
  }

  /** The first private room whose members include both. */
  function FindOnePrivateRoom(rooms: seq<ChatRoom>, a: string, b: string): (r: Option<nat>)
    ensures r.Some? ==> r.value < |rooms| && HasBoth(rooms[r.value], a, b)
    ensures r.None? ==> forall i :: 0 <= i < |rooms| ==> !HasBoth(rooms[i], a, b)
  {
    if rooms == [] then None
    else match FindOnePrivateRoom(rooms[..|rooms| - 1], a, b)
      case Some(i) => Some(i)
      case None => if HasBoth(rooms[|rooms| - 1], a, b) then Some(|rooms| - 1) else None
  }

  /** The first invitation from one person to another, whatever its status. */
  function FindInvitation(invs: seq<Invitation>, inviter: string, invitee: string): (r: Option<nat>)
    ensures r.Some? ==> r.value < |invs| && invs[r.value].inviter == inviter && invs[r.value].invitee == invitee
    ensures r.None? ==> forall i :: 0 <= i < |invs| ==> invs[i].inviter != inviter || invs[i].invitee != invitee
  {
    if invs == [] then None
    else match FindInvitation(invs[..|invs| - 1], inviter, invitee)
      case Some(i) => Some(i)
      case None =>
        if invs[|invs| - 1].inviter == inviter && invs[|invs| - 1].invitee == invitee then Some(|invs| - 1) else None
  }

  // ----- Writes -----

  /** `$set` of a room document: empty values of fields marked omitempty are not written. */
  function SetFields(stored: ChatRoom, room: ChatRoom): ChatRoom
  {
    ChatRoom(
      stored.id,
      room.roomType,
      if room.name == "" then stored.name else room.name,
      if room.members == [] then stored.members else room.members,
      if room.admins == [] then stored.admins else room.admins,
      if room.joinMode == OtherMode("") then stored.joinMode else room.joinMode,
      if room.password == "" then stored.password else room.password,
      room.isPrivate,
      room.isInvite,
      if room.createdAt == 0 then stored.createdAt else room.createdAt)
  }

  function UpdateRoom(rooms: seq<ChatRoom>, room: ChatRoom, w: Write): (seq<ChatRoom>, Result<string>)
  {
    var found := FindByID(rooms, room.id);
    (if Effective(w) && found.Some? then rooms[found.value := SetFields(rooms[found.value], room)] else rooms,
     if w.Succeeds? then Success("") else Failure("update room"))
  }

  /** Identifiers are unique: inserting a second document with one is refused. */
  function CreateRoom(rooms: seq<ChatRoom>, room: ChatRoom, w: Write): (seq<ChatRoom>, Result<string>)
  {
    if FindByID(rooms, room.id).Some? then (rooms, Failure("duplicate key"))
    else (if Effective(w) then rooms + [room] else rooms, if w.Succeeds? then Success(room.id) else Failure("create room"))
  }

  // ----- Use cases -----

  datatype Event =
    | CreateGroup(creator: string, id: string, roomType: RoomType, name: string, joinMode: JoinMode, password: string,
                  isPrivate: bool, now: int, write: Write)
    | Join(roomID: string, user: string, password: string, write: Write)
    | Exit(roomID: string, user: string, write: Write)
    | Invite(inviter: string, invitee: string, id: string, now: int, write: Write)
    | Accept(inviter: string, user: string, id: string, now: int, update: Write, write: Write)

  function AppendIfNotExists(list: seq<string>, val: string): seq<string>
  {
    if val in list then list else list + [val]
  }

  function Without(list: seq<string>, val: string): seq<string>
  {
    if list == [] then []
    else Without(list[..|list| - 1], val) + if list[|list| - 1] != val then [list[|list| - 1]] else []
  }

  /** Creating a room over the socket: its only member is whoever asked. */
  function ExecuteRoom(s: State, e: Event): (State, Result<string>)
    requires e.CreateGroup?
  {
    if e.roomType == Private then (s, Failure("private room must have exactly 2 members"))
    else
      var admins := if e.roomType == Group then [e.creator] else [];
      var room := ChatRoom(e.id, e.roomType, e.name, [e.creator], admins, e.joinMode, e.password, e.isPrivate, false, e.now);
      var (rooms, r) := CreateRoom(s.rooms, room, e.write);
      (s.(rooms := rooms), r)
  }

  function JoinRoom(s: State, e: Event): (State, Result<string>)
    requires e.Join?
  {
    match FindByID(s.rooms, e.roomID)
    case None => (s, Failure("room not found"))
    case Some(i) =>
      var room := s.rooms[i];
      if room.roomType != Group then (s, Failure("not a group chat room"))
      else if room.joinMode == Password && (e.password == "" || e.password != room.password) then (s, Failure("invalid password"))
      else if room.joinMode == Approve then (s, Failure("need admin approval"))
      else
        var members := if room.joinMode == Open || room.joinMode == Password
                       then AppendIfNotExists(room.members, e.user) else room.members;
        var (rooms, r) := UpdateRoom(s.rooms, room.(members := members), e.write);
        (s.(rooms := rooms), r)
  }

  function ExitRoom(s: State, e: Event): (State, Result<string>)
    requires e.Exit?
  {
    match FindByID(s.rooms, e.roomID)
    case None => (s, Failure("room not found"))
    case Some(i) =>
      var (rooms, r) := UpdateRoom(s.rooms, s.rooms[i].(members := Without(s.rooms[i].members, e.user)), e.write);
      (s.(rooms := rooms), r)
  }

  function ExecuteInvite(s: State, e: Event): (State, Result<string>)
    requires e.Invite?
  {
    if FindInvitation(s.invitations, e.inviter, e.invitee).Some? then (s, Failure("already invited, wait for acceptance"))
    else
      var inv := Invitation(e.id, e.inviter, e.invitee, Pending, e.now);
      (if Effective(e.write) then s.(invitations := s.invitations + [inv]) else s,
       if e.write.Succeeds? then Success(e.id) else Failure("create invitation"))
  }

  function ExecuteAccept(s: State, e: Event): (State, Result<string>)
    requires e.Accept?
  {
    match FindInvitation(s.invitations, e.inviter, e.user)
    case None => (s, Failure("invitation not found"))
    case Some(i) =>
      if s.invitations[i].status != Pending then (s, Failure("invitation not pending"))
      else
        var s1 := if Effective(e.update)
                  then s.(invitations := s.invitations[i := s.invitations[i].(status := Accepted)]) else s;
        if e.update.Fails? then (s1, Failure("update invitation"))
        else match FindOnePrivateRoom(s.rooms, e.inviter, e.user)
          case Some(k) => (s1, Success(s.rooms[k].id))
          case None =>
            var room := ChatRoom(e.id, Private, "", [e.inviter, e.user], [], OtherMode(""), "", false, true, e.now);
            var (rooms, r) := CreateRoom(s.rooms, room, e.write);
            (s1.(rooms := rooms), r)
  }

  function Step(s: State, e: Event): (State, Result<string>)
  {
    match e
    case CreateGroup(_, _, _, _, _, _, _, _, _) => ExecuteRoom(s, e)
    case Join(_, _, _, _) => JoinRoom(s, e)
    case Exit(_, _, _) => ExitRoom(s, e)
    case Invite(_, _, _, _, _) => ExecuteInvite(s, e)
    case Accept(_, _, _, _, _, _) => ExecuteAccept(s, e)
  }

  function Run(s: State, events: seq<Event>): State
  {
    if events == [] then s else Step(Run(s, events[..|events| - 1]), events[|events| - 1]).0
  }

  /** The reply the last event of a non-empty history got. */
  function Reply(s: State, events: seq<Event>): Result<string>
    requires events != []
  {
    Step(Run(s, events[..|events| - 1]), events[|events| - 1]).1
  }

  // ----- What every step keeps -----

  predicate NoDuplicates(list: seq<string>)
  {
    forall i, j :: 0 <= i < j < |list| ==> list[i] != list[j]
  }

  lemma {:induction false} WithoutMembers(list: seq<string>, val: string)
    ensures forall x :: x in Without(list, val) <==> x in list && x != val
    ensures NoDuplicates(list) ==> NoDuplicates(Without(list, val))
  {
    if list != [] {
      var front, last := list[..|list| - 1], list[|list| - 1];
      WithoutMembers(front, val);
      assert list == front + [last];
      if NoDuplicates(list) {
        assert last !in front;
        assert NoDuplicates(front);
      }
    }
  }

  /** Removing keeps the others in order. */
  lemma {:induction false} WithoutConcat(a: seq<string>, b: seq<string>, val: string)
    ensures Without(a + b, val) == Without(a, val) + Without(b, val)
  {
    if b == [] {
      assert a + b == a;
    } else {
      WithoutConcat(a, b[..|b| - 1], val);
      assert (a + b)[..|a + b| - 1] == a + b[..|b| - 1];
    }
  }

  ghost predicate RoomsOk(rooms: seq<ChatRoom>)
  {
    && (forall i, j :: 0 <= i < j < |rooms| ==> rooms[i].id != rooms[j].id)
    && (forall i :: 0 <= i < |rooms| ==> rooms[i].members != [])
    && (forall i :: 0 <= i < |rooms| && rooms[i].roomType != Private ==> NoDuplicates(rooms[i].members))
  }

  /** No two private rooms share two different people. */
  ghost predicate OneRoomPerPair(rooms: seq<ChatRoom>)
  {
    forall i, j, a, b :: 0 <= i < j < |rooms| && a != b ==> !(HasBoth(rooms[i], a, b) && HasBoth(rooms[j], a, b))
  }

  ghost predicate OneInvitationPerPair(invs: seq<Invitation>)
  {
    forall i, j :: 0 <= i < j < |invs| ==> invs[i].inviter != invs[j].inviter || invs[i].invitee != invs[j].invitee
  }

  ghost predicate Inv(s: State)
  {
    RoomsOk(s.rooms) && OneRoomPerPair(s.rooms) && OneInvitationPerPair(s.invitations)
  }

  lemma FindUnique(rooms: seq<ChatRoom>, i: nat)
    requires RoomsOk(rooms) && i < |rooms|
    ensures FindByID(rooms, rooms[i].id) == Some(i)
  {
  }

  /** Replacing a room by one with no new members of a private room keeps everything. */
  lemma ReplaceKeeps(rooms: seq<ChatRoom>, i: nat, room: ChatRoom)
    requires RoomsOk(rooms) && OneRoomPerPair(rooms) && i < |rooms|
    requires room.id == rooms[i].id && room.roomType == rooms[i].roomType && room.members != []
    requires room.roomType == Private ==> forall m :: m in room.members ==> m in rooms[i].members
    requires room.roomType != Private ==> NoDuplicates(room.members)
    ensures RoomsOk(rooms[i := room]) && OneRoomPerPair(rooms[i := room])
  {
    var rooms' := rooms[i := room];
    assert forall k, a, b :: 0 <= k < |rooms'| && HasBoth(rooms'[k], a, b) ==> HasBoth(rooms[k], a, b);
  }

  lemma CreateKeeps(rooms: seq<ChatRoom>, room: ChatRoom, w: Write)
    requires RoomsOk(rooms) && OneRoomPerPair(rooms) && room.members != []
    requires room.roomType != Private ==> NoDuplicates(room.members)
    requires forall i, a, b :: 0 <= i < |rooms| && a != b && HasBoth(room, a, b) ==> !HasBoth(rooms[i], a, b)
    ensures RoomsOk(CreateRoom(rooms, room, w).0) && OneRoomPerPair(CreateRoom(rooms, room, w).0)
  {
  }

  lemma StepKeepsInv(s: State, e: Event)
    requires Inv(s)
    ensures Inv(Step(s, e).0)
  {
    match e
    case CreateGroup(_, _, _, _, _, _, _, _, _) =>
      if e.roomType != Private {
        var admins := if e.roomType == Group then [e.creator] else [];
        CreateKeeps(s.rooms,
          ChatRoom(e.id, e.roomType, e.name, [e.creator], admins, e.joinMode, e.password, e.isPrivate, false, e.now), e.write);
      }
    case Join(_, _, _, _) => JoinKeepsInv(s, e);
    case Exit(_, _, _) => ExitKeepsInv(s, e);
    case Invite(_, _, _, _, _) =>
    case Accept(_, _, _, _, _, _) => AcceptKeepsInv(s, e);
  }

  lemma JoinKeepsInv(s: State, e: Event)
    requires Inv(s) && e.Join?
    ensures Inv(Step(s, e).0)
  {
    var found := FindByID(s.rooms, e.roomID);
    if found.Some? && s.rooms[found.value].roomType == Group {
      var room := s.rooms[found.value];
      ReplaceKeeps(s.rooms, found.value, room.(members := AppendIfNotExists(room.members, e.user)));
      ReplaceKeeps(s.rooms, found.value, room);
    }
  }

  lemma ExitKeepsInv(s: State, e: Event)
    requires Inv(s) && e.Exit?
    ensures Inv(Step(s, e).0)
  {
    var found := FindByID(s.rooms, e.roomID);
    if found.Some? {
      var room := s.rooms[found.value];
      WithoutMembers(room.members, e.user);
      ReplaceKeeps(s.rooms, found.value, SetFields(room, room.(members := Without(room.members, e.user))));
    }
  }

  lemma AcceptKeepsInv(s: State, e: Event)
    requires Inv(s) && e.Accept?
    ensures Inv(Step(s, e).0)
  {
    if FindOnePrivateRoom(s.rooms, e.inviter, e.user).None? {
      var room := ChatRoom(e.id, Private, "", [e.inviter, e.user], [], OtherMode(""), "", false, true, e.now);
      CreateKeeps(s.rooms, room, e.write);
    }
  }

  lemma {:induction false} RunKeepsInv(events: seq<Event>)
    ensures Inv(Run(Init, events))
  {
    if events != [] {
      RunKeepsInv(events[..|events| - 1]);
      StepKeepsInv(Run(Init, events[..|events| - 1]), events[|events| - 1]);
    }
  }
}

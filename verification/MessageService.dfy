/** Sending, reading and counting messages as the code runs them, on a collection of buckets it updates in place. */
module MessageService {
  import opened Wrappers
  import opened Messages
  import MessageDays
  import MessageQueries
  import Rooms
  import Unread

  method Contains(list: seq<string>, val: string) returns (found: bool)
    ensures found <==> val in list
  {
    for i := 0 to |list|
      invariant val !in list[..i]
    {
      if list[i] == val {
        return true;
      }
    }
    return false;
  }

  /** The document a find by room and date returns. */
  function Lookup(coll: seq<Bucket>, room: string, date: string): Option<Bucket>
  {
    match Messages.FindBucket(coll, room, date)
    case Some(i) => Some(coll[i])
    case None => None
  }

  /** A find returns the given document if it is for that room and date, and what it did before otherwise. */
  predicate FindsInstead(coll: seq<Bucket>, before: seq<Bucket>, bucket: Bucket, room: string, date: string)
  {
    Lookup(coll, room, date) ==
      if room == bucket.roomID && date == bucket.date then Some(bucket) else Lookup(before, room, date)
  }

  ghost predicate OnlyThatFindChanges(coll: seq<Bucket>, before: seq<Bucket>, bucket: Bucket)
  {
    forall room: string, date: string :: FindsInstead(coll, before, bucket, room, date)
  }

  lemma LookupAfterUpdate(coll: seq<Bucket>, i: nat, bucket: Bucket, room: string, date: string)
    requires Messages.FindBucket(coll, bucket.roomID, bucket.date) == Some(i)
    ensures FindsInstead(coll[i := bucket], coll, bucket, room, date)
  {
    MessageDays.FindReplaced(coll, i, bucket, room, date);
  }

  lemma OnlyThatFind(coll: seq<Bucket>, i: nat, bucket: Bucket)
    requires Messages.FindBucket(coll, bucket.roomID, bucket.date) == Some(i)
    ensures OnlyThatFindChanges(coll[i := bucket], coll, bucket)
  {
    var updated := coll[i := bucket];
    forall room: string, date: string
      ensures FindsInstead(updated, coll, bucket, room, date)
    {
      LookupAfterUpdate(coll, i, bucket, room, date);
    }
  }

  /** Appending a document for a room and date that has none changes what that find returns and no other. */
  lemma OnlyThatFindAfterInsert(coll: seq<Bucket>, bucket: Bucket)
    requires Messages.FindBucket(coll, bucket.roomID, bucket.date).None?
    ensures OnlyThatFindChanges(coll + [bucket], coll, bucket)
  {
    var extended := coll + [bucket];
    forall room: string, date: string
      ensures FindsInstead(extended, coll, bucket, room, date)
    {
      MessageDays.FindAppended(coll, bucket, room, date);
    }
  }

  function MessagesIn(bucket: Option<Bucket>): seq<ChatMessage>
  {
    if bucket.Some? then bucket.value.messages else []
  }

  /** The first message with the identifier stands here, and the user has not read it. */
  ghost predicate UnreadAt(msgs: seq<ChatMessage>, k: nat, id: string, user: string)
  {
    k < |msgs| && msgs[k].id == id && user !in msgs[k].readBy && forall j :: 0 <= j < k ==> msgs[j].id != id
  }

  /** Some message is to be marked, or none is. */
  lemma UnreadAtFound(msgs: seq<ChatMessage>, id: string, user: string)
    ensures forall k: nat :: UnreadAt(msgs, k, id, user) <==> FindMessage(msgs, id) == Some(k) && user !in msgs[k].readBy
  {
  }

  class ChatMessageRepository {
    const zone: Zone
    var coll: seq<Bucket>

    constructor (zone: Zone)
      ensures coll == [] && this.zone == zone
    {
      this.zone := zone;
      coll := [];
    }

    method FindBucket(roomID: string, date: string) returns (bucket: Option<Bucket>)
      ensures bucket == Lookup(coll, roomID, date)
    {
      var found := Messages.FindBucket(coll, roomID, date);
      return if found.Some? then Some(coll[found.value]) else None;
    }

    method InsertMessages(bucket: Bucket, w: Write) returns (ok: bool)
      modifies this
      ensures ok <==> w.Succeeds?
      ensures coll == if Effective(w) then old(coll) + [bucket] else old(coll)
    {
      if Effective(w) {
        coll := coll + [bucket];
      }
      return w.Succeeds?;
    }

    /** Overwrites the first document of the bucket's room and date, if there is one. */
    method UpdateBucket(bucket: Bucket, w: Write) returns (ok: bool)
      modifies this
      ensures ok <==> w.Succeeds?
      ensures coll ==
        match Messages.FindBucket(old(coll), bucket.roomID, bucket.date)
        case Some(i) => if Effective(w) then old(coll)[i := bucket] else old(coll)
        case None => old(coll)
      ensures Effective(w) && Lookup(old(coll), bucket.roomID, bucket.date).Some? ==>
        OnlyThatFindChanges(coll, old(coll), bucket)
    {
      var found := Messages.FindBucket(coll, bucket.roomID, bucket.date);
      if found.Some? {
        OnlyThatFind(coll, found.value, bucket);
      }
      if Effective(w) && found.Some? {
        coll := coll[found.value := bucket];
      }
      return w.Succeeds?;
    }

    method FindEarliestUnread(user: string, roomID: string) returns (bucket: Option<Bucket>)
      ensures bucket == Unread.FindEarliestUnread(MessageQueries.FindByRoom(coll, roomID), user)
      ensures bucket.None? <==> Unread.RoomAllRead(coll, user, roomID)
      ensures bucket.Some? ==> Unread.IsEarliestBucket(coll, user, roomID, bucket.value)
    {
      Unread.ScanOnCollection(coll, user, roomID, MessageQueries.FindByRoom(coll, roomID));
      bucket := ScanForUnread(MessageQueries.FindByRoom(coll, roomID), user);
    }

    method ScanForUnread(buckets: seq<Bucket>, user: string) returns (bucket: Option<Bucket>)
      ensures bucket == Unread.FindEarliestUnread(buckets, user)
    {
      for i := 0 to |buckets|
        invariant Unread.FirstUnread(buckets[..i], user).None?
      {
        assert buckets[..i + 1][..i] == buckets[..i];
        var unread := HasUnread(buckets[i].messages, user);
        if unread {
          FirstUnreadStays(buckets, i + 1, user);
          return Some(buckets[i]);
        }
      }
      assert buckets[..|buckets|] == buckets;
      return None;
    }

    method HasUnread(messages: seq<ChatMessage>, user: string) returns (unread: bool)
      ensures unread <==> Unread.UnreadIn(messages, user) != []
    {
      Unread.NothingUnread(messages, user);
      for i := 0 to |messages|
        invariant forall k :: 0 <= k < i ==> user in messages[k].readBy
      {
        var read := Contains(messages[i].readBy, user);
        if !read {
          return true;
        }
      }
      return false;
    }

    method FindMessagesBefore(roomID: string, before: nat) returns (r: Result<seq<ChatMessage>>)
      ensures r == MessageQueries.FindMessagesBefore(zone, coll, roomID, before)
      ensures r.Success? <==> Lookup(coll, roomID, zone(before)).Some?
      ensures r.Success? ==> forall m ::
        m in r.value <==> m in MessagesIn(Lookup(coll, roomID, zone(before))) && m.timestamp < before
    {
      var bucket := FindBucket(roomID, zone(before));
      if bucket.None? {
        return Failure("no documents");
      }
      var messages, all := [], bucket.value.messages;
      for i := 0 to |all|
        invariant messages == MessageQueries.SentBefore(all[..i], before)
      {
        assert all[..i + 1][..i] == all[..i];
        if all[i].timestamp < before {
          messages := messages + [all[i]];
        }
      }
      assert all[..|all|] == all;
      MessageQueries.SentBeforeMembers(all, before);
      return Success(messages);
    }

    method CountUnreadMessagesByRoom(user: string) returns (report: seq<Unread.RoomUnread>)
      ensures Unread.IsReport(report, coll, user)
      ensures forall i, j :: 0 <= i < j < |report| ==> report[i].latest >= report[j].latest
    {
      Unread.SortIsLatestFirst(Unread.UnreadGroups(coll, user));
      return Unread.SortByLatest(Unread.UnreadGroups(coll, user));
    }
  }

  /** Later buckets do not change which one is first. */
  lemma {:induction false} FirstUnreadStays(bs: seq<Bucket>, n: nat, user: string)
    requires n <= |bs| && Unread.FirstUnread(bs[..n], user).Some?
    ensures Unread.FirstUnread(bs, user) == Unread.FirstUnread(bs[..n], user)
    decreases |bs|
  {
    if n == |bs| {
      assert bs[..n] == bs;
    } else {
      assert bs[..|bs| - 1][..n] == bs[..n];
      FirstUnreadStays(bs[..|bs| - 1], n, user);
    }
  }

  datatype Notice = Notice(channel: string, message: ChatMessage)

  /** Publish attempts, in order; a failed one is counted like any other. */
  class PubSub {
    var attempts: seq<Notice>

    constructor ()
      ensures attempts == []
    {
      attempts := [];
    }

    method Publish(channel: string, message: ChatMessage, reachable: bool) returns (ok: bool)
      modifies this
      ensures ok == reachable && attempts == old(attempts) + [Notice(channel, message)]
    {
      attempts := attempts + [Notice(channel, message)];
      return reachable;
    }
  }

  function NoticesTo(members: seq<string>, message: ChatMessage): seq<Notice>
  {
    seq(|members|, k requires 0 <= k < |members| => Notice(members[k], message))
  }

  /** The bucket with one more reader on one message, all else as it was. */
  function ReadBucket(bucket: Option<Bucket>, k: nat, user: string): Bucket
    requires k < |MessagesIn(bucket)|
  {
    var b := bucket.value;
    var m := b.messages[k];
    Bucket(b.roomID, b.date,
           b.messages[k := ChatMessage(m.id, m.sender, m.content, m.timestamp, m.readBy + [user])])
  }

  /** The date's bucket has a message to mark. */
  ghost predicate CanMark(coll: seq<Bucket>, room: string, date: string, id: string, user: string)
  {
    exists k: nat :: UnreadAt(MessagesIn(Lookup(coll, room, date)), k, id, user)
  }

  /** That message has one more reader, and no other find changed. */
  ghost predicate MarkedOnce(before: seq<Bucket>, after: seq<Bucket>, room: string, date: string, id: string,
                             user: string)
  {
    exists k: nat ::
      && UnreadAt(MessagesIn(Lookup(before, room, date)), k, id, user)
      && OnlyThatFindChanges(after, before, ReadBucket(Lookup(before, room, date), k, user))
  }

  lemma CanMarkFound(coll: seq<Bucket>, room: string, date: string, id: string, user: string)
    ensures
      var msgs := MessagesIn(Lookup(coll, room, date));
      var found := FindMessage(msgs, id);
      CanMark(coll, room, date, id, user) <==> found.Some? && user !in msgs[found.value].readBy
  {
    var msgs := MessagesIn(Lookup(coll, room, date));
    UnreadAtFound(msgs, id, user);
    var found := FindMessage(msgs, id);
    if found.Some? && user !in msgs[found.value].readBy {
      assert UnreadAt(msgs, found.value, id, user);
    }
  }

  lemma MarkedByUpdate(before: seq<Bucket>, after: seq<Bucket>, room: string, date: string, id: string, user: string)
    requires Lookup(before, room, date).Some?
    requires
      var b := Lookup(before, room, date).value;
      var found := FindMessage(b.messages, id);
      && found.Some? && user !in b.messages[found.value].readBy
      && OnlyThatFindChanges(after, before, b.(messages := WithReader(b.messages, found.value, user)))
    ensures MarkedOnce(before, after, room, date, id, user)
  {
    var b := Lookup(before, room, date).value;
    UnreadAtFound(b.messages, id, user);
    assert UnreadAt(MessagesIn(Lookup(before, room, date)), FindMessage(b.messages, id).value, id, user);
  }

  class SendMessageUseCase {
    const msgRepo: ChatMessageRepository
    const pubSub: PubSub

    constructor (msgRepo: ChatMessageRepository, pubSub: PubSub)
      ensures this.msgRepo == msgRepo && this.pubSub == pubSub
    {
      this.msgRepo, this.pubSub := msgRepo, pubSub;
    }

    /**
     * Sends a message. Storing it is one step on the collection; after a stored message exactly the other members are
     * published to, whichever of them are reachable.
     */
    method Execute(rooms: seq<Rooms.ChatRoom>, roomID: string, sender: string, content: string, id: string, now: nat,
                   write: Write, reachable: string -> bool)
      returns (r: Result<string>)
      modifies msgRepo, pubSub
      ensures (msgRepo.coll, r) ==
        Step(msgRepo.zone, old(msgRepo.coll),
             Send(Rooms.FindByID(rooms, roomID).Some?, roomID, sender, content, id, now, write))
      ensures r.Success? <==> Rooms.FindByID(rooms, roomID).Some? && write.Succeeds?
      ensures r.Success? ==> r.value == id
      ensures
        if Rooms.FindByID(rooms, roomID).Some? && Effective(write) then
          var today := msgRepo.zone(now);
          var earlier := MessagesIn(Lookup(old(msgRepo.coll), roomID, today));
          OnlyThatFindChanges(msgRepo.coll, old(msgRepo.coll),
                              Bucket(roomID, today, earlier + [ChatMessage(id, sender, content, now, [sender])]))
        else msgRepo.coll == old(msgRepo.coll)
      ensures pubSub.attempts == old(pubSub.attempts) +
        if r.Success? then
          NoticesTo(Rooms.Without(rooms[Rooms.FindByID(rooms, roomID).value].members, sender),
                    ChatMessage(id, sender, content, now, [sender]))
        else []
      ensures r.Success? ==>
        var members := rooms[Rooms.FindByID(rooms, roomID).value].members;
        Rooms.NoDuplicates(members) ==> forall notice ::
          multiset(pubSub.attempts[|old(pubSub.attempts)|..])[notice] ==
            if IsFor(notice, members, sender, ChatMessage(id, sender, content, now, [sender])) then 1 else 0
    {
      var found := Rooms.FindByID(rooms, roomID);
      if found.None? {
        return Failure("room not found");
      }
      var today := msgRepo.zone(now);
      var message := ChatMessage(id, sender, content, now, [sender]);
      var bucket := msgRepo.FindBucket(roomID, today);
      var ok;
      if bucket.None? {
        OnlyThatFindAfterInsert(msgRepo.coll, Bucket(roomID, today, [message]));
        assert [] + [message] == [message];
        ok := msgRepo.InsertMessages(Bucket(roomID, today, [message]), write);
      } else {
        ok := msgRepo.UpdateBucket(bucket.value.(messages := bucket.value.messages + [message]), write);
      }
      if !ok {
        return Failure("store message");
      }
      ghost var before := pubSub.attempts;
      PublishToOthers(rooms[found.value].members, sender, message, reachable);
      assert pubSub.attempts[|before|..] == NoticesTo(Rooms.Without(rooms[found.value].members, sender), message);
      NoticesOnceEach(rooms[found.value].members, sender, message);
      return Success(id);
    }

    method PublishToOthers(members: seq<string>, sender: string, message: ChatMessage, reachable: string -> bool)
      modifies pubSub
      ensures pubSub.attempts == old(pubSub.attempts) + NoticesTo(Rooms.Without(members, sender), message)
    {
      for i := 0 to |members|
        invariant pubSub.attempts == old(pubSub.attempts) + NoticesTo(Rooms.Without(members[..i], sender), message)
      {
        assert members[..i + 1][..i] == members[..i];
        if members[i] != sender {
          var sent := pubSub.Publish(members[i], message, reachable(members[i]));
        }
      }
      assert members[..|members|] == members;
    }

    method MarkRead(roomID: string, messageID: string, user: string, now: nat, write: Write) returns (r: Result<string>)
      modifies msgRepo
      ensures (msgRepo.coll, r) ==
        Step(msgRepo.zone, old(msgRepo.coll), Messages.MarkRead(roomID, messageID, user, now, write))
      ensures r.Success? <==>
        write.Succeeds? && CanMark(old(msgRepo.coll), roomID, msgRepo.zone(now), messageID, user)
      ensures
        if Effective(write) && CanMark(old(msgRepo.coll), roomID, msgRepo.zone(now), messageID, user) then
          MarkedOnce(old(msgRepo.coll), msgRepo.coll, roomID, msgRepo.zone(now), messageID, user)
        else msgRepo.coll == old(msgRepo.coll)
    {
      ghost var before, today := msgRepo.coll, msgRepo.zone(now);
      var bucket := msgRepo.FindBucket(roomID, msgRepo.zone(now));
      if bucket.None? {
        return Failure("bucket not found");
      }
      CanMarkFound(before, roomID, today, messageID, user);
      var messages, updated := AddReader(bucket.value.messages, messageID, user);
      if !updated {
        return Failure("message not found or already marked");
      }
      var ok := msgRepo.UpdateBucket(bucket.value.(messages := messages), write);
      if Effective(write) {
        MarkedByUpdate(before, msgRepo.coll, roomID, today, messageID, user);
      }
      return if ok then Success("") else Failure("store message");
    }

    /** Adds the user to the first message of that identifier, unless the user is there already. */
    method AddReader(given: seq<ChatMessage>, messageID: string, user: string)
      returns (messages: seq<ChatMessage>, updated: bool)
      ensures var k := FindMessage(given, messageID);
              && updated == (k.Some? && user !in given[k.value].readBy)
              && messages == if updated then WithReader(given, k.value, user) else given
    {
      messages, updated := given, false;
      for i := 0 to |given|
        invariant FindMessage(given, messageID).Some? ==> i <= FindMessage(given, messageID).value
        invariant forall k :: 0 <= k < i ==> given[k].id != messageID
        invariant messages == given && !updated
      {
        if given[i].id == messageID {
          var read := Contains(given[i].readBy, user);
          if !read {
            messages := messages[i := messages[i].(readBy := messages[i].readBy + [user])];
            updated := true;
          }
          return;
        }
      }
    }
  }

  // ----- What was sent can be read -----

  /** Marking the last message of a day's bucket, when it alone has the identifier. */
  lemma LastCanBeMarked(z: Zone, coll: seq<Bucket>, room: string, before: seq<ChatMessage>, m: ChatMessage, user: string,
                        later: nat)
    requires MessagesIn(Lookup(coll, room, z(later))) == before + [m] && user !in m.readBy
    requires forall k :: 0 <= k < |before| ==> before[k].id != m.id
    ensures
      var (read, reply) := Step(z, coll, Messages.MarkRead(room, m.id, user, later, Succeeds));
      && reply.Success?
      && MessagesIn(Lookup(read, room, z(later))) == before + [m.(readBy := m.readBy + [user])]
  {
    var i := Messages.FindBucket(coll, room, z(later)).value;
    assert (before + [m])[|before|] == m && forall k :: 0 <= k < |before| ==> (before + [m])[k] == before[k];
    UnreadAtFound(before + [m], m.id, user);
    assert UnreadAt(before + [m], |before|, m.id, user);
    MessageDays.ReaderAtEnd(before, m, user);
    LookupAfterUpdate(coll, i, coll[i].(messages := WithReader(coll[i].messages, |before|, user)), room, z(later));
  }

  /**
   * After a stored send, whoever is not the sender can mark the message by the identifier that was returned, on the same
   * date, if no earlier message of the day has it; the message then has exactly the two readers.
   */
  lemma SentCanBeMarked(z: Zone, coll: seq<Bucket>, room: string, sender: string, content: string, id: string, now: nat,
                        write: Write, user: string, later: nat)
    requires Effective(write) && user != sender && z(later) == z(now)
    requires forall k :: 0 <= k < |MessagesIn(Lookup(coll, room, z(now)))| ==>
               MessagesIn(Lookup(coll, room, z(now)))[k].id != id
    ensures
      var sent := Step(z, coll, Send(true, room, sender, content, id, now, write)).0;
      var (read, reply) := Step(z, sent, Messages.MarkRead(room, id, user, later, Succeeds));
      && reply.Success?
      && MessagesIn(Lookup(read, room, z(now))) ==
           MessagesIn(Lookup(coll, room, z(now))) + [ChatMessage(id, sender, content, now, [sender, user])]
  {
    var before := MessagesIn(Lookup(coll, room, z(now)));
    var e := Send(true, room, sender, content, id, now, write);
    SendIsLookedUp(z, coll, e);
    LastCanBeMarked(z, Step(z, coll, e).0, room, before, ChatMessage(id, sender, content, now, [sender]), user, later);
    assert [sender] + [user] == [sender, user];
  }

  lemma SendIsLookedUp(z: Zone, coll: seq<Bucket>, e: Event)
    requires e.Send? && e.roomFound && Effective(e.write)
    ensures MessagesIn(Lookup(Step(z, coll, e).0, e.roomID, z(e.now))) ==
      MessagesIn(Lookup(coll, e.roomID, z(e.now))) + [ChatMessage(e.id, e.sender, e.content, e.now, [e.sender])]
  {
    match Messages.FindBucket(coll, e.roomID, z(e.now))
    case None =>
      MessageDays.FindAppended(coll, Bucket(e.roomID, z(e.now), [NewMessage(e)]), e.roomID, z(e.now));
    case Some(i) =>
      LookupAfterUpdate(coll, i, coll[i].(messages := coll[i].messages + [NewMessage(e)]), e.roomID, z(e.now));
  }

  // ----- Who is told -----

  /** The notice is about this message and goes to a member other than the sender. */
  predicate IsFor(notice: Notice, members: seq<string>, sender: string, message: ChatMessage)
  {
    notice.message == message && notice.channel in members && notice.channel != sender
  }

  lemma {:induction false} OnceEach(members: seq<string>, sender: string, member: string)
    requires Rooms.NoDuplicates(members)
    ensures multiset(Rooms.Without(members, sender))[member] == if member in members && member != sender then 1 else 0
  {
    if members != [] {
      var front, last := members[..|members| - 1], members[|members| - 1];
      assert Rooms.NoDuplicates(front);
      OnceEach(front, sender, member);
      assert members == front + [last];
      assert last !in front;
    }
  }

  /** A notice occurs as often as its channel, if it is about the message. */
  lemma {:induction false} NoticesCount(channels: seq<string>, message: ChatMessage, notice: Notice)
    ensures multiset(NoticesTo(channels, message))[notice] ==
      if notice.message == message then multiset(channels)[notice.channel] else 0
  {
    if channels != [] {
      var front, last := channels[..|channels| - 1], channels[|channels| - 1];
      NoticesCount(front, message, notice);
      assert channels == front + [last];
      assert NoticesTo(channels, message) == NoticesTo(front, message) + [Notice(last, message)];
    }
  }

  lemma NoticesOnceEach(members: seq<string>, sender: string, message: ChatMessage)
    ensures Rooms.NoDuplicates(members) ==> forall notice ::
      multiset(NoticesTo(Rooms.Without(members, sender), message))[notice] ==
        if IsFor(notice, members, sender, message) then 1 else 0
  {
    if Rooms.NoDuplicates(members) {
      forall notice
        ensures multiset(NoticesTo(Rooms.Without(members, sender), message))[notice] ==
          if IsFor(notice, members, sender, message) then 1 else 0
      {
        NoticesCount(Rooms.Without(members, sender), message, notice);
        OnceEach(members, sender, notice.channel);
      }
    }
  }

  /**
   * In every reachable set of rooms, the notices of a message stored for a group are exactly one to each current member
   * other than its sender, and no others.
   */
  lemma EveryOtherMemberOnce(history: seq<Rooms.Event>, i: nat, sender: string, message: ChatMessage, notice: Notice)
    requires i < |Rooms.Run(Rooms.Init, history).rooms|
    requires Rooms.Run(Rooms.Init, history).rooms[i].roomType != Rooms.Private
    ensures var rooms := Rooms.Run(Rooms.Init, history).rooms;
            && Rooms.FindByID(rooms, rooms[i].id) == Some(i) && Rooms.NoDuplicates(rooms[i].members)
            && multiset(NoticesTo(Rooms.Without(rooms[i].members, sender), message))[notice] ==
                 if IsFor(notice, rooms[i].members, sender, message) then 1 else 0
  {
    Rooms.RunKeepsInv(history);
    var rooms := Rooms.Run(Rooms.Init, history).rooms;
    Rooms.FindUnique(rooms, i);
    NoticesOnceEach(rooms[i].members, sender, message);
  }
}

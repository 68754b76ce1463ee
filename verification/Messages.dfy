/** Chat messages kept in one document per room and day, and the per-room log they stand for. */
module Messages {
  import opened Wrappers
  import opened Lex
  import opened Calendar

  datatype ChatMessage = ChatMessage(id: string, sender: string, content: string, timestamp: nat, readBy: seq<string>)

  datatype Bucket = Bucket(roomID: string, date: string, messages: seq<ChatMessage>)

  /** The date text of a clock reading in the server's time zone. */
  type Zone = nat -> string

  /** Up to a moment, later readings never carry a date that sorts earlier. */
  ghost predicate NeverBack(z: Zone, until: nat)
  {
    forall s: nat, t: nat :: s <= t <= until ==> AtMost(z(s), z(t))
  }

  /** Dates in coordinated universal time behave so through the year 9999. */
  lemma UtcNeverBack(until: nat)
    requires FourDigitYear(until)
    ensures NeverBack(DateString, until)
  {
    forall s: nat, t: nat | s <= t <= until
      ensures AtMost(DateString(s), DateString(t))
    {
      EarlierIsFourDigit(t, until);
      DateStringMonotone(s, t);
    }
  }

  /** Sends carry whether the room was found, the new message's identifier and one clock reading. */
  datatype Event =
    | Send(roomFound: bool, roomID: string, sender: string, content: string, id: string, now: nat, write: Write)
    | MarkRead(roomID: string, messageID: string, user: string, now: nat, write: Write)

  // ----- The collection -----

  /** The first document for a room and date. */
  function FindBucket(coll: seq<Bucket>, roomID: string, date: string): (r: Option<nat>)
    ensures r.Some? ==> r.value < |coll| && coll[r.value].roomID == roomID && coll[r.value].date == date
    ensures r.None? ==> forall i :: 0 <= i < |coll| ==> coll[i].roomID != roomID || coll[i].date != date
  {
    if coll == [] then None
    else match FindBucket(coll[..|coll| - 1], roomID, date)
      case Some(i) => Some(i)
      case None => if coll[|coll| - 1].roomID == roomID && coll[|coll| - 1].date == date then Some(|coll| - 1) else None
  }

  /** The first message with this identifier. */
  function FindMessage(msgs: seq<ChatMessage>, id: string): (r: Option<nat>)
    ensures r.Some? ==> r.value < |msgs| && msgs[r.value].id == id
    ensures r.Some? ==> forall k :: 0 <= k < r.value ==> msgs[k].id != id
    ensures r.None? ==> forall k :: 0 <= k < |msgs| ==> msgs[k].id != id
  {
    if msgs == [] then None
    else match FindMessage(msgs[..|msgs| - 1], id)
      case Some(k) => Some(k)
      case None => if msgs[|msgs| - 1].id == id then Some(|msgs| - 1) else None
  }

  function NewMessage(e: Event): ChatMessage
    requires e.Send?
  {
    ChatMessage(e.id, e.sender, e.content, e.now, [e.sender])
  }

  function WithReader(msgs: seq<ChatMessage>, k: nat, user: string): seq<ChatMessage>
    requires k < |msgs|
  {
    msgs[k := msgs[k].(readBy := msgs[k].readBy + [user])]
  }

  function ExecuteSend(z: Zone, coll: seq<Bucket>, e: Event): (seq<Bucket>, Result<string>)
    requires e.Send?
  {
    if !e.roomFound then (coll, Failure("room not found"))
    else
      var today := z(e.now);
      var stored := match FindBucket(coll, e.roomID, today)
        case None => coll + [Bucket(e.roomID, today, [NewMessage(e)])]
        case Some(i) => coll[i := coll[i].(messages := coll[i].messages + [NewMessage(e)])];
      (if Effective(e.write) then stored else coll, if e.write.Succeeds? then Success(e.id) else Failure("store message"))
  }

  function ExecuteMarkRead(z: Zone, coll: seq<Bucket>, e: Event): (seq<Bucket>, Result<string>)
    requires e.MarkRead?
  {
    match FindBucket(coll, e.roomID, z(e.now))
    case None => (coll, Failure("bucket not found"))
    case Some(i) =>
      match FindMessage(coll[i].messages, e.messageID)
      case None => (coll, Failure("message not found or already marked"))
      case Some(k) =>
        if e.user in coll[i].messages[k].readBy then (coll, Failure("message not found or already marked"))
        else
          (if Effective(e.write) then coll[i := coll[i].(messages := WithReader(coll[i].messages, k, e.user))] else coll,
           if e.write.Succeeds? then Success("") else Failure("store message"))
  }

  function Step(z: Zone, coll: seq<Bucket>, e: Event): (seq<Bucket>, Result<string>)
  {
    if e.Send? then ExecuteSend(z, coll, e) else ExecuteMarkRead(z, coll, e)
  }

  function Run(z: Zone, events: seq<Event>): seq<Bucket>
  {
    if events == [] then [] else Step(z, Run(z, events[..|events| - 1]), events[|events| - 1]).0
  }

  // ----- The log of one room -----

  /** The first message of the log that was sent on the date and has the identifier. */
  function FindInLog(z: Zone, log: seq<ChatMessage>, date: string, id: string): (r: Option<nat>)
    ensures r.Some? ==> r.value < |log|
  {
    if log == [] then None
    else match FindInLog(z, log[..|log| - 1], date, id)
      case Some(k) => Some(k)
      case None =>
        if z(log[|log| - 1].timestamp) == date && log[|log| - 1].id == id then Some(|log| - 1) else None
  }

  /** The message a mark-read call finds unread, if any. */
  function Markable(z: Zone, log: seq<ChatMessage>, e: Event): (r: Option<nat>)
    requires e.MarkRead?
    ensures r.Some? ==> r.value < |log| && e.user !in log[r.value].readBy
  {
    match FindInLog(z, log, z(e.now), e.messageID)
    case Some(k) => if e.user in log[k].readBy then None else Some(k)
    case None => None
  }

  function LogStep(z: Zone, log: seq<ChatMessage>, room: string, e: Event): seq<ChatMessage>
  {
    if e.roomID != room || !Effective(e.write) then log
    else if e.Send? then
      if e.roomFound then log + [NewMessage(e)] else log
    else match Markable(z, log, e)
      case Some(k) => WithReader(log, k, e.user)
      case None => log
  }

  /** All messages ever stored for a room, in send order, with who has read them. */
  function Log(z: Zone, events: seq<Event>, room: string): seq<ChatMessage>
  {
    if events == [] then [] else LogStep(z, Log(z, events[..|events| - 1], room), room, events[|events| - 1])
  }

  // ----- What every step keeps -----

  ghost predicate BucketOk(z: Zone, b: Bucket, clock: nat)
  {
    && b.messages != []
    && (forall k :: 0 <= k < |b.messages| ==> z(b.messages[k].timestamp) == b.date && b.messages[k].timestamp <= clock)
    && (forall j, k :: 0 <= j < k < |b.messages| ==> b.messages[j].timestamp <= b.messages[k].timestamp)
  }

  /** One bucket per date, and later buckets of the room carry later dates. */
  ghost predicate DatesAscend(coll: seq<Bucket>, room: string)
  {
    forall i, j :: 0 <= i < j < |coll| && coll[i].roomID == room == coll[j].roomID ==> Less(coll[i].date, coll[j].date)
  }

  ghost predicate Inv(z: Zone, coll: seq<Bucket>, room: string, clock: nat)
  {
    && DatesAscend(coll, room)
    && forall i :: 0 <= i < |coll| && coll[i].roomID == room ==> BucketOk(z, coll[i], clock)
  }

  /** The clock never goes back. */
  ghost predicate Chronological(events: seq<Event>, now: nat)
  {
    && (forall i, j :: 0 <= i < j < |events| ==> events[i].now <= events[j].now)
    && (forall i :: 0 <= i < |events| ==> events[i].now <= now)
  }

  /** No message carries a date that sorts before an earlier message's. */
  ghost predicate DatesForward(z: Zone, log: seq<ChatMessage>)
  {
    forall j, k :: 0 <= j < k < |log| ==> AtMost(z(log[j].timestamp), z(log[k].timestamp))
  }

  // ----- Rows -----

  /** A room's messages in the order its buckets were inserted. */
  function Rows(coll: seq<Bucket>, room: string): seq<ChatMessage>
  {
    if coll == [] then []
    else Rows(coll[..|coll| - 1], room) + if coll[|coll| - 1].roomID == room then coll[|coll| - 1].messages else []
  }

  lemma {:induction false} RowsConcat(a: seq<Bucket>, b: seq<Bucket>, room: string)
    ensures Rows(a + b, room) == Rows(a, room) + Rows(b, room)
  {
    if b == [] {
      assert a + b == a;
    } else {
      RowsConcat(a, b[..|b| - 1], room);
      assert (a + b)[..|a + b| - 1] == a + b[..|b| - 1];
    }
  }

  function Part(b: Bucket, room: string): seq<ChatMessage>
  {
    if b.roomID == room then b.messages else []
  }

  lemma RowsAround(coll: seq<Bucket>, i: nat, room: string)
    requires i < |coll|
    ensures Rows(coll, room) == Rows(coll[..i], room) + Part(coll[i], room) + Rows(coll[i + 1..], room)
  {
    assert coll == coll[..i] + [coll[i]] + coll[i + 1..];
    RowsConcat(coll[..i] + [coll[i]], coll[i + 1..], room);
    RowsConcat(coll[..i], [coll[i]], room);
    assert [coll[i]][..0] == [];
  }

  lemma RowsReplace(coll: seq<Bucket>, i: nat, b: Bucket, room: string)
    requires i < |coll|
    ensures Rows(coll[i := b], room) == Rows(coll[..i], room) + Part(b, room) + Rows(coll[i + 1..], room)
  {
    RowsAround(coll[i := b], i, room);
    assert coll[i := b][..i] == coll[..i] && coll[i := b][i + 1..] == coll[i + 1..];
  }

  // ----- One day of the log -----

  function DayPart(z: Zone, log: seq<ChatMessage>, date: string): seq<ChatMessage>
  {
    if log == [] then []
    else
      DayPart(z, log[..|log| - 1], date)
      + if z(log[|log| - 1].timestamp) == date then [log[|log| - 1]] else []
  }

  ghost predicate AllOn(z: Zone, log: seq<ChatMessage>, date: string)
  {
    forall k :: 0 <= k < |log| ==> z(log[k].timestamp) == date
  }

  ghost predicate NoneOn(z: Zone, log: seq<ChatMessage>, date: string)
  {
    forall k :: 0 <= k < |log| ==> z(log[k].timestamp) != date
  }

  lemma {:induction false} DayPartConcat(z: Zone, a: seq<ChatMessage>, b: seq<ChatMessage>, date: string)
    ensures DayPart(z, a + b, date) == DayPart(z, a, date) + DayPart(z, b, date)
  {
    if b == [] {
      assert a + b == a;
    } else {
      DayPartConcat(z, a, b[..|b| - 1], date);
      assert (a + b)[..|a + b| - 1] == a + b[..|b| - 1];
    }
  }

  lemma {:induction false} DayPartExtremes(z: Zone, log: seq<ChatMessage>, date: string)
    ensures AllOn(z, log, date) ==> DayPart(z, log, date) == log
    ensures NoneOn(z, log, date) ==> DayPart(z, log, date) == []
  {
    if log != [] {
      DayPartExtremes(z, log[..|log| - 1], date);
      assert log == log[..|log| - 1] + [log[|log| - 1]];
    }
  }

  // ----- How the log grows -----

  /** The log only grows, and its messages keep their times. */
  lemma LogStepKeepsTimes(z: Zone, log: seq<ChatMessage>, room: string, e: Event)
    ensures |log| <= |LogStep(z, log, room, e)|
    ensures forall k :: 0 <= k < |log| ==> LogStep(z, log, room, e)[k].timestamp == log[k].timestamp
  {
  }

  lemma EarlierForward(z: Zone, log: seq<ChatMessage>, room: string, e: Event)
    requires DatesForward(z, LogStep(z, log, room, e))
    ensures DatesForward(z, log)
  {
    LogStepKeepsTimes(z, log, room, e);
    forall j, k | 0 <= j < k < |log|
      ensures AtMost(z(log[j].timestamp), z(log[k].timestamp))
    {
      assert LogStep(z, log, room, e)[j].timestamp == log[j].timestamp;
    }
  }

  /** Every message's time is some event's, in the order of the events. */
  lemma {:induction false} LogTimes(z: Zone, events: seq<Event>, now: nat, room: string)
    requires Chronological(events, now)
    ensures forall k :: 0 <= k < |Log(z, events, room)| ==> Log(z, events, room)[k].timestamp <= now
    ensures forall j, k :: 0 <= j < k < |Log(z, events, room)| ==>
              Log(z, events, room)[j].timestamp <= Log(z, events, room)[k].timestamp
  {
    if events != [] {
      var front, e := events[..|events| - 1], events[|events| - 1];
      LogTimes(z, front, e.now, room);
      LogStepKeepsTimes(z, Log(z, front, room), room, e);
    }
  }

  /** A clock whose dates never go back gives every room's log dates that go forward. */
  lemma ZoneForward(z: Zone, events: seq<Event>, now: nat, room: string)
    requires Chronological(events, now) && NeverBack(z, now)
    ensures DatesForward(z, Log(z, events, room))
  {
    LogTimes(z, events, now, room);
  }
}

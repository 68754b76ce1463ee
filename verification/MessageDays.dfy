/** In every time zone and on every clock, each bucket is its day of the room's log. */
module MessageDays {
  import opened Wrappers
  import opened Lex
  import opened Messages

  ghost predicate OnePerDate(coll: seq<Bucket>)
  {
    forall i, j :: 0 <= i < j < |coll| && coll[i].roomID == coll[j].roomID ==> coll[i].date != coll[j].date
  }

  /** The bucket of a room and date holds what the log has of that day; without a bucket the log has nothing. */
  ghost predicate DayKept(z: Zone, coll: seq<Bucket>, log: seq<ChatMessage>, room: string, date: string)
  {
    match FindBucket(coll, room, date)
    case None => DayPart(z, log, date) == []
    case Some(i) => coll[i].messages == DayPart(z, log, date) != []
  }

  // ----- Finding a bucket in a changed collection -----

  lemma FindAppended(coll: seq<Bucket>, b: Bucket, room: string, date: string)
    ensures FindBucket(coll + [b], room, date) ==
      if FindBucket(coll, room, date).Some? then FindBucket(coll, room, date)
      else if b.roomID == room && b.date == date then Some(|coll|) else None
  {
    assert (coll + [b])[..|coll|] == coll;
  }

  lemma {:induction false} FindReplaced(coll: seq<Bucket>, i: nat, b: Bucket, room: string, date: string)
    requires i < |coll| && b.roomID == coll[i].roomID && b.date == coll[i].date
    ensures FindBucket(coll[i := b], room, date) == FindBucket(coll, room, date)
  {
    var front := coll[..|coll| - 1];
    if i < |front| {
      FindReplaced(front, i, b, room, date);
      assert coll[i := b][..|coll| - 1] == front[i := b];
    } else {
      assert coll[i := b][..|coll| - 1] == front;
    }
  }

  /** With one bucket per date, a bucket is the one found for its room and date. */
  lemma FindOnly(coll: seq<Bucket>, i: nat)
    requires OnePerDate(coll) && i < |coll|
    ensures FindBucket(coll, coll[i].roomID, coll[i].date) == Some(i)
  {
  }

  // ----- One day of a changed log -----

  lemma DayAfterSend(z: Zone, log: seq<ChatMessage>, m: ChatMessage, date: string)
    ensures DayPart(z, log + [m], date) ==
      if z(m.timestamp) == date then DayPart(z, log, date) + [m] else DayPart(z, log, date)
  {
    assert (log + [m])[..|log|] == log;
  }

  /** The first match in the log is the first match in its day. */
  lemma {:induction false} FindInDay(z: Zone, log: seq<ChatMessage>, date: string, id: string)
    ensures FindInLog(z, log, date, id).Some? <==> FindMessage(DayPart(z, log, date), id).Some?
    ensures FindInLog(z, log, date, id).Some? ==>
      log[FindInLog(z, log, date, id).value] == DayPart(z, log, date)[FindMessage(DayPart(z, log, date), id).value]
  {
    if log != [] {
      var front, last := log[..|log| - 1], log[|log| - 1];
      FindInDay(z, front, date, id);
      if z(last.timestamp) == date {
        var day := DayPart(z, log, date);
        assert day[..|day| - 1] == DayPart(z, front, date);
      } else {
        assert DayPart(z, log, date) == DayPart(z, front, date);
      }
    }
  }

  lemma ReaderBefore(d: seq<ChatMessage>, m: ChatMessage, k: nat, user: string)
    requires k < |d|
    ensures WithReader(d + [m], k, user) == WithReader(d, k, user) + [m]
  {
  }

  lemma ReaderAtEnd(d: seq<ChatMessage>, m: ChatMessage, user: string)
    ensures WithReader(d + [m], |d|, user) == d + [m.(readBy := m.readBy + [user])]
  {
  }

  lemma FindWithOneMore(d: seq<ChatMessage>, m: ChatMessage, id: string)
    ensures FindMessage(d + [m], id) ==
      if FindMessage(d, id).Some? then FindMessage(d, id) else if m.id == id then Some(|d|) else None
  {
    assert (d + [m])[..|d|] == d;
  }

  lemma FindInLogWithOneMore(z: Zone, log: seq<ChatMessage>, m: ChatMessage, date: string, id: string)
    ensures FindInLog(z, log + [m], date, id) ==
      if FindInLog(z, log, date, id).Some? then FindInLog(z, log, date, id)
      else if z(m.timestamp) == date && m.id == id then Some(|log|) else None
  {
    assert (log + [m])[..|log|] == log;
  }

  /** What adding a reader to the first match of a day does to the log's days. */
  ghost predicate ReaderKeepsDays(z: Zone, log: seq<ChatMessage>, date: string, id: string, user: string, other: string)
  {
    var day := DayPart(z, log, date);
    FindInLog(z, log, date, id).Some? ==>
      && FindMessage(day, id).Some?
      && DayPart(z, WithReader(log, FindInLog(z, log, date, id).value, user), other) ==
           if other == date then WithReader(day, FindMessage(day, id).value, user) else DayPart(z, log, other)
  }

  lemma DayAfterReaderEarlier(z: Zone, log: seq<ChatMessage>, m: ChatMessage, date: string, id: string, user: string,
                              other: string)
    requires ReaderKeepsDays(z, log, date, id, user, other) && FindInLog(z, log, date, id).Some?
    ensures ReaderKeepsDays(z, log + [m], date, id, user, other)
  {
    var k := FindInLog(z, log, date, id).value;
    var day := DayPart(z, log, date);
    FindInLogWithOneMore(z, log, m, date, id);
    FindWithOneMore(day, m, id);
    ReaderBefore(log, m, k, user);
    ReaderBefore(day, m, FindMessage(day, id).value, user);
    DayAfterSend(z, WithReader(log, k, user), m, other);
    DayAfterSend(z, log, m, other);
    DayAfterSend(z, log, m, date);
  }

  lemma DayAfterReaderLast(z: Zone, log: seq<ChatMessage>, m: ChatMessage, date: string, id: string, user: string,
                           other: string)
    requires FindInLog(z, log, date, id).None? && z(m.timestamp) == date && m.id == id
    ensures ReaderKeepsDays(z, log + [m], date, id, user, other)
  {
    FindInDay(z, log, date, id);
    FindInLogWithOneMore(z, log, m, date, id);
    FindWithOneMore(DayPart(z, log, date), m, id);
    ReaderAtEnd(log, m, user);
    ReaderAtEnd(DayPart(z, log, date), m, user);
    DayAfterSend(z, log, m.(readBy := m.readBy + [user]), other);
    DayAfterSend(z, log, m, other);
    DayAfterSend(z, log, m, date);
  }

  /** Adding a reader to the first match changes that day alone, at its first match. */
  lemma {:induction false} DayAfterReader(z: Zone, log: seq<ChatMessage>, date: string, id: string, user: string,
                                          other: string)
    ensures ReaderKeepsDays(z, log, date, id, user, other)
  {
    if log != [] {
      var front, last := log[..|log| - 1], log[|log| - 1];
      DayAfterReader(z, front, date, id, user, other);
      assert log == front + [last];
      if FindInLog(z, front, date, id).Some? {
        DayAfterReaderEarlier(z, front, last, date, id, user, other);
      } else if z(last.timestamp) == date && last.id == id {
        DayAfterReaderLast(z, front, last, date, id, user, other);
      }
    }
  }

  // ----- Every step keeps every day -----

  lemma OtherRoomAppended(z: Zone, coll: seq<Bucket>, log: seq<ChatMessage>, room: string, b: Bucket, date: string)
    requires DayKept(z, coll, log, room, date) && b.roomID != room
    ensures DayKept(z, coll + [b], log, room, date)
  {
    FindAppended(coll, b, room, date);
  }

  lemma OtherRoomReplaced(z: Zone, coll: seq<Bucket>, log: seq<ChatMessage>, room: string, i: nat, b: Bucket,
                          date: string)
    requires DayKept(z, coll, log, room, date) && i < |coll| && b.roomID == coll[i].roomID != room
    requires b.date == coll[i].date
    ensures DayKept(z, coll[i := b], log, room, date)
  {
    FindReplaced(coll, i, b, room, date);
  }

  lemma FirstOfDay(z: Zone, coll: seq<Bucket>, log: seq<ChatMessage>, room: string, m: ChatMessage, date: string)
    requires DayKept(z, coll, log, room, date) && DayKept(z, coll, log, room, z(m.timestamp))
    requires FindBucket(coll, room, z(m.timestamp)).None?
    ensures DayKept(z, coll + [Bucket(room, z(m.timestamp), [m])], log + [m], room, date)
  {
    FindAppended(coll, Bucket(room, z(m.timestamp), [m]), room, date);
    DayAfterSend(z, log, m, date);
  }

  lemma NextOfDay(z: Zone, coll: seq<Bucket>, log: seq<ChatMessage>, room: string, i: nat, m: ChatMessage, date: string)
    requires DayKept(z, coll, log, room, date) && FindBucket(coll, room, z(m.timestamp)) == Some(i)
    ensures DayKept(z, coll[i := coll[i].(messages := coll[i].messages + [m])], log + [m], room, date)
  {
    FindReplaced(coll, i, coll[i].(messages := coll[i].messages + [m]), room, date);
    DayAfterSend(z, log, m, date);
  }

  lemma SendKeepsDays(z: Zone, coll: seq<Bucket>, log: seq<ChatMessage>, room: string, e: Event, date: string)
    requires e.Send? && DayKept(z, coll, log, room, date) && DayKept(z, coll, log, room, z(e.now))
    ensures DayKept(z, Step(z, coll, e).0, LogStep(z, log, room, e), room, date)
  {
    if e.roomFound && Effective(e.write) {
      var m, found := NewMessage(e), FindBucket(coll, e.roomID, z(e.now));
      if found.None? {
        if e.roomID == room {
          FirstOfDay(z, coll, log, room, m, date);
        } else {
          OtherRoomAppended(z, coll, log, room, Bucket(e.roomID, z(e.now), [m]), date);
        }
      } else {
        var i := found.value;
        if e.roomID == room {
          NextOfDay(z, coll, log, room, i, m, date);
        } else {
          OtherRoomReplaced(z, coll, log, room, i, coll[i].(messages := coll[i].messages + [m]), date);
        }
      }
    }
  }

  lemma ReaderOfDay(z: Zone, coll: seq<Bucket>, log: seq<ChatMessage>, room: string, i: nat, today: string, id: string,
                    user: string, date: string)
    requires DayKept(z, coll, log, room, date) && DayKept(z, coll, log, room, today)
    requires FindBucket(coll, room, today) == Some(i)
    requires FindInLog(z, log, today, id).Some? && FindMessage(coll[i].messages, id).Some?
    ensures
      var b := coll[i].(messages := WithReader(coll[i].messages, FindMessage(coll[i].messages, id).value, user));
      DayKept(z, coll[i := b], WithReader(log, FindInLog(z, log, today, id).value, user), room, date)
  {
    var b := coll[i].(messages := WithReader(coll[i].messages, FindMessage(coll[i].messages, id).value, user));
    FindReplaced(coll, i, b, room, date);
    DayAfterReader(z, log, today, id, user, date);
  }

  lemma MarkKeepsDays(z: Zone, coll: seq<Bucket>, log: seq<ChatMessage>, room: string, e: Event, date: string)
    requires e.MarkRead? && DayKept(z, coll, log, room, date) && DayKept(z, coll, log, room, z(e.now))
    ensures DayKept(z, Step(z, coll, e).0, LogStep(z, log, room, e), room, date)
  {
    FindInDay(z, log, z(e.now), e.messageID);
    var found := FindBucket(coll, e.roomID, z(e.now));
    if found.Some? {
      var i := found.value;
      var k := FindMessage(coll[i].messages, e.messageID);
      if k.Some? {
        if e.roomID == room {
          ReaderOfDay(z, coll, log, room, i, z(e.now), e.messageID, e.user, date);
        } else {
          var b := coll[i].(messages := WithReader(coll[i].messages, k.value, e.user));
          OtherRoomReplaced(z, coll, log, room, i, b, date);
        }
      }
    }
  }

  lemma StepKeepsOnePerDate(z: Zone, coll: seq<Bucket>, e: Event)
    requires OnePerDate(coll)
    ensures OnePerDate(Step(z, coll, e).0)
  {
  }

  /**
   * After every history, whatever the time zone and the clock: a room has at most one bucket for each date, and that
   * bucket is exactly that day's part of the room's log.
   */
  lemma {:induction false} BucketsAreDays(z: Zone, events: seq<Event>, room: string, date: string)
    ensures OnePerDate(Run(z, events))
    ensures DayKept(z, Run(z, events), Log(z, events, room), room, date)
  {
    if events != [] {
      var front, e := events[..|events| - 1], events[|events| - 1];
      BucketsAreDays(z, front, room, date);
      BucketsAreDays(z, front, room, z(e.now));
      StepKeepsOnePerDate(z, Run(z, front), e);
      if e.Send? {
        SendKeepsDays(z, Run(z, front), Log(z, front, room), room, e, date);
      } else {
        MarkKeepsDays(z, Run(z, front), Log(z, front, room), room, e, date);
      }
    }
  }

  /** Each stored bucket is a day of its room's log, with something in it. */
  lemma BucketIsDay(z: Zone, events: seq<Event>, i: nat)
    requires i < |Run(z, events)|
    ensures
      var b := Run(z, events)[i];
      b.messages == DayPart(z, Log(z, events, b.roomID), b.date) != []
  {
    var b := Run(z, events)[i];
    BucketsAreDays(z, events, b.roomID, b.date);
    FindOnly(Run(z, events), i);
  }

  // ----- One day's messages -----

  lemma {:induction false} DayMembers(z: Zone, log: seq<ChatMessage>, date: string, m: ChatMessage)
    ensures m in DayPart(z, log, date) <==> m in log && z(m.timestamp) == date
  {
    if log != [] {
      DayMembers(z, log[..|log| - 1], date, m);
      assert log == log[..|log| - 1] + [log[|log| - 1]];
    }
  }

  ghost predicate InOrder(msgs: seq<ChatMessage>)
  {
    forall j, k :: 0 <= j < k < |msgs| ==> msgs[j].timestamp <= msgs[k].timestamp
  }

  lemma {:induction false} DayInOrder(z: Zone, log: seq<ChatMessage>, date: string)
    requires InOrder(log)
    ensures InOrder(DayPart(z, log, date))
  {
    if log != [] {
      var front, last := log[..|log| - 1], log[|log| - 1];
      DayInOrder(z, front, date);
      var day := DayPart(z, front, date);
      forall k | 0 <= k < |day|
        ensures day[k].timestamp <= last.timestamp
      {
        DayMembers(z, front, date, day[k]);
      }
    }
  }

  // ----- While dates go forward -----

  lemma {:induction false} DatesAscendWhileForward(z: Zone, events: seq<Event>, room: string)
    requires DatesForward(z, Log(z, events, room))
    ensures DatesAscend(Run(z, events), room)
  {
    if events != [] {
      var front, e := events[..|events| - 1], events[|events| - 1];
      EarlierForward(z, Log(z, front, room), room, e);
      DatesAscendWhileForward(z, front, room);
      if e.Send? && e.roomFound && Effective(e.write) && e.roomID == room {
        NoneAfterToday(z, front, e, room);
      }
    }
  }

  /** No bucket of the room is dated after a send that keeps its dates going forward. */
  lemma NoneAfterToday(z: Zone, front: seq<Event>, e: Event, room: string)
    requires e.Send? && DatesForward(z, Log(z, front, room) + [NewMessage(e)])
    ensures forall i :: 0 <= i < |Run(z, front)| && Run(z, front)[i].roomID == room ==>
              AtMost(Run(z, front)[i].date, z(e.now))
  {
    var log := Log(z, front, room) + [NewMessage(e)];
    forall i | 0 <= i < |Run(z, front)| && Run(z, front)[i].roomID == room
      ensures AtMost(Run(z, front)[i].date, z(e.now))
    {
      BucketIsDay(z, front, i);
      var b := Run(z, front)[i];
      DayMembers(z, Log(z, front, room), b.date, b.messages[0]);
      var k :| 0 <= k < |Log(z, front, room)| && Log(z, front, room)[k] == b.messages[0];
      assert AtMost(z(log[k].timestamp), z(log[|log| - 1].timestamp));
    }
  }

  /** Where a forward log enters its last date. */
  lemma {:induction false} SplitDay(z: Zone, log: seq<ChatMessage>, date: string) returns (n: nat)
    requires DatesForward(z, log)
    requires forall k :: 0 <= k < |log| ==> AtMost(z(log[k].timestamp), date)
    ensures n <= |log| && NoneOn(z, log[..n], date) && AllOn(z, log[n..], date)
  {
    n := |log|;
    if log != [] && z(log[|log| - 1].timestamp) == date {
      var front := log[..|log| - 1];
      n := SplitDay(z, front, date);
      assert log[..n] == front[..n] && log[n..] == front[n..] + [log[|log| - 1]];
    } else if log != [] {
      var last := z(log[|log| - 1].timestamp);
      LessTrichotomy(last, date);
      LessIrreflexive(last);
      forall k | 0 <= k < |log|
        ensures z(log[k].timestamp) != date
      {
        assert k < |log| - 1 ==> AtMost(z(log[k].timestamp), last);
      }
    }
  }

  lemma DayBeforeSplit(z: Zone, log: seq<ChatMessage>, n: nat, last: string, date: string)
    requires n <= |log| && NoneOn(z, log[..n], last) && AllOn(z, log[n..], last)
    ensures DayPart(z, log, date) == if date == last then log[n..] else DayPart(z, log[..n], date)
  {
    assert log == log[..n] + log[n..];
    DayPartConcat(z, log[..n], log[n..], date);
    DayPartExtremes(z, log[..n], date);
    DayPartExtremes(z, log[n..], date);
  }

  /** The room's buckets are the days of the log, and every day of the log has one. */
  ghost predicate DaysCovered(z: Zone, coll: seq<Bucket>, log: seq<ChatMessage>, room: string)
  {
    && (forall i :: 0 <= i < |coll| && coll[i].roomID == room ==> coll[i].messages == DayPart(z, log, coll[i].date))
    && (forall k :: 0 <= k < |log| ==> HasDay(coll, room, z(log[k].timestamp)))
  }

  ghost predicate HasDay(coll: seq<Bucket>, room: string, date: string)
  {
    exists i :: 0 <= i < |coll| && coll[i].roomID == room && coll[i].date == date
  }

  lemma RunCoversDays(z: Zone, events: seq<Event>, room: string)
    ensures DaysCovered(z, Run(z, events), Log(z, events, room), room)
  {
    var coll, log := Run(z, events), Log(z, events, room);
    forall i | 0 <= i < |coll| && coll[i].roomID == room
      ensures coll[i].messages == DayPart(z, log, coll[i].date)
    {
      BucketIsDay(z, events, i);
    }
    forall k | 0 <= k < |log|
      ensures HasDay(coll, room, z(log[k].timestamp))
    {
      BucketsAreDays(z, events, room, z(log[k].timestamp));
      DayMembers(z, log, z(log[k].timestamp), log[k]);
    }
  }

  /** Without the last bucket of the room, its days are those of the log before that date. */
  lemma CoveredBefore(z: Zone, coll: seq<Bucket>, log: seq<ChatMessage>, room: string, n: nat)
    requires coll != [] && coll[|coll| - 1].roomID == room && DatesAscend(coll, room)
    requires DaysCovered(z, coll, log, room)
    requires n <= |log| && NoneOn(z, log[..n], coll[|coll| - 1].date) && AllOn(z, log[n..], coll[|coll| - 1].date)
    ensures DaysCovered(z, coll[..|coll| - 1], log[..n], room)
  {
    var front, date := coll[..|coll| - 1], coll[|coll| - 1].date;
    LessIrreflexive(date);
    forall i | 0 <= i < |front| && front[i].roomID == room
      ensures front[i].messages == DayPart(z, log[..n], front[i].date)
    {
      assert Less(coll[i].date, date);
      DayBeforeSplit(z, log, n, date, coll[i].date);
    }
    forall k | 0 <= k < n
      ensures HasDay(front, room, z(log[..n][k].timestamp))
    {
      assert HasDay(coll, room, z(log[k].timestamp));
      var i :| 0 <= i < |coll| && coll[i].roomID == room && coll[i].date == z(log[k].timestamp);
      assert z(log[..n][k].timestamp) != date;
      assert front[i] == coll[i];
    }
  }

  lemma CoveredWithoutOther(z: Zone, coll: seq<Bucket>, log: seq<ChatMessage>, room: string)
    requires coll != [] && coll[|coll| - 1].roomID != room && DaysCovered(z, coll, log, room)
    ensures DaysCovered(z, coll[..|coll| - 1], log, room)
  {
    var front := coll[..|coll| - 1];
    forall k | 0 <= k < |log|
      ensures HasDay(front, room, z(log[k].timestamp))
    {
      assert HasDay(coll, room, z(log[k].timestamp));
      var i :| 0 <= i < |coll| && coll[i].roomID == room && coll[i].date == z(log[k].timestamp);
      assert front[i] == coll[i];
    }
  }

  lemma SomeDay(z: Zone, coll: seq<Bucket>, log: seq<ChatMessage>, room: string)
    requires DaysCovered(z, coll, log, room) && log != []
    ensures coll != []
  {
    assert HasDay(coll, room, z(log[0].timestamp));
  }

  /** Days in ascending order, laid end to end, are a log whose dates go forward. */
  lemma {:induction false} RowsOfDays(z: Zone, coll: seq<Bucket>, log: seq<ChatMessage>, room: string)
    requires DatesAscend(coll, room) && DatesForward(z, log) && DaysCovered(z, coll, log, room)
    ensures Rows(coll, room) == log
  {
    if log != [] {
      SomeDay(z, coll, log, room);
    }
    if coll != [] {
      var front, b := coll[..|coll| - 1], coll[|coll| - 1];
      if b.roomID != room {
        CoveredWithoutOther(z, coll, log, room);
        RowsOfDays(z, front, log, room);
        assert Rows(coll, room) == Rows(front, room);
      } else {
        forall k | 0 <= k < |log|
          ensures AtMost(z(log[k].timestamp), b.date)
        {
          assert HasDay(coll, room, z(log[k].timestamp));
        }
        var n := SplitDay(z, log, b.date);
        CoveredBefore(z, coll, log, room, n);
        RowsOfDays(z, front, log[..n], room);
        DayBeforeSplit(z, log, n, b.date, b.date);
        assert log == log[..n] + log[n..];
      }
    }
  }

  lemma BucketIsOk(z: Zone, events: seq<Event>, now: nat, i: nat)
    requires Chronological(events, now) && i < |Run(z, events)|
    ensures BucketOk(z, Run(z, events)[i], now)
  {
    var b := Run(z, events)[i];
    var log := Log(z, events, b.roomID);
    BucketIsDay(z, events, i);
    LogTimes(z, events, now, b.roomID);
    DayInOrder(z, log, b.date);
    forall k | 0 <= k < |b.messages|
      ensures z(b.messages[k].timestamp) == b.date && b.messages[k].timestamp <= now
    {
      DayMembers(z, log, b.date, b.messages[k]);
    }
  }

  /** While a room's dates go forward its buckets stay in order and its rows are its log. */
  lemma RowsAreTheLog(z: Zone, events: seq<Event>, now: nat, room: string)
    requires Chronological(events, now) && DatesForward(z, Log(z, events, room))
    ensures Inv(z, Run(z, events), room, now)
    ensures Rows(Run(z, events), room) == Log(z, events, room)
  {
    DatesAscendWhileForward(z, events, room);
    forall i | 0 <= i < |Run(z, events)| && Run(z, events)[i].roomID == room
      ensures BucketOk(z, Run(z, events)[i], now)
    {
      BucketIsOk(z, events, now, i);
    }
    RunCoversDays(z, events, room);
    RowsOfDays(z, Run(z, events), Log(z, events, room), room);
  }

  // ----- Replies -----

  /** What the log says a call should answer. */
  predicate LogReply(z: Zone, log: seq<ChatMessage>, e: Event)
  {
    e.write.Succeeds? && if e.Send? then e.roomFound else Markable(z, log, e).Some?
  }

  /** A call on the collection succeeds exactly when the room's log says so. */
  lemma RepliesFollowTheLog(z: Zone, events: seq<Event>, e: Event)
    ensures Step(z, Run(z, events), e).1.Success? <==> LogReply(z, Log(z, events, e.roomID), e)
  {
    if e.MarkRead? {
      BucketsAreDays(z, events, e.roomID, z(e.now));
      FindInDay(z, Log(z, events, e.roomID), z(e.now), e.messageID);
    }
  }
}

/** The queries that read a room's buckets in date order or one day at a time, and what they say about the room's log. */
module MessageQueries {
  import opened Wrappers
  import opened Lex
  import opened Calendar
  import opened Messages
  import opened MessageDays

  // ----- The date-sorted query -----

  /** A room's documents in the order they were inserted. */
  function OfRoom(coll: seq<Bucket>, room: string): seq<Bucket>
  {
    if coll == [] then []
    else OfRoom(coll[..|coll| - 1], room) + if coll[|coll| - 1].roomID == room then [coll[|coll| - 1]] else []
  }

  ghost predicate DateSorted(bs: seq<Bucket>)
  {
    forall i, j :: 0 <= i < j < |bs| ==> AtMost(bs[i].date, bs[j].date)
  }

  /** Any answer the query may give: the room's documents, ascending by date text, ties in any order. */
  ghost predicate IsByDate(bs: seq<Bucket>, coll: seq<Bucket>, room: string)
  {
    multiset(bs) == multiset(OfRoom(coll, room)) && DateSorted(bs)
  }

  lemma AtMostTransitive(a: string, b: string, c: string)
    requires AtMost(a, b) && AtMost(b, c)
    ensures AtMost(a, c)
  {
    if a != b && b != c {
      LessTransitive(a, b, c);
    }
  }

  /** Inserts into a list sorted by date, after everything of the same date. */
  function InsertByDate(sorted: seq<Bucket>, b: Bucket): (r: seq<Bucket>)
    ensures multiset(r) == multiset(sorted) + multiset{b}
  {
    if sorted == [] || AtMost(sorted[|sorted| - 1].date, b.date) then sorted + [b]
    else
      assert sorted == sorted[..|sorted| - 1] + [sorted[|sorted| - 1]];
      InsertByDate(sorted[..|sorted| - 1], b) + [sorted[|sorted| - 1]]
  }

  function SortByDate(bs: seq<Bucket>): (r: seq<Bucket>)
    ensures multiset(r) == multiset(bs)
  {
    if bs == [] then []
    else
      assert bs == bs[..|bs| - 1] + [bs[|bs| - 1]];
      InsertByDate(SortByDate(bs[..|bs| - 1]), bs[|bs| - 1])
  }

  lemma {:induction false} InsertKeepsSorted(sorted: seq<Bucket>, b: Bucket)
    requires DateSorted(sorted)
    ensures DateSorted(InsertByDate(sorted, b))
  {
    if sorted != [] {
      var front, last := sorted[..|sorted| - 1], sorted[|sorted| - 1];
      if AtMost(last.date, b.date) {
        forall i | 0 <= i < |sorted|
          ensures AtMost(sorted[i].date, b.date)
        {
          AtMostTransitive(sorted[i].date, last.date, b.date);
        }
      } else {
        InsertKeepsSorted(front, b);
        LessTrichotomy(b.date, last.date);
        var r := InsertByDate(front, b);
        forall i | 0 <= i < |r|
          ensures AtMost(r[i].date, last.date)
        {
          assert r[i] in multiset(r);
          assert r[i] == b || r[i] in front;
        }
      }
    }
  }

  lemma {:induction false} SortIsByDate(bs: seq<Bucket>)
    ensures DateSorted(SortByDate(bs))
  {
    if bs != [] {
      SortIsByDate(bs[..|bs| - 1]);
      InsertKeepsSorted(SortByDate(bs[..|bs| - 1]), bs[|bs| - 1]);
    }
  }

  /** One answer the query may give. */
  function FindByRoom(coll: seq<Bucket>, room: string): (bs: seq<Bucket>)
    ensures IsByDate(bs, coll, room)
  {
    SortIsByDate(OfRoom(coll, room));
    SortByDate(OfRoom(coll, room))
  }

  ghost predicate DatesStrict(bs: seq<Bucket>)
  {
    forall i, j :: 0 <= i < j < |bs| ==> Less(bs[i].date, bs[j].date)
  }

  lemma SameLast(bs: seq<Bucket>, strict: seq<Bucket>)
    requires multiset(bs) == multiset(strict) && bs != [] && strict != [] && DateSorted(bs) && DatesStrict(strict)
    ensures bs[|bs| - 1] == strict[|strict| - 1]
  {
    var b, s := bs[|bs| - 1], strict[|strict| - 1];
    assert s in multiset(bs) && b in multiset(strict);
    var i :| 0 <= i < |bs| && bs[i] == s;
    var j :| 0 <= j < |strict| && strict[j] == b;
    assert AtMost(s.date, b.date);
    if j < |strict| - 1 {
      LessTrichotomy(b.date, s.date);
      LessIrreflexive(s.date);
    }
  }

  lemma WithoutLast<T>(s: seq<T>)
    requires s != []
    ensures multiset(s[..|s| - 1]) == multiset(s) - multiset{s[|s| - 1]}
  {
    assert s == s[..|s| - 1] + [s[|s| - 1]];
  }

  /** A list of distinct dates in order is the only sorted arrangement of its elements. */
  lemma {:induction false} OnlySortedArrangement(bs: seq<Bucket>, strict: seq<Bucket>)
    requires multiset(bs) == multiset(strict) && DateSorted(bs) && DatesStrict(strict)
    ensures bs == strict
  {
    assert |bs| == |multiset(bs)| == |strict|;
    if bs != [] {
      SameLast(bs, strict);
      WithoutLast(bs);
      WithoutLast(strict);
      OnlySortedArrangement(bs[..|bs| - 1], strict[..|strict| - 1]);
      assert bs == bs[..|bs| - 1] + [bs[|bs| - 1]] && strict == strict[..|strict| - 1] + [strict[|strict| - 1]];
    }
  }

  /** Every document of a room comes from the collection. */
  lemma {:induction false} OfRoomMembers(coll: seq<Bucket>, room: string, b: Bucket)
    ensures b in OfRoom(coll, room) <==> b in coll && b.roomID == room
  {
    if coll != [] {
      OfRoomMembers(coll[..|coll| - 1], room, b);
      assert coll == coll[..|coll| - 1] + [coll[|coll| - 1]];
    }
  }

  lemma {:induction false} OfRoomAscends(coll: seq<Bucket>, room: string)
    requires DatesAscend(coll, room)
    ensures DatesStrict(OfRoom(coll, room))
  {
    if coll != [] {
      var front, last := coll[..|coll| - 1], coll[|coll| - 1];
      OfRoomAscends(front, room);
      if last.roomID == room {
        var earlier := OfRoom(front, room);
        forall i | 0 <= i < |earlier|
          ensures Less(earlier[i].date, last.date)
        {
          OfRoomMembers(front, room, earlier[i]);
          var j :| 0 <= j < |front| && front[j] == earlier[i];
          assert coll[j].roomID == coll[|coll| - 1].roomID;
        }
      }
    }
  }

  // ----- Date order is send order -----

  function Concat(bs: seq<Bucket>): seq<ChatMessage>
  {
    if bs == [] then [] else Concat(bs[..|bs| - 1]) + bs[|bs| - 1].messages
  }

  lemma {:induction false} ConcatOfRoom(coll: seq<Bucket>, room: string)
    ensures Concat(OfRoom(coll, room)) == Rows(coll, room)
  {
    if coll != [] {
      var front, last := coll[..|coll| - 1], coll[|coll| - 1];
      ConcatOfRoom(front, room);
      if last.roomID == room {
        var bs := OfRoom(coll, room);
        assert bs == OfRoom(front, room) + [last];
        assert bs[..|bs| - 1] == OfRoom(front, room);
      } else {
        assert OfRoom(coll, room) == OfRoom(front, room);
      }
    }
  }

  /** On a reachable collection the date-sorted query has one answer: insertion order. */
  lemma ByDateIsInsertionOrder(z: Zone, coll: seq<Bucket>, clock: nat, room: string, bs: seq<Bucket>)
    requires Inv(z, coll, room, clock) && IsByDate(bs, coll, room)
    ensures bs == OfRoom(coll, room)
  {
    OfRoomAscends(coll, room);
    OnlySortedArrangement(bs, OfRoom(coll, room));
  }

  /** Whatever the dates, every stored message carries its bucket's date. */
  ghost predicate WellDated(z: Zone, bs: seq<Bucket>)
  {
    forall i :: 0 <= i < |bs| ==> AllOn(z, bs[i].messages, bs[i].date)
  }

  lemma RunIsWellDated(z: Zone, events: seq<Event>)
    ensures WellDated(z, Run(z, events))
  {
    var coll := Run(z, events);
    forall i | 0 <= i < |coll|
      ensures AllOn(z, coll[i].messages, coll[i].date)
    {
      BucketIsDay(z, events, i);
      forall k | 0 <= k < |coll[i].messages|
        ensures z(coll[i].messages[k].timestamp) == coll[i].date
      {
        DayMembers(z, Log(z, events, coll[i].roomID), coll[i].date, coll[i].messages[k]);
      }
    }
  }

  lemma {:induction false} ConcatForward(z: Zone, bs: seq<Bucket>)
    requires WellDated(z, bs) && DateSorted(bs)
    ensures DatesForward(z, Concat(bs))
    ensures forall k :: 0 <= k < |Concat(bs)| ==> AtMost(z(Concat(bs)[k].timestamp), bs[|bs| - 1].date)
  {
    if bs != [] {
      var front, last := bs[..|bs| - 1], bs[|bs| - 1];
      ConcatForward(z, front);
      assert AllOn(z, last.messages, last.date);
      forall k | 0 <= k < |Concat(front)|
        ensures AtMost(z(Concat(front)[k].timestamp), last.date)
      {
        AtMostTransitive(z(Concat(front)[k].timestamp), front[|front| - 1].date, last.date);
      }
    }
  }

  /**
   * The store refines the log exactly while dates go forward: a room's buckets in date order, laid end to end, are its
   * sends in send order if and only if no send carried a date that sorts before an earlier send's.
   */
  lemma BucketsByDateAreTheLog(z: Zone, events: seq<Event>, now: nat, room: string, bs: seq<Bucket>)
    requires Chronological(events, now) && IsByDate(bs, Run(z, events), room)
    ensures Concat(bs) == Log(z, events, room) <==> DatesForward(z, Log(z, events, room))
    ensures DatesForward(z, Log(z, events, room)) ==> DatesStrict(bs)
  {
    var coll := Run(z, events);
    if DatesForward(z, Log(z, events, room)) {
      RowsAreTheLog(z, events, now, room);
      ByDateIsInsertionOrder(z, coll, now, room, bs);
      OfRoomAscends(coll, room);
      ConcatOfRoom(coll, room);
    }
    RunIsWellDated(z, events);
    forall i | 0 <= i < |bs|
      ensures AllOn(z, bs[i].messages, bs[i].date)
    {
      assert bs[i] in multiset(OfRoom(coll, room));
      OfRoomMembers(coll, room, bs[i]);
    }
    ConcatForward(z, bs);
  }

  ghost predicate TwoSends(events: seq<Event>, room: string)
  {
    && |events| == 2
    && forall i :: 0 <= i < 2 ==>
         events[i].Send? && events[i].roomFound && Effective(events[i].write) && events[i].roomID == room
  }

  lemma LogOfTwo(z: Zone, events: seq<Event>, room: string)
    requires TwoSends(events, room)
    ensures Log(z, events, room) == [NewMessage(events[0]), NewMessage(events[1])]
  {
    var first := events[..1];
    assert first[..0] == [] && first[0] == events[0];
    assert Log(z, first, room) == [NewMessage(events[0])];
  }

  lemma TwoBackwards(z: Zone, events: seq<Event>, room: string)
    requires TwoSends(events, room) && !AtMost(z(events[0].now), z(events[1].now))
    ensures !DatesForward(z, Log(z, events, room))
  {
    LogOfTwo(z, events, room);
    var log := Log(z, events, room);
    assert log[0].timestamp == events[0].now && log[1].timestamp == events[1].now;
  }

  /** Two sends whose dates go back: whatever the query answers, its buckets laid end to end are not the log. */
  lemma SecondDatedBefore(z: Zone, events: seq<Event>, room: string, bs: seq<Bucket>)
    requires TwoSends(events, room) && Chronological(events, events[1].now)
    requires !AtMost(z(events[0].now), z(events[1].now))
    requires IsByDate(bs, Run(z, events), room)
    ensures Concat(bs) != Log(z, events, room)
  {
    TwoBackwards(z, events, room);
    BucketsByDateAreTheLog(z, events, events[1].now, room, bs);
  }

  lemma SecondDaySortsLater(a: string, b: string)
    requires a == "2025-01-02" && b == "2025-01-01"
    ensures !AtMost(a, b)
  {
    LessAfterPrefix("2025-01-0", "2", "1");
    assert a == "2025-01-0" + "2" && b == "2025-01-0" + "1" && a[9] != b[9];
  }

  /** One message sent in the first second and one in the second. */
  predicate AcrossMidnight(events: seq<Event>)
  {
    && |events| == 2
    && events[0] == Send(true, "r", "a", "one", "1", 0, Succeeds)
    && events[1] == Send(true, "r", "a", "two", "2", 1, Succeeds)
  }

  lemma MidnightGoesBack(z: Zone, events: seq<Event>)
    requires z(0) == "2025-01-02" && z(1) == "2025-01-01" && AcrossMidnight(events)
    ensures TwoSends(events, "r") && Chronological(events, events[1].now)
    ensures !AtMost(z(events[0].now), z(events[1].now))
  {
    SecondDaySortsLater(z(0), z(1));
  }

  /** In a zone whose clock is set back over midnight between the two. */
  lemma DatesGoingBack(z: Zone, events: seq<Event>, bs: seq<Bucket>)
    requires z(0) == "2025-01-02" && z(1) == "2025-01-01"
    requires AcrossMidnight(events) && IsByDate(bs, Run(z, events), "r")
    ensures Concat(bs) != Log(z, events, "r")
  {
    MidnightGoesBack(z, events);
    SecondDatedBefore(z, events, "r", bs);
  }

  /** In coordinated universal time the store refines the log through the year 9999. */
  lemma UtcStoreIsTheLog(events: seq<Event>, now: nat, room: string, bs: seq<Bucket>)
    requires Chronological(events, now) && FourDigitYear(now) && IsByDate(bs, Run(DateString, events), room)
    ensures Concat(bs) == Log(DateString, events, room)
  {
    UtcNeverBack(now);
    ZoneForward(DateString, events, now, room);
    BucketsByDateAreTheLog(DateString, events, now, room, bs);
  }

  // ----- Messages before a moment -----

  function SentBefore(msgs: seq<ChatMessage>, before: nat): seq<ChatMessage>
  {
    if msgs == [] then []
    else SentBefore(msgs[..|msgs| - 1], before) + if msgs[|msgs| - 1].timestamp < before then [msgs[|msgs| - 1]] else []
  }

  /** Looks only at the bucket of the bound's own date. */
  function FindMessagesBefore(z: Zone, coll: seq<Bucket>, room: string, before: nat): Result<seq<ChatMessage>>
  {
    match FindBucket(coll, room, z(before))
    case None => Failure("no documents")
    case Some(i) => Success(SentBefore(coll[i].messages, before))
  }

  /** The longest prefix whose messages were all sent before the bound. */
  ghost predicate IsPrefixBefore(part: seq<ChatMessage>, msgs: seq<ChatMessage>, before: nat)
  {
    && part <= msgs
    && (forall k :: 0 <= k < |part| ==> part[k].timestamp < before)
    && (|part| < |msgs| ==> msgs[|part|].timestamp >= before)
  }

  lemma {:induction false} SentBeforeMembers(msgs: seq<ChatMessage>, before: nat)
    ensures forall m :: m in SentBefore(msgs, before) <==> m in msgs && m.timestamp < before
  {
    if msgs != [] {
      SentBeforeMembers(msgs[..|msgs| - 1], before);
      assert msgs == msgs[..|msgs| - 1] + [msgs[|msgs| - 1]];
    }
  }

  lemma SentBeforeWithOneMore(front: seq<ChatMessage>, last: ChatMessage, before: nat)
    ensures SentBefore(front + [last], before) ==
      if last.timestamp < before then SentBefore(front, before) + [last] else SentBefore(front, before)
  {
    assert (front + [last])[..|front|] == front;
  }

  /** In a list in order, one more message belongs to the prefix only if the prefix is everything before it. */
  lemma PrefixWithOneMore(part: seq<ChatMessage>, front: seq<ChatMessage>, last: ChatMessage, before: nat)
    requires IsPrefixBefore(part, front, before)
    requires forall k :: 0 <= k < |front| ==> front[k].timestamp <= last.timestamp
    ensures IsPrefixBefore(if last.timestamp < before then part + [last] else part, front + [last], before)
  {
    if |part| < |front| {
      assert front[|part|].timestamp <= last.timestamp;
      assert (front + [last])[|part|] == front[|part|];
    } else {
      assert part == front;
    }
  }

  lemma SplitOrder(front: seq<ChatMessage>, last: ChatMessage)
    requires InOrder(front + [last])
    ensures InOrder(front) && forall k :: 0 <= k < |front| ==> front[k].timestamp <= last.timestamp
  {
    var msgs := front + [last];
    assert forall k :: 0 <= k < |front| ==> msgs[k] == front[k];
    assert msgs[|front|] == last;
  }

  lemma {:induction false} SentBeforeIsPrefix(msgs: seq<ChatMessage>, before: nat)
    requires InOrder(msgs)
    ensures IsPrefixBefore(SentBefore(msgs, before), msgs, before)
  {
    if msgs != [] {
      var front, last := msgs[..|msgs| - 1], msgs[|msgs| - 1];
      assert msgs == front + [last];
      SplitOrder(front, last);
      SentBeforeIsPrefix(front, before);
      SentBeforeWithOneMore(front, last, before);
      PrefixWithOneMore(SentBefore(front, before), front, last, before);
    }
  }

  /** The query answers exactly the earlier part of that day's log, and errs exactly when the day has none. */
  lemma MessagesBeforeAreTheLogs(z: Zone, events: seq<Event>, now: nat, room: string, before: nat)
    requires Chronological(events, now)
    ensures var day := DayPart(z, Log(z, events, room), z(before));
            var r := FindMessagesBefore(z, Run(z, events), room, before);
            && (r.Failure? <==> day == [])
            && (r.Success? ==> IsPrefixBefore(r.value, day, before))
  {
    var log := Log(z, events, room);
    BucketsAreDays(z, events, room, z(before));
    LogTimes(z, events, now, room);
    DayInOrder(z, log, z(before));
    SentBeforeIsPrefix(DayPart(z, log, z(before)), before);
  }
}

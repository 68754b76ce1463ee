/** Unread messages: the counting pipeline, the earliest-unread scan, and the history that both follow from. */
module Unread {
  import opened Wrappers
  import opened Lex
  import opened Messages
  import opened MessageDays
  import opened MessageQueries

  function UnreadIn(msgs: seq<ChatMessage>, user: string): seq<ChatMessage>
  {
    if msgs == [] then []
    else
      var last := msgs[|msgs| - 1];
      UnreadIn(msgs[..|msgs| - 1], user) + if user !in last.readBy then [last] else []
  }

  // ----- The counting pipeline -----

  datatype Line = Line(roomID: string, message: ChatMessage)

  datatype RoomUnread = RoomUnread(roomID: string, count: nat, latest: nat)

  function LinesOf(room: string, msgs: seq<ChatMessage>): seq<Line>
  {
    if msgs == [] then [] else LinesOf(room, msgs[..|msgs| - 1]) + [Line(room, msgs[|msgs| - 1])]
  }

  /** One line per stored message. */
  function Unwind(coll: seq<Bucket>): seq<Line>
  {
    if coll == [] then []
    else Unwind(coll[..|coll| - 1]) + LinesOf(coll[|coll| - 1].roomID, coll[|coll| - 1].messages)
  }

  function MatchUnread(lines: seq<Line>, user: string): seq<Line>
  {
    if lines == [] then []
    else
      var last := lines[|lines| - 1];
      MatchUnread(lines[..|lines| - 1], user) + if user !in last.message.readBy then [last] else []
  }

  function FindGroup(groups: seq<RoomUnread>, room: string): (r: Option<nat>)
    ensures r.Some? ==> r.value < |groups| && groups[r.value].roomID == room
    ensures r.None? ==> forall i :: 0 <= i < |groups| ==> groups[i].roomID != room
  {
    if groups == [] then None
    else match FindGroup(groups[..|groups| - 1], room)
      case Some(i) => Some(i)
      case None => if groups[|groups| - 1].roomID == room then Some(|groups| - 1) else None
  }

  function AddLine(groups: seq<RoomUnread>, line: Line): seq<RoomUnread>
  {
    match FindGroup(groups, line.roomID)
    case None => groups + [RoomUnread(line.roomID, 1, line.message.timestamp)]
    case Some(i) =>
      var g, t := groups[i], line.message.timestamp;
      groups[i := RoomUnread(g.roomID, g.count + 1, if t > g.latest then t else g.latest)]
  }

  function GroupByRoom(lines: seq<Line>): seq<RoomUnread>
  {
    if lines == [] then [] else AddLine(GroupByRoom(lines[..|lines| - 1]), lines[|lines| - 1])
  }

  function UnreadGroups(coll: seq<Bucket>, user: string): seq<RoomUnread>
  {
    GroupByRoom(MatchUnread(Unwind(coll), user))
  }

  ghost predicate LatestFirst(groups: seq<RoomUnread>)
  {
    forall i, j :: 0 <= i < j < |groups| ==> groups[i].latest >= groups[j].latest
  }

  /** Any answer the pipeline may give: its groups, latest unread message first, ties in any order. */
  ghost predicate IsReport(report: seq<RoomUnread>, coll: seq<Bucket>, user: string)
  {
    multiset(report) == multiset(UnreadGroups(coll, user)) && LatestFirst(report)
  }

  /** Inserts into a list sorted latest first, after everything as late. */
  function InsertByLatest(sorted: seq<RoomUnread>, g: RoomUnread): (r: seq<RoomUnread>)
    ensures multiset(r) == multiset(sorted) + multiset{g}
  {
    if sorted == [] || sorted[|sorted| - 1].latest >= g.latest then sorted + [g]
    else
      assert sorted == sorted[..|sorted| - 1] + [sorted[|sorted| - 1]];
      InsertByLatest(sorted[..|sorted| - 1], g) + [sorted[|sorted| - 1]]
  }

  function SortByLatest(groups: seq<RoomUnread>): (r: seq<RoomUnread>)
    ensures multiset(r) == multiset(groups)
  {
    if groups == [] then []
    else
      assert groups == groups[..|groups| - 1] + [groups[|groups| - 1]];
      InsertByLatest(SortByLatest(groups[..|groups| - 1]), groups[|groups| - 1])
  }

  lemma {:induction false} InsertKeepsLatestFirst(sorted: seq<RoomUnread>, g: RoomUnread)
    requires LatestFirst(sorted)
    ensures LatestFirst(InsertByLatest(sorted, g))
  {
    if sorted != [] && sorted[|sorted| - 1].latest < g.latest {
      var front, last := sorted[..|sorted| - 1], sorted[|sorted| - 1];
      InsertKeepsLatestFirst(front, g);
      var r := InsertByLatest(front, g);
      forall i | 0 <= i < |r|
        ensures r[i].latest >= last.latest
      {
        assert r[i] in multiset(r);
        assert r[i] == g || r[i] in multiset(front);
      }
    }
  }

  lemma {:induction false} SortIsLatestFirst(groups: seq<RoomUnread>)
    ensures LatestFirst(SortByLatest(groups))
  {
    if groups != [] {
      SortIsLatestFirst(groups[..|groups| - 1]);
      InsertKeepsLatestFirst(SortByLatest(groups[..|groups| - 1]), groups[|groups| - 1]);
    }
  }

  // ----- What a group holds -----

  function MessagesOf(lines: seq<Line>, room: string): seq<ChatMessage>
  {
    if lines == [] then []
    else
      var last := lines[|lines| - 1];
      MessagesOf(lines[..|lines| - 1], room) + if last.roomID == room then [last.message] else []
  }

  ghost predicate IsLatest(t: nat, msgs: seq<ChatMessage>)
  {
    && (forall k :: 0 <= k < |msgs| ==> msgs[k].timestamp <= t)
    && (exists k :: 0 <= k < |msgs| && msgs[k].timestamp == t)
  }

  ghost predicate Summarises(g: RoomUnread, msgs: seq<ChatMessage>)
  {
    msgs != [] && g.count == |msgs| && IsLatest(g.latest, msgs)
  }

  ghost predicate RoomsDistinct(groups: seq<RoomUnread>)
  {
    forall i, j :: 0 <= i < j < |groups| ==> groups[i].roomID != groups[j].roomID
  }

  lemma AddSummary(g: RoomUnread, msgs: seq<ChatMessage>, m: ChatMessage)
    requires Summarises(g, msgs)
    ensures Summarises(RoomUnread(g.roomID, g.count + 1, if m.timestamp > g.latest then m.timestamp else g.latest), msgs + [m])
  {
    var k :| 0 <= k < |msgs| && msgs[k].timestamp == g.latest;
    assert (msgs + [m])[k] == msgs[k] && (msgs + [m])[|msgs|] == m;
  }

  lemma FirstSummary(line: Line)
    ensures Summarises(RoomUnread(line.roomID, 1, line.message.timestamp), [line.message])
  {
    assert [line.message][0].timestamp == line.message.timestamp;
  }

  /** Every group sums up its room's lines, and a room without a group has none. */
  ghost predicate GroupsOf(groups: seq<RoomUnread>, lines: seq<Line>)
  {
    && (forall i :: 0 <= i < |groups| ==> Summarises(groups[i], MessagesOf(lines, groups[i].roomID)))
    && (forall room :: FindGroup(groups, room).None? ==> MessagesOf(lines, room) == [])
  }

  lemma MessagesAfterLine(lines: seq<Line>, line: Line, room: string)
    ensures MessagesOf(lines + [line], room) ==
      if line.roomID == room then MessagesOf(lines, room) + [line.message] else MessagesOf(lines, room)
  {
    assert (lines + [line])[..|lines|] == lines;
  }

  lemma OldGroupSummarises(groups: seq<RoomUnread>, lines: seq<Line>, line: Line, i: nat)
    requires RoomsDistinct(groups) && i < |groups| && Summarises(groups[i], MessagesOf(lines, groups[i].roomID))
    ensures Summarises(AddLine(groups, line)[i], MessagesOf(lines + [line], groups[i].roomID))
    ensures AddLine(groups, line)[i].roomID == groups[i].roomID
  {
    MessagesAfterLine(lines, line, groups[i].roomID);
    if FindGroup(groups, line.roomID) == Some(i) {
      AddSummary(groups[i], MessagesOf(lines, line.roomID), line.message);
    } else {
      assert groups[i].roomID != line.roomID;
    }
  }

  lemma NewGroupSummarises(groups: seq<RoomUnread>, lines: seq<Line>, line: Line)
    requires FindGroup(groups, line.roomID).None? && MessagesOf(lines, line.roomID) == []
    ensures Summarises(AddLine(groups, line)[|groups|], MessagesOf(lines + [line], line.roomID))
  {
    MessagesAfterLine(lines, line, line.roomID);
    FirstSummary(line);
    var only := [line.message];
    assert [] + only == only;
  }

  lemma AddLineCovers(groups: seq<RoomUnread>, lines: seq<Line>, line: Line, room: string)
    requires GroupsOf(groups, lines) && FindGroup(AddLine(groups, line), room).None?
    ensures MessagesOf(lines + [line], room) == []
  {
    MessagesAfterLine(lines, line, room);
    var after := AddLine(groups, line);
    assert after[if FindGroup(groups, line.roomID).Some? then FindGroup(groups, line.roomID).value else |groups|].roomID
      == line.roomID;
    assert forall i :: 0 <= i < |groups| ==> after[i].roomID == groups[i].roomID;
  }

  lemma AddLineKeepsDistinct(groups: seq<RoomUnread>, line: Line)
    requires RoomsDistinct(groups)
    ensures RoomsDistinct(AddLine(groups, line))
  {
    var after, found := AddLine(groups, line), FindGroup(groups, line.roomID);
    assert forall i :: 0 <= i < |groups| ==> after[i].roomID == groups[i].roomID;
  }

  lemma {:induction false} GroupsDistinct(lines: seq<Line>)
    ensures RoomsDistinct(GroupByRoom(lines))
  {
    if lines != [] {
      GroupsDistinct(lines[..|lines| - 1]);
      AddLineKeepsDistinct(GroupByRoom(lines[..|lines| - 1]), lines[|lines| - 1]);
    }
  }

  /** Grouping keeps one entry per room that has lines, and each entry sums up its room's lines. */
  lemma {:induction false} GroupsSummarise(lines: seq<Line>)
    ensures GroupsOf(GroupByRoom(lines), lines)
  {
    if lines != [] {
      var front, line := lines[..|lines| - 1], lines[|lines| - 1];
      assert lines == front + [line];
      var before := GroupByRoom(front);
      GroupsDistinct(front);
      GroupsSummarise(front);
      forall i | 0 <= i < |GroupByRoom(lines)|
        ensures Summarises(GroupByRoom(lines)[i], MessagesOf(lines, GroupByRoom(lines)[i].roomID))
      {
        if i < |before| {
          OldGroupSummarises(before, front, line, i);
        } else {
          NewGroupSummarises(before, front, line);
        }
      }
      forall room | FindGroup(GroupByRoom(lines), room).None?
        ensures MessagesOf(lines, room) == []
      {
        AddLineCovers(before, front, line, room);
      }
    }
  }

  // ----- The pipeline sees each room's rows -----

  lemma {:induction false} MatchConcat(a: seq<Line>, b: seq<Line>, user: string)
    ensures MatchUnread(a + b, user) == MatchUnread(a, user) + MatchUnread(b, user)
  {
    if b == [] {
      assert a + b == a;
    } else {
      MatchConcat(a, b[..|b| - 1], user);
      assert (a + b)[..|a + b| - 1] == a + b[..|b| - 1];
    }
  }

  lemma {:induction false} MessagesOfConcat(a: seq<Line>, b: seq<Line>, room: string)
    ensures MessagesOf(a + b, room) == MessagesOf(a, room) + MessagesOf(b, room)
  {
    if b == [] {
      assert a + b == a;
    } else {
      MessagesOfConcat(a, b[..|b| - 1], room);
      assert (a + b)[..|a + b| - 1] == a + b[..|b| - 1];
    }
  }

  lemma {:induction false} UnreadInConcat(a: seq<ChatMessage>, b: seq<ChatMessage>, user: string)
    ensures UnreadIn(a + b, user) == UnreadIn(a, user) + UnreadIn(b, user)
  {
    if b == [] {
      assert a + b == a;
    } else {
      UnreadInConcat(a, b[..|b| - 1], user);
      assert (a + b)[..|a + b| - 1] == a + b[..|b| - 1];
    }
  }

  lemma {:induction false} UnreadOfOneBucket(from: string, msgs: seq<ChatMessage>, user: string, room: string)
    ensures MessagesOf(MatchUnread(LinesOf(from, msgs), user), room) == if from == room then UnreadIn(msgs, user) else []
  {
    if msgs != [] {
      var last := Line(from, msgs[|msgs| - 1]);
      UnreadOfOneBucket(from, msgs[..|msgs| - 1], user, room);
      var front := LinesOf(from, msgs[..|msgs| - 1]);
      assert LinesOf(from, msgs) == front + [last];
      MatchConcat(front, [last], user);
      MessagesOfConcat(MatchUnread(front, user), MatchUnread([last], user), room);
      assert [last][..0] == [];
    }
  }

  lemma {:induction false} PipelineSeesTheRows(coll: seq<Bucket>, user: string, room: string)
    ensures MessagesOf(MatchUnread(Unwind(coll), user), room) == UnreadIn(Rows(coll, room), user)
  {
    if coll != [] {
      var front, b := coll[..|coll| - 1], coll[|coll| - 1];
      PipelineSeesTheRows(front, user, room);
      MatchConcat(Unwind(front), LinesOf(b.roomID, b.messages), user);
      MessagesOfConcat(MatchUnread(Unwind(front), user), MatchUnread(LinesOf(b.roomID, b.messages), user), room);
      UnreadOfOneBucket(b.roomID, b.messages, user, room);
      UnreadInConcat(Rows(front, room), if b.roomID == room then b.messages else [], user);
    }
  }

  /** The entry of a room in a report, if it has one. */
  ghost predicate HasEntry(report: seq<RoomUnread>, room: string)
  {
    exists i :: 0 <= i < |report| && report[i].roomID == room
  }

  ghost predicate EntriesSummarise(report: seq<RoomUnread>, coll: seq<Bucket>, user: string)
  {
    forall i :: 0 <= i < |report| ==> Summarises(report[i], UnreadIn(Rows(coll, report[i].roomID), user))
  }

  lemma GroupsAreExact(coll: seq<Bucket>, user: string, room: string)
    ensures EntriesSummarise(UnreadGroups(coll, user), coll, user)
    ensures FindGroup(UnreadGroups(coll, user), room).None? <==> UnreadIn(Rows(coll, room), user) == []
  {
    var lines := MatchUnread(Unwind(coll), user);
    var groups := GroupByRoom(lines);
    GroupsSummarise(lines);
    forall i | 0 <= i < |groups|
      ensures Summarises(groups[i], UnreadIn(Rows(coll, groups[i].roomID), user))
    {
      PipelineSeesTheRows(coll, user, groups[i].roomID);
    }
    PipelineSeesTheRows(coll, user, room);
  }

  /** Rearranging groups with distinct rooms keeps the rooms distinct. */
  lemma ArrangedDistinct(report: seq<RoomUnread>, groups: seq<RoomUnread>)
    requires multiset(report) == multiset(groups) && RoomsDistinct(groups)
    ensures RoomsDistinct(report)
  {
    forall i, j | 0 <= i < j < |report|
      ensures report[i].roomID != report[j].roomID
    {
      assert report[i] in multiset(groups) && report[j] in multiset(groups);
      var a :| 0 <= a < |groups| && groups[a] == report[i];
      var b :| 0 <= b < |groups| && groups[b] == report[j];
      if a == b {
        TwiceIsTwo(report, i, j);
        OnceIsOne(groups, a);
      }
    }
  }

  lemma TwiceIsTwo<T>(s: seq<T>, i: nat, j: nat)
    requires i < j < |s| && s[i] == s[j]
    ensures multiset(s)[s[i]] >= 2
  {
    assert s == s[..j] + s[j..];
    assert s[i] in s[..j] && s[j] in s[j..];
  }

  lemma OnceIsOne(groups: seq<RoomUnread>, a: nat)
    requires RoomsDistinct(groups) && a < |groups|
    ensures multiset(groups)[groups[a]] == 1
  {
    assert groups == groups[..a] + [groups[a]] + groups[a + 1..];
    assert groups[a] !in groups[..a] && groups[a] !in groups[a + 1..];
  }

  /**
   * Whatever order ties fall in, a report has one entry for each room with unread messages and none for the others;
   * each entry counts its room's unread messages and names the latest of their timestamps.
   */
  lemma ReportIsExact(coll: seq<Bucket>, user: string, report: seq<RoomUnread>, room: string)
    requires IsReport(report, coll, user)
    ensures RoomsDistinct(report)
    ensures EntriesSummarise(report, coll, user)
    ensures HasEntry(report, room) <==> UnreadIn(Rows(coll, room), user) != []
    ensures forall i, j :: 0 <= i < j < |report| ==> report[i].latest >= report[j].latest
  {
    var groups := UnreadGroups(coll, user);
    GroupsDistinct(MatchUnread(Unwind(coll), user));
    ArrangedDistinct(report, groups);
    GroupsAreExact(coll, user, room);
    forall i | 0 <= i < |report|
      ensures Summarises(report[i], UnreadIn(Rows(coll, report[i].roomID), user))
    {
      assert report[i] in multiset(groups);
    }
    match FindGroup(groups, room)
    case Some(a) =>
      assert groups[a] in multiset(report);
    case None =>
  }

  // ----- Counts follow from the history -----

  /** A stored message from somebody else. */
  predicate AddsUnread(e: Event, room: string, user: string)
  {
    e.Send? && e.roomFound && e.roomID == room && e.sender != user && Effective(e.write)
  }

  /** A mark-read call whose write reached the store. */
  predicate MarksOne(z: Zone, coll: seq<Bucket>, e: Event, room: string, user: string)
  {
    && e.MarkRead? && e.roomID == room && e.user == user && Effective(e.write)
    && Step(z, coll, e.(write := Succeeds)).1.Success?
  }

  function SentByOthers(events: seq<Event>, room: string, user: string): nat
  {
    if events == [] then 0
    else
      SentByOthers(events[..|events| - 1], room, user)
      + if AddsUnread(events[|events| - 1], room, user) then 1 else 0
  }

  function MarkedRead(z: Zone, events: seq<Event>, room: string, user: string): nat
  {
    if events == [] then 0
    else
      var front := events[..|events| - 1];
      MarkedRead(z, front, room, user) + if MarksOne(z, Run(z, front), events[|events| - 1], room, user) then 1 else 0
  }

  /** When writes that report an error did nothing, these are the mark-read calls that returned no error. */
  lemma MarksAreSuccesses(z: Zone, coll: seq<Bucket>, e: Event, room: string, user: string)
    requires e.write != Fails(true)
    ensures MarksOne(z, coll, e, room, user) <==>
      e.MarkRead? && e.roomID == room && e.user == user && Step(z, coll, e).1.Success?
  {
    if e.write.Succeeds? {
      assert e.(write := Succeeds) == e;
    }
  }

  lemma UnreadOfPart(a: seq<ChatMessage>, m: seq<ChatMessage>, c: seq<ChatMessage>, user: string)
    ensures |UnreadIn(a + m + c, user)| == |UnreadIn(a, user)| + |UnreadIn(m, user)| + |UnreadIn(c, user)|
  {
    UnreadInConcat(a + m, c, user);
    UnreadInConcat(a, m, user);
  }

  lemma UnreadAfterReader(msgs: seq<ChatMessage>, k: nat, reader: string, user: string)
    requires k < |msgs| && reader !in msgs[k].readBy
    ensures |UnreadIn(WithReader(msgs, k, reader), user)| == |UnreadIn(msgs, user)| - if reader == user then 1 else 0
  {
    var m := msgs[k].(readBy := msgs[k].readBy + [reader]);
    assert msgs == msgs[..k] + [msgs[k]] + msgs[k + 1..];
    assert WithReader(msgs, k, reader) == msgs[..k] + [m] + msgs[k + 1..];
    UnreadOfPart(msgs[..k], [msgs[k]], msgs[k + 1..], user);
    UnreadOfPart(msgs[..k], [m], msgs[k + 1..], user);
    assert [m][..0] == [] && [msgs[k]][..0] == [];
  }

  lemma UnreadAfterBucket(coll: seq<Bucket>, i: nat, b: Bucket, room: string, user: string)
    requires i < |coll| && b.roomID == coll[i].roomID
    ensures |UnreadIn(Rows(coll[i := b], room), user)| - |UnreadIn(Rows(coll, room), user)| ==
      if b.roomID == room then |UnreadIn(b.messages, user)| - |UnreadIn(coll[i].messages, user)| else 0
  {
    RowsAround(coll, i, room);
    RowsReplace(coll, i, b, room);
    UnreadOfPart(Rows(coll[..i], room), Part(coll[i], room), Rows(coll[i + 1..], room), user);
    UnreadOfPart(Rows(coll[..i], room), Part(b, room), Rows(coll[i + 1..], room), user);
  }

  lemma UnreadAfterSend(z: Zone, coll: seq<Bucket>, e: Event, room: string, user: string)
    requires e.Send?
    ensures |UnreadIn(Rows(Step(z, coll, e).0, room), user)| ==
      |UnreadIn(Rows(coll, room), user)| + if AddsUnread(e, room, user) then 1 else 0
  {
    if e.roomFound && Effective(e.write) {
      var m := NewMessage(e);
      assert [m][..0] == [];
      match FindBucket(coll, e.roomID, z(e.now))
      case None =>
        var b := Bucket(e.roomID, z(e.now), [m]);
        assert (coll + [b])[..|coll|] == coll;
        UnreadInConcat(Rows(coll, room), Part(b, room), user);
      case Some(i) =>
        UnreadInConcat(coll[i].messages, [m], user);
        UnreadAfterBucket(coll, i, coll[i].(messages := coll[i].messages + [m]), room, user);
    }
  }

  lemma UnreadAfterMark(z: Zone, coll: seq<Bucket>, e: Event, room: string, user: string)
    requires e.MarkRead?
    ensures |UnreadIn(Rows(Step(z, coll, e).0, room), user)| ==
      |UnreadIn(Rows(coll, room), user)| - if MarksOne(z, coll, e, room, user) then 1 else 0
  {
    match FindBucket(coll, e.roomID, z(e.now))
    case None =>
    case Some(i) =>
      match FindMessage(coll[i].messages, e.messageID)
      case None =>
      case Some(k) =>
        if e.user !in coll[i].messages[k].readBy {
          UnreadAfterReader(coll[i].messages, k, e.user, user);
          UnreadAfterBucket(coll, i, coll[i].(messages := WithReader(coll[i].messages, k, e.user)), room, user);
        }
  }

  /** Every history: a person's unread messages in a room are the others' sends there less their own marks. */
  lemma {:induction false} UnreadIsSendsLessMarks(z: Zone, events: seq<Event>, room: string, user: string)
    ensures |UnreadIn(Rows(Run(z, events), room), user)| ==
      SentByOthers(events, room, user) - MarkedRead(z, events, room, user)
  {
    if events != [] {
      var front, e := events[..|events| - 1], events[|events| - 1];
      UnreadIsSendsLessMarks(z, front, room, user);
      if e.Send? {
        UnreadAfterSend(z, Run(z, front), e, room, user);
      } else {
        UnreadAfterMark(z, Run(z, front), e, room, user);
      }
    }
  }

  /** The pipeline's count is the history's count, and a room at zero has no entry. */
  lemma ReportFollowsTheHistory(z: Zone, events: seq<Event>, user: string, report: seq<RoomUnread>, room: string)
    requires IsReport(report, Run(z, events), user)
    ensures HasEntry(report, room) <==> SentByOthers(events, room, user) > MarkedRead(z, events, room, user)
    ensures forall i :: 0 <= i < |report| && report[i].roomID == room ==>
              report[i].count == SentByOthers(events, room, user) - MarkedRead(z, events, room, user)
  {
    ReportIsExact(Run(z, events), user, report, room);
    UnreadIsSendsLessMarks(z, events, room, user);
  }

  // ----- The earliest-unread scan -----

  /** The first bucket with a message the user has not read. */
  function FirstUnread(bs: seq<Bucket>, user: string): (r: Option<nat>)
    ensures r.Some? ==> r.value < |bs| && UnreadIn(bs[r.value].messages, user) != []
    ensures r.Some? ==> forall i :: 0 <= i < r.value ==> UnreadIn(bs[i].messages, user) == []
    ensures r.None? ==> forall i :: 0 <= i < |bs| ==> UnreadIn(bs[i].messages, user) == []
  {
    if bs == [] then None
    else match FirstUnread(bs[..|bs| - 1], user)
      case Some(i) => Some(i)
      case None => if UnreadIn(bs[|bs| - 1].messages, user) != [] then Some(|bs| - 1) else None
  }

  function FindEarliestUnread(bs: seq<Bucket>, user: string): Option<Bucket>
  {
    match FirstUnread(bs, user)
    case Some(i) => Some(bs[i])
    case None => None
  }

  lemma {:induction false} UnreadByBuckets(coll: seq<Bucket>, room: string, user: string)
    ensures UnreadIn(Rows(coll, room), user) == [] <==>
      forall i :: 0 <= i < |coll| && coll[i].roomID == room ==> UnreadIn(coll[i].messages, user) == []
  {
    if coll != [] {
      var front, b := coll[..|coll| - 1], coll[|coll| - 1];
      UnreadByBuckets(front, room, user);
      UnreadInConcat(Rows(front, room), if b.roomID == room then b.messages else [], user);
      assert forall i :: 0 <= i < |front| ==> front[i] == coll[i];
    }
  }

  lemma ByDateMembers(bs: seq<Bucket>, coll: seq<Bucket>, room: string, b: Bucket)
    requires IsByDate(bs, coll, room)
    ensures b in bs <==> b in coll && b.roomID == room
  {
    OfRoomMembers(coll, room, b);
    assert b in bs <==> b in multiset(bs);
  }

  /** The scan finds nothing exactly when the room has nothing unread. */
  lemma ScanFindsUnread(coll: seq<Bucket>, user: string, room: string, bs: seq<Bucket>)
    requires IsByDate(bs, coll, room)
    ensures FindEarliestUnread(bs, user).None? <==> UnreadIn(Rows(coll, room), user) == []
  {
    UnreadByBuckets(coll, room, user);
    match FirstUnread(bs, user)
    case Some(i) =>
      ByDateMembers(bs, coll, room, bs[i]);
    case None =>
      forall i | 0 <= i < |coll| && coll[i].roomID == room
        ensures UnreadIn(coll[i].messages, user) == []
      {
        ByDateMembers(bs, coll, room, coll[i]);
      }
  }

  /**
   * The scan and the pipeline agree on every collection: no bucket exactly when no entry; otherwise a bucket of the
   * room with something unread, and nothing unread in the room's buckets of earlier dates.
   */
  lemma QueriesAgree(coll: seq<Bucket>, user: string, room: string, bs: seq<Bucket>, report: seq<RoomUnread>)
    requires IsByDate(bs, coll, room) && IsReport(report, coll, user)
    ensures FindEarliestUnread(bs, user).None? <==> !HasEntry(report, room)
    ensures forall b :: FindEarliestUnread(bs, user) == Some(b) ==>
              && b in coll && b.roomID == room && UnreadIn(b.messages, user) != []
              && forall i :: 0 <= i < |coll| && coll[i].roomID == room && Less(coll[i].date, b.date) ==>
                   UnreadIn(coll[i].messages, user) == []
  {
    ScanFindsUnread(coll, user, room, bs);
    ReportIsExact(coll, user, report, room);
    match FirstUnread(bs, user)
    case None =>
    case Some(k) =>
      ByDateMembers(bs, coll, room, bs[k]);
      forall i | 0 <= i < |coll| && coll[i].roomID == room && Less(coll[i].date, bs[k].date)
        ensures UnreadIn(coll[i].messages, user) == []
      {
        ByDateMembers(bs, coll, room, coll[i]);
        EarlierIsBefore(bs, k, coll[i]);
      }
  }

  /** In a sorted list a document of an earlier date stands before. */
  lemma EarlierIsBefore(bs: seq<Bucket>, k: nat, b: Bucket)
    requires DateSorted(bs) && k < |bs| && b in bs && Less(b.date, bs[k].date)
    ensures b in bs[..k]
  {
    var j :| 0 <= j < |bs| && bs[j] == b;
    LessTrichotomy(b.date, bs[k].date);
    LessIrreflexive(b.date);
  }

  // ----- The scan on any collection -----

  predicate AllRead(msgs: seq<ChatMessage>, user: string)
  {
    forall k :: 0 <= k < |msgs| ==> user in msgs[k].readBy
  }

  /** The room has nothing unread, in no bucket. */
  ghost predicate RoomAllRead(coll: seq<Bucket>, user: string, room: string)
  {
    forall i :: 0 <= i < |coll| && coll[i].roomID == room ==> AllRead(coll[i].messages, user)
  }

  /** A bucket of the room with something unread, all earlier-dated ones read. */
  ghost predicate IsEarliestBucket(coll: seq<Bucket>, user: string, room: string, b: Bucket)
  {
    && b in coll && b.roomID == room && !AllRead(b.messages, user)
    && forall i :: 0 <= i < |coll| && coll[i].roomID == room && Less(coll[i].date, b.date) ==>
         AllRead(coll[i].messages, user)
  }

  lemma ScanOnCollection(coll: seq<Bucket>, user: string, room: string, bs: seq<Bucket>)
    requires IsByDate(bs, coll, room)
    ensures FindEarliestUnread(bs, user).None? <==> RoomAllRead(coll, user, room)
    ensures FindEarliestUnread(bs, user).Some? ==>
              IsEarliestBucket(coll, user, room, FindEarliestUnread(bs, user).value)
  {
    ScanFindsUnread(coll, user, room, bs);
    UnreadByBuckets(coll, room, user);
    forall i | 0 <= i < |coll|
      ensures UnreadIn(coll[i].messages, user) == [] <==> AllRead(coll[i].messages, user)
    {
      NothingUnread(coll[i].messages, user);
    }
    SortIsLatestFirst(UnreadGroups(coll, user));
    QueriesAgree(coll, user, room, bs, SortByLatest(UnreadGroups(coll, user)));
  }

  // ----- The scan on the log -----

  /** The first message of the log that the user has not read. */
  ghost predicate IsFirstUnread(log: seq<ChatMessage>, k: nat, user: string)
  {
    k < |log| && user !in log[k].readBy && forall j :: 0 <= j < k ==> user in log[j].readBy
  }

  lemma {:induction false} NothingUnread(msgs: seq<ChatMessage>, user: string)
    ensures UnreadIn(msgs, user) == [] <==> forall k :: 0 <= k < |msgs| ==> user in msgs[k].readBy
  {
    if msgs != [] {
      NothingUnread(msgs[..|msgs| - 1], user);
    }
  }

  /** An unread message that no unread message is dated before. */
  ghost predicate IsEarliestUnread(z: Zone, log: seq<ChatMessage>, k: nat, user: string)
  {
    && k < |log| && user !in log[k].readBy
    && forall j :: 0 <= j < |log| && user !in log[j].readBy ==> AtMost(z(log[k].timestamp), z(log[j].timestamp))
  }

  /** Each message of the log is in the list's bucket of its date. */
  lemma BucketOfMessage(z: Zone, events: seq<Event>, room: string, bs: seq<Bucket>, j: nat) returns (b: Bucket)
    requires IsByDate(bs, Run(z, events), room) && j < |Log(z, events, room)|
    ensures b in bs && b.date == z(Log(z, events, room)[j].timestamp) && Log(z, events, room)[j] in b.messages
  {
    var m := Log(z, events, room)[j];
    BucketsAreDays(z, events, room, z(m.timestamp));
    DayMembers(z, Log(z, events, room), z(m.timestamp), m);
    b := Run(z, events)[FindBucket(Run(z, events), room, z(m.timestamp)).value];
    ByDateMembers(bs, Run(z, events), room, b);
  }

  /** Each bucket of the list is a day of the log. */
  lemma ListedBucketIsDay(z: Zone, events: seq<Event>, room: string, bs: seq<Bucket>, i: nat)
    requires IsByDate(bs, Run(z, events), room) && i < |bs|
    ensures bs[i] == Bucket(room, bs[i].date, DayPart(z, Log(z, events, room), bs[i].date))
  {
    ByDateMembers(bs, Run(z, events), room, bs[i]);
    var j :| 0 <= j < |Run(z, events)| && Run(z, events)[j] == bs[i];
    BucketIsDay(z, events, j);
  }

  /** Nothing of an earlier date than the found bucket's is unread. */
  lemma NothingEarlierUnread(z: Zone, events: seq<Event>, user: string, room: string, bs: seq<Bucket>, i: nat, j: nat)
    requires IsByDate(bs, Run(z, events), room) && FirstUnread(bs, user) == Some(i)
    requires j < |Log(z, events, room)| && user !in Log(z, events, room)[j].readBy
    ensures AtMost(bs[i].date, z(Log(z, events, room)[j].timestamp))
  {
    var b := BucketOfMessage(z, events, room, bs, j);
    NothingUnread(b.messages, user);
    LessTrichotomy(bs[i].date, b.date);
    if Less(b.date, bs[i].date) {
      EarlierIsBefore(bs, i, b);
    }
  }

  /** The found bucket's date is that of an unread message none is dated before. */
  lemma FoundIsEarliest(z: Zone, events: seq<Event>, user: string, room: string, bs: seq<Bucket>, i: nat)
    returns (k: nat)
    requires IsByDate(bs, Run(z, events), room) && FirstUnread(bs, user) == Some(i)
    ensures IsEarliestUnread(z, Log(z, events, room), k, user) && z(Log(z, events, room)[k].timestamp) == bs[i].date
  {
    var log := Log(z, events, room);
    ListedBucketIsDay(z, events, room, bs, i);
    NothingUnread(bs[i].messages, user);
    var n :| 0 <= n < |bs[i].messages| && user !in bs[i].messages[n].readBy;
    DayMembers(z, log, bs[i].date, bs[i].messages[n]);
    k :| 0 <= k < |log| && log[k] == bs[i].messages[n];
    forall j | 0 <= j < |log| && user !in log[j].readBy
      ensures AtMost(z(log[k].timestamp), z(log[j].timestamp))
    {
      NothingEarlierUnread(z, events, user, room, bs, i, j);
    }
  }

  lemma AtMostAntisymmetric(a: string, b: string)
    requires AtMost(a, b) && AtMost(b, a)
    ensures a == b
  {
    LessTrichotomy(a, b);
  }

  /**
   * After every history, in every time zone, the scan answers from the log: nothing exactly when every message is read,
   * else the whole of the earliest-dated day that has a message the user has not read.
   */
  lemma ScanFindsTheEarliestDay(z: Zone, events: seq<Event>, user: string, room: string, bs: seq<Bucket>)
    requires IsByDate(bs, Run(z, events), room)
    ensures FindEarliestUnread(bs, user).None? <==>
              forall j :: 0 <= j < |Log(z, events, room)| ==> user in Log(z, events, room)[j].readBy
    ensures FindEarliestUnread(bs, user).Some? ==> exists k: nat :: IsEarliestUnread(z, Log(z, events, room), k, user)
    ensures forall k: nat :: IsEarliestUnread(z, Log(z, events, room), k, user) ==>
              var date := z(Log(z, events, room)[k].timestamp);
              FindEarliestUnread(bs, user) == Some(Bucket(room, date, DayPart(z, Log(z, events, room), date)))
  {
    var log := Log(z, events, room);
    match FirstUnread(bs, user)
    case None =>
      forall j | 0 <= j < |log|
        ensures user in log[j].readBy
      {
        var b := BucketOfMessage(z, events, room, bs, j);
        NothingUnread(b.messages, user);
      }
    case Some(i) =>
      var k := FoundIsEarliest(z, events, user, room, bs, i);
      ListedBucketIsDay(z, events, room, bs, i);
      forall k': nat | IsEarliestUnread(z, log, k', user)
        ensures z(log[k'].timestamp) == bs[i].date
      {
        AtMostAntisymmetric(z(log[k].timestamp), z(log[k'].timestamp));
      }
  }

  /** While dates go forward that is the day of the first message the user has not read. */
  lemma EarliestUnreadIsTheLogs(z: Zone, events: seq<Event>, user: string, room: string, bs: seq<Bucket>, k: nat)
    requires IsByDate(bs, Run(z, events), room) && DatesForward(z, Log(z, events, room))
    ensures var log := Log(z, events, room);
            IsFirstUnread(log, k, user) ==>
              var date := z(log[k].timestamp);
              FindEarliestUnread(bs, user) == Some(Bucket(room, date, DayPart(z, log, date)))
  {
    var log := Log(z, events, room);
    if IsFirstUnread(log, k, user) {
      forall j | 0 <= j < |log| && user !in log[j].readBy
        ensures AtMost(z(log[k].timestamp), z(log[j].timestamp))
      {
        assert k <= j;
      }
      assert IsEarliestUnread(z, log, k, user);
      ScanFindsTheEarliestDay(z, events, user, room, bs);
    }
  }
}

/**
  Properties of the slot allocator: what each course's block of meetings holds,
  how many meetings are produced, how the palette counters advance, where each
  meeting lies in the week, and how far the per-day cursor keeps meetings of one
  semester apart.
*/
module SchedulerProofs {
  import opened Calendar
  import opened Scheduler

  // ----- One course -----

  /** The last of n meetings is meeting n - 1 placed on the board the first n - 1 leave:
      it goes to weekday `d` at hour `hour` and moves that day's cursor to `hour + h`. */
  lemma NextMeeting(cfg: Config, b: Board, prev: Board, r: Board, p: Program, s: Semester, c: Course, color: string, room: string, n: nat)
    returns (d: nat, hour: nat, h: nat)
    requires ConfigOk(cfg) && CursorOk(b.cursor) && n > 0
    requires prev == PlaceMeetings(cfg, b, p, s, c, color, room, n - 1)
    requires r == PlaceMeetings(cfg, b, p, s, c, color, room, n)
    ensures CursorOk(prev.cursor)
    ensures r.events == prev.events + [MeetingAt(cfg, prev, p, s, c, color, room, n - 1)]
    ensures d == DayFor(|prev.events|, n - 1) && hour == SlotHour(cfg, prev.cursor, d) && h == HoursFor(cfg.duration)
    ensures r.cursor == prev.cursor[d - 1 := hour + h]
  {
    NextBoard(cfg, b, prev, r, p, s, c, color, room, n);
    d, hour, h := MeetingStep(cfg, prev, p, s, c, color, room, n);
  }

  lemma NextBoard(cfg: Config, b: Board, prev: Board, r: Board, p: Program, s: Semester, c: Course, color: string, room: string, n: nat)
    requires ConfigOk(cfg) && CursorOk(b.cursor) && n > 0
    requires prev == PlaceMeetings(cfg, b, p, s, c, color, room, n - 1)
    requires r == PlaceMeetings(cfg, b, p, s, c, color, room, n)
    ensures CursorOk(prev.cursor)
    ensures r == PlaceMeeting(cfg, prev, p, s, c, color, room, n - 1)
  {
  }

  lemma MeetingStep(cfg: Config, b: Board, p: Program, s: Semester, c: Course, color: string, room: string, n: nat)
    returns (d: nat, hour: nat, h: nat)
    requires ConfigOk(cfg) && CursorOk(b.cursor) && n > 0
    ensures PlaceMeeting(cfg, b, p, s, c, color, room, n - 1).events == b.events + [MeetingAt(cfg, b, p, s, c, color, room, n - 1)]
    ensures d == DayFor(|b.events|, n - 1) && hour == SlotHour(cfg, b.cursor, d) && h == HoursFor(cfg.duration)
    ensures PlaceMeeting(cfg, b, p, s, c, color, room, n - 1).cursor == b.cursor[d - 1 := hour + h]
  {
    d := DayFor(|b.events|, n - 1);
    hour := SlotHour(cfg, b.cursor, d);
    h := HoursFor(cfg.duration);
  }


  /** Events `from` onwards are the meetings of one course in order: meeting k is
      described by the course with ordinal k + 1 and lies on weekday `Days[(L + 2k) % 5]`
      of the anchor week, where L = `from` events preceded the course. */
  ghost predicate Block(cfg: Config, evs: seq<Event>, from: nat, p: Program, s: Semester, c: Course, color: string, room: string) {
    && from <= |evs|
    && forall i :: from <= i < |evs| ==>
         && Describes(evs[i], p, s, c, color, room, i - from)
         && evs[i].start.day == cfg.monday + Days[(2 * i - from) % 5] - 1
  }

  lemma BlockAppend(cfg: Config, evs: seq<Event>, evs': seq<Event>, e: Event, from: nat, m: nat,
                    p: Program, s: Semester, c: Course, color: string, room: string)
    requires Block(cfg, evs, from, p, s, c, color, room)
    requires evs' == evs + [e] && |evs| == from + m
    requires Describes(e, p, s, c, color, room, m)
    requires e.start.day == cfg.monday + DayFor(|evs|, m) - 1
    ensures Block(cfg, evs', from, p, s, c, color, room)
  {
    assert |evs| + m == 2 * |evs| - from;
    forall i | from <= i < |evs'|
      ensures Describes(evs'[i], p, s, c, color, room, i - from)
      ensures evs'[i].start.day == cfg.monday + Days[(2 * i - from) % 5] - 1
    {
      if i < |evs| {
        assert evs'[i] == evs[i];
      }
    }
  }


  /** The meetings of one course form a block. */
  lemma {:induction false} MeetingsBlock(cfg: Config, b: Board, p: Program, s: Semester, c: Course, color: string, room: string, n: nat)
    requires ConfigOk(cfg) && CursorOk(b.cursor)
    ensures Block(cfg, PlaceMeetings(cfg, b, p, s, c, color, room, n).events, |b.events|, p, s, c, color, room)
    decreases n
  {
    if n > 0 {
      MeetingsBlock(cfg, b, p, s, c, color, room, n - 1);
      LastBlockStep(cfg, b, p, s, c, color, room, n);
    }
  }

  /** The block property carries over from `n - 1` to `n` meetings. */
  lemma LastBlockStep(cfg: Config, b: Board, p: Program, s: Semester, c: Course, color: string, room: string, n: nat)
    requires ConfigOk(cfg) && CursorOk(b.cursor) && n > 0
    requires Block(cfg, PlaceMeetings(cfg, b, p, s, c, color, room, n - 1).events, |b.events|, p, s, c, color, room)
    ensures Block(cfg, PlaceMeetings(cfg, b, p, s, c, color, room, n).events, |b.events|, p, s, c, color, room)
  {
    var prev := PlaceMeetings(cfg, b, p, s, c, color, room, n - 1);
    var r := PlaceMeetings(cfg, b, p, s, c, color, room, n);
    BlockStep(cfg, b, prev, r, p, s, c, color, room, n);
  }



  lemma BlockStep(cfg: Config, b: Board, prev: Board, r: Board, p: Program, s: Semester, c: Course, color: string, room: string, n: nat)
    requires ConfigOk(cfg) && CursorOk(b.cursor) && n > 0
    requires prev == PlaceMeetings(cfg, b, p, s, c, color, room, n - 1)
    requires r == PlaceMeetings(cfg, b, p, s, c, color, room, n)
    requires Block(cfg, prev.events, |b.events|, p, s, c, color, room)
    ensures Block(cfg, r.events, |b.events|, p, s, c, color, room)
  {
    var _, _, _ := NextMeeting(cfg, b, prev, r, p, s, c, color, room, n);
    var e := MeetingAt(cfg, prev, p, s, c, color, room, n - 1);
    MeetingAtFacts(cfg, prev, p, s, c, color, room, n);
    BlockAppend(cfg, prev.events, r.events, e, |b.events|, n - 1, p, s, c, color, room);
  }




  /** Consecutive meetings of one course are two weekdays apart (cyclically over Monday to Friday). */
  lemma TwoWeekdaysApart(cfg: Config, b: Board, p: Program, s: Semester, c: Course, color: string, room: string, n: nat, i: nat)
    requires ConfigOk(cfg) && CursorOk(b.cursor)
    requires |b.events| <= i && i + 1 < |b.events| + n
    ensures var r := PlaceMeetings(cfg, b, p, s, c, color, room, n);
            r.events[i + 1].start.day - cfg.monday == (r.events[i].start.day - cfg.monday + 2) % 5
  {
    MeetingsBlock(cfg, b, p, s, c, color, room, n);
    BlockDays(cfg, PlaceMeetings(cfg, b, p, s, c, color, room, n).events, |b.events|, p, s, c, color, room, i);
  }

  lemma BlockDays(cfg: Config, evs: seq<Event>, from: nat, p: Program, s: Semester, c: Course, color: string, room: string, i: nat)
    requires Block(cfg, evs, from, p, s, c, color, room)
    requires from <= i && i + 1 < |evs|
    ensures evs[i + 1].start.day - cfg.monday == (evs[i].start.day - cfg.monday + 2) % 5
  {
    var k := 2 * i - from;
    assert 2 * (i + 1) - from == k + 2;
    DaysAreOrdinals(k % 5);
    DaysAreOrdinals((k + 2) % 5);
    AddTwoModFive(k);
    assert evs[i].start.day - cfg.monday == k % 5;
  }

  lemma AddTwoModFive(k: nat)
    ensures (k + 2) % 5 == (k % 5 + 2) % 5
  {
    var q, r := k / 5, k % 5;
    assert k == 5 * q + r;
    if r < 3 {
      assert k + 2 == 5 * q + (r + 2);
    } else {
      assert k + 2 == 5 * (q + 1) + (r - 3);
    }
  }

  lemma DaysAreOrdinals(j: nat)
    requires j < 5
    ensures Days[j] == j + 1
  {
  }

  /** The meetings of one course have pairwise distinct identities. */
  lemma MeetingIdsDistinct(cfg: Config, b: Board, p: Program, s: Semester, c: Course, color: string, room: string, n: nat, i: nat, j: nat)
    requires ConfigOk(cfg) && CursorOk(b.cursor)
    requires |b.events| <= i < j < |b.events| + n
    ensures var r := PlaceMeetings(cfg, b, p, s, c, color, room, n);
            r.events[i].id != r.events[j].id
  {
    var evs := PlaceMeetings(cfg, b, p, s, c, color, room, n).events;
    MeetingsBlock(cfg, b, p, s, c, color, room, n);
    assert evs[i].id.ordinal == i - |b.events| + 1;
    assert evs[j].id.ordinal == j - |b.events| + 1;
  }

  /** A course adds `meetings` events and advances each palette counter by one exactly
      when it has no colour (room) of its own. */
  lemma CourseCounts(cfg: Config, st: SemesterState, p: Program, s: Semester, c: Course)
    requires ConfigOk(cfg) && CursorOk(st.cursor)
    ensures var r := PlaceCourse(cfg, st, p, s, c);
            && r.acc.colorIndex == st.acc.colorIndex + (if c.color.None? then 1 else 0)
            && r.acc.roomIndex == st.acc.roomIndex + (if c.room.None? then 1 else 0)
            && |r.acc.events| == |st.acc.events| + cfg.meetings
  {
  }

  /** A course uses its own colour and room when it has them and leaves that counter alone;
      otherwise it takes the palette entry at the counter and advances it by one. Its block
      holds `meetings` meetings, all of them described by the course. */
  lemma CourseBlock(cfg: Config, st: SemesterState, p: Program, s: Semester, c: Course)
    requires ConfigOk(cfg) && CursorOk(st.cursor)
    ensures var r := PlaceCourse(cfg, st, p, s, c);
            var color := if c.color.Some? then c.color.value else DefaultColors[st.acc.colorIndex % 7];
            var room := if c.room.Some? then c.room.value else DefaultRooms[st.acc.roomIndex % 5];
            && r.acc.colorIndex == st.acc.colorIndex + (if c.color.None? then 1 else 0)
            && r.acc.roomIndex == st.acc.roomIndex + (if c.room.None? then 1 else 0)
            && |r.acc.events| == |st.acc.events| + cfg.meetings
            && Block(cfg, r.acc.events, |st.acc.events|, p, s, c, color, room)
  {
    var color := if c.color.Some? then c.color.value else Pick(DefaultColors, st.acc.colorIndex);
    var room := if c.room.Some? then c.room.value else Pick(DefaultRooms, st.acc.roomIndex);
    assert color == if c.color.Some? then c.color.value else DefaultColors[st.acc.colorIndex % 7];
    assert room == if c.room.Some? then c.room.value else DefaultRooms[st.acc.roomIndex % 5];
    var b := PlaceMeetings(cfg, Board(st.acc.events, st.cursor), p, s, c, color, room, cfg.meetings);
    assert PlaceCourse(cfg, st, p, s, c).acc.events == b.events;
    MeetingsBlock(cfg, Board(st.acc.events, st.cursor), p, s, c, color, room, cfg.meetings);
  }

  // ----- Counting -----

  /** The courses of some semesters, in order. */
  function SemesterCourses(ss: seq<Semester>): seq<Course>
    decreases |ss|
  {
    if ss == [] then [] else SemesterCourses(ss[..|ss| - 1]) + ss[|ss| - 1].courses
  }

  /** The courses of a catalogue, in program, semester, course order. */
  function CatalogueCourses(ps: seq<Program>): seq<Course>
    decreases |ps|
  {
    if ps == [] then [] else CatalogueCourses(ps[..|ps| - 1]) + SemesterCourses(ps[|ps| - 1].semesters)
  }

  /** How many of `cs` have no colour of their own. */
  function NoColor(cs: seq<Course>): nat
    decreases |cs|
  {
    if cs == [] then 0 else NoColor(cs[..|cs| - 1]) + (if cs[|cs| - 1].color.None? then 1 else 0)
  }

  /** How many of `cs` have no room of their own. */
  function NoRoom(cs: seq<Course>): nat
    decreases |cs|
  {
    if cs == [] then 0 else NoRoom(cs[..|cs| - 1]) + (if cs[|cs| - 1].room.None? then 1 else 0)
  }

  lemma {:induction false} CountsAppend(xs: seq<Course>, ys: seq<Course>)
    ensures NoColor(xs + ys) == NoColor(xs) + NoColor(ys)
    ensures NoRoom(xs + ys) == NoRoom(xs) + NoRoom(ys)
    decreases |ys|
  {
    var zs := xs + ys;
    if ys == [] {
      assert zs == xs;
    } else {
      assert zs[..|zs| - 1] == xs + ys[..|ys| - 1];
      assert zs[|zs| - 1] == ys[|ys| - 1];
      CountsAppend(xs, ys[..|ys| - 1]);
    }
  }

  lemma CountsSingle(c: Course)
    ensures NoColor([c]) == if c.color.None? then 1 else 0
    ensures NoRoom([c]) == if c.room.None? then 1 else 0
  {
    assert [c][..0] == [];
  }

  /** The state a catalogue's run ends in, from the start or from `a`, counts exactly:
      `meetings` events per course, and one colour (room) step per course without its own. */
  ghost predicate Tally(cfg: Config, a: Acc, r: Acc, cs: seq<Course>) {
    && |r.events| == |a.events| + cfg.meetings * |cs|
    && r.colorIndex == a.colorIndex + NoColor(cs)
    && r.roomIndex == a.roomIndex + NoRoom(cs)
  }

  lemma TallyStep(cfg: Config, a: Acc, mid: Acc, r: Acc, xs: seq<Course>, ys: seq<Course>)
    requires Tally(cfg, a, mid, xs) && Tally(cfg, mid, r, ys)
    ensures Tally(cfg, a, r, xs + ys)
  {
    CountsAppend(xs, ys);
    assert cfg.meetings * |xs + ys| == cfg.meetings * |xs| + cfg.meetings * |ys|;
  }

  lemma {:induction false} CoursesTally(cfg: Config, st: SemesterState, p: Program, s: Semester, cs: seq<Course>)
    requires ConfigOk(cfg) && CursorOk(st.cursor)
    ensures Tally(cfg, st.acc, PlaceCourses(cfg, st, p, s, cs).acc, cs)
    decreases |cs|
  {
    if cs != [] {
      var init, last := cs[..|cs| - 1], cs[|cs| - 1];
      var prev := PlaceCourses(cfg, st, p, s, init);
      CoursesTally(cfg, st, p, s, init);
      CourseTally(cfg, prev, p, s, last);
      LastCourse(cfg, st, p, s, cs);
      SplitLast(cs);
      TallyStep(cfg, st.acc, prev.acc, PlaceCourses(cfg, st, p, s, cs).acc, init, [last]);
    }
  }

  /** A non-empty list is its front followed by its last element. */
  lemma SplitLast<T>(xs: seq<T>)
    requires xs != []
    ensures xs[..|xs| - 1] + [xs[|xs| - 1]] == xs
  {
  }

  /** The run over a list of courses is the run over all but the last, then the last. */
  lemma LastCourse(cfg: Config, st: SemesterState, p: Program, s: Semester, cs: seq<Course>)
    requires ConfigOk(cfg) && CursorOk(st.cursor) && cs != []
    ensures PlaceCourses(cfg, st, p, s, cs)
         == PlaceCourse(cfg, PlaceCourses(cfg, st, p, s, cs[..|cs| - 1]), p, s, cs[|cs| - 1])
  {
  }

  lemma CourseTally(cfg: Config, st: SemesterState, p: Program, s: Semester, c: Course)
    requires ConfigOk(cfg) && CursorOk(st.cursor)
    ensures Tally(cfg, st.acc, PlaceCourse(cfg, st, p, s, c).acc, [c])
  {
    CourseCounts(cfg, st, p, s, c);
    CountsSingle(c);
  }

  lemma {:induction false} SemestersTally(cfg: Config, a: Acc, p: Program, ss: seq<Semester>)
    requires ConfigOk(cfg)
    ensures Tally(cfg, a, PlaceSemesters(cfg, a, p, ss), SemesterCourses(ss))
    decreases |ss|
  {
    if ss != [] {
      var prev := PlaceSemesters(cfg, a, p, ss[..|ss| - 1]);
      var last := ss[|ss| - 1];
      SemestersTally(cfg, a, p, ss[..|ss| - 1]);
      CoursesTally(cfg, SemesterState(prev, FreshCursor), p, last, last.courses);
      TallyStep(cfg, a, prev, PlaceSemesters(cfg, a, p, ss), SemesterCourses(ss[..|ss| - 1]), last.courses);
    }
  }

  lemma {:induction false} ProgramsTally(cfg: Config, a: Acc, ps: seq<Program>)
    requires ConfigOk(cfg)
    ensures Tally(cfg, a, PlacePrograms(cfg, a, ps), CatalogueCourses(ps))
    decreases |ps|
  {
    if ps != [] {
      var prev := PlacePrograms(cfg, a, ps[..|ps| - 1]);
      var last := ps[|ps| - 1];
      ProgramsTally(cfg, a, ps[..|ps| - 1]);
      SemestersTally(cfg, prev, last, last.semesters);
      TallyStep(cfg, a, prev, PlacePrograms(cfg, a, ps), CatalogueCourses(ps[..|ps| - 1]), SemesterCourses(last.semesters));
    }
  }

  /** The number of meetings is the number of courses times the meetings per course, and
      the palette counters end at the number of courses that fell back on each palette:
      they run across the whole catalogue and are never reset per semester. */
  lemma EventCount(input: seq<Program>, o: Options, today: int)
    requires OptionsOk(o)
    ensures var cfg := Resolve(o, today);
            var a := PlacePrograms(cfg, Acc([], 0, 0), input);
            && |Expected(input, o, today).events| == cfg.meetings * |CatalogueCourses(input)|
            && Expected(input, o, today).stats.totalClasses == cfg.meetings * |CatalogueCourses(input)|
            && a.colorIndex == NoColor(CatalogueCourses(input))
            && a.roomIndex == NoRoom(CatalogueCourses(input))
  {
    ProgramsTally(Resolve(o, today), Acc([], 0, 0), input);
  }

  // ----- Where meetings lie -----

  /** A placed meeting starts on the hour between 09:00 and 16:00 on a weekday and, when
      it lasts at most eight hours, ends by 17:00 on its day. */
  lemma PlacedInWindow(cfg: Config, e: Event)
    requires ConfigOk(cfg) && Placed(cfg, e)
    ensures 1 <= Weekday(e.start.day) <= 5
    ensures e.start.minute % 60 == 0
    ensures DefaultStartHour <= e.start.minute / 60 < DefaultEndHour
    ensures cfg.duration <= 480 ==> e.end.day == e.start.day && e.end.minute <= 60 * DefaultEndHour
  {
    WorkWeek(cfg.monday, e.start.day - cfg.monday);
    assert cfg.duration <= 480 ==> HoursFor(cfg.duration) <= 8;
  }

  /** Every meeting lies in the Monday-to-Friday week of the anchor date (the given week
      start, or today), inside the daily window, and lasts the configured duration. */
  lemma MeetingsInWindow(input: seq<Program>, o: Options, today: int, e: Event)
    requires OptionsOk(o)
    requires e in Expected(input, o, today).events
    ensures var anchor := if o.weekStartDate.Some? then o.weekStartDate.value else today;
            var cfg := Resolve(o, today);
            && MondayOf(anchor) <= e.start.day < MondayOf(anchor) + 5
            && 1 <= Weekday(e.start.day) <= 5
            && e.start.minute % 60 == 0
            && DefaultStartHour <= e.start.minute / 60 < DefaultEndHour
            && Minutes(e.end) == Minutes(e.start) + cfg.duration
            && (cfg.duration <= 480 ==> e.end.day == e.start.day && e.end.minute <= 60 * DefaultEndHour)
  {
    var cfg := Resolve(o, today);
    assert Placed(cfg, e);
    PlacedInWindow(cfg, e);
  }

  /** The reset rule: a meeting goes back to 09:00 exactly when starting at the later of
      09:00 and its day's cursor would end after 17:00; otherwise it starts at the cursor.
      Only that day's cursor moves, to the hour after the meeting. */
  lemma CursorRule(cfg: Config, b: Board, p: Program, s: Semester, c: Course, color: string, room: string, m: nat)
    requires ConfigOk(cfg) && CursorOk(b.cursor)
    ensures var d := DayFor(|b.events|, m);
            var h := HoursFor(cfg.duration);
            var r := PlaceMeeting(cfg, b, p, s, c, color, room, m);
            var e := r.events[|b.events|];
            && |r.events| == |b.events| + 1
            && (Max(DefaultStartHour, b.cursor[d - 1]) + h > DefaultEndHour ==> e.start.minute == 60 * DefaultStartHour)
            && (Max(DefaultStartHour, b.cursor[d - 1]) + h <= DefaultEndHour ==> e.start.minute == 60 * b.cursor[d - 1])
            && r.cursor == b.cursor[d - 1 := e.start.minute / 60 + h]
  {
  }

  // ----- Bounded non-overlap within a semester -----

  const RestartMinute: nat := 60 * DefaultStartHour

  /** No meeting after index `i` on the same day starts at 09:00, i.e. that day's cursor
      has not been reset since meeting `i`. */
  ghost predicate NoRestartAfter(evs: seq<Event>, i: nat, j: nat)
    requires i <= j <= |evs|
  {
    forall k :: i < k < j && evs[k].start.day == evs[i].start.day ==> evs[k].start.minute != RestartMinute
  }

  /** Meetings from index `from` on that share a day, with no 09:00 start after the first of
      them up to and including the second, are in order and do not overlap. */
  ghost predicate ApartSinceRestart(evs: seq<Event>, from: nat) {
    forall i, j :: from <= i < j < |evs| && evs[i].start.day == evs[j].start.day && NoRestartAfter(evs, i, j + 1)
      ==> Minutes(evs[i].end) <= Minutes(evs[j].start)
  }

  /** The last meetings of each day since its last restart end by the day's cursor. */
  ghost predicate BelowCursor(cfg: Config, evs: seq<Event>, from: nat, cursor: seq<int>) {
    && |cursor| == 5
    && forall i :: from <= i < |evs| && cfg.monday <= evs[i].start.day < cfg.monday + 5 && NoRestartAfter(evs, i, |evs|)
         ==> Minutes(evs[i].end) <= evs[i].start.day * MinutesPerDay + 60 * cursor[evs[i].start.day - cfg.monday]
  }

  ghost predicate Separated(cfg: Config, evs: seq<Event>, from: nat, cursor: seq<int>) {
    from <= |evs| && BelowCursor(cfg, evs, from, cursor) && ApartSinceRestart(evs, from)
  }

  /** Appending a meeting that starts at hour `hour` of weekday `d` and ends by `hour + h`,
      at the day's cursor unless it is a 09:00 restart, keeps the separation invariant with
      that day's cursor moved to `hour + h`. */
  lemma AppendKeepsSeparated(cfg: Config, evs: seq<Event>, cursor: seq<int>, evs': seq<Event>, cursor': seq<int>,
                              e: Event, d: nat, hour: nat, h: nat, from: nat)
    requires Separated(cfg, evs, from, cursor)
    requires 1 <= d <= 5
    requires evs' == evs + [e] && cursor' == cursor[d - 1 := hour + h]
    requires e.start == Stamp(cfg.monday + d - 1, 60 * hour)
    requires Minutes(e.end) <= e.start.day * MinutesPerDay + 60 * (hour + h)
    requires e.start.minute != RestartMinute ==> hour == cursor[d - 1]
    ensures Separated(cfg, evs', from, cursor')
  {
    var n := |evs|;
    assert evs'[n] == e;

    forall i | from <= i < |evs'| && cfg.monday <= evs'[i].start.day < cfg.monday + 5 && NoRestartAfter(evs', i, |evs'|)
      ensures Minutes(evs'[i].end) <= evs'[i].start.day * MinutesPerDay + 60 * cursor'[evs'[i].start.day - cfg.monday]
    {
      if i < n {
        assert evs'[i] == evs[i];
        assert NoRestartAfter(evs, i, n) by {
          forall k | i < k < n && evs[k].start.day == evs[i].start.day
            ensures evs[k].start.minute != RestartMinute
          {
            assert evs'[k] == evs[k];
          }
        }
      }
    }
    assert BelowCursor(cfg, evs', from, cursor');

    forall i, j | from <= i < j < |evs'| && evs'[i].start.day == evs'[j].start.day && NoRestartAfter(evs', i, j + 1)
      ensures Minutes(evs'[i].end) <= Minutes(evs'[j].start)
    {
      assert evs'[i] == evs[i];
      if j == n {
        assert NoRestartAfter(evs, i, n) by {
          forall k | i < k < n && evs[k].start.day == evs[i].start.day
            ensures evs[k].start.minute != RestartMinute
          {
            assert evs'[k] == evs[k];
          }
        }
      } else {
        assert evs'[j] == evs[j];
        assert NoRestartAfter(evs, i, j + 1) by {
          forall k | i < k < j + 1 && evs[k].start.day == evs[i].start.day
            ensures evs[k].start.minute != RestartMinute
          {
            assert evs'[k] == evs[k];
          }
        }
      }
    }
  }

  lemma {:induction false} MeetingsKeepSeparated(cfg: Config, b: Board, p: Program, s: Semester, c: Course, color: string, room: string, n: nat, from: nat)
    requires ConfigOk(cfg) && CursorOk(b.cursor)
    requires Separated(cfg, b.events, from, b.cursor)
    ensures Separated(cfg, PlaceMeetings(cfg, b, p, s, c, color, room, n).events, from, PlaceMeetings(cfg, b, p, s, c, color, room, n).cursor)
    decreases n
  {
    if n > 0 {
      MeetingsKeepSeparated(cfg, b, p, s, c, color, room, n - 1, from);
      LastSeparatedStep(cfg, b, p, s, c, color, room, n, from);
    } else {
      assert PlaceMeetings(cfg, b, p, s, c, color, room, 0) == b;
    }
  }

  lemma LastSeparatedStep(cfg: Config, b: Board, p: Program, s: Semester, c: Course, color: string, room: string, n: nat, from: nat)
    requires ConfigOk(cfg) && CursorOk(b.cursor) && n > 0
    requires Separated(cfg, PlaceMeetings(cfg, b, p, s, c, color, room, n - 1).events, from, PlaceMeetings(cfg, b, p, s, c, color, room, n - 1).cursor)
    ensures Separated(cfg, PlaceMeetings(cfg, b, p, s, c, color, room, n).events, from, PlaceMeetings(cfg, b, p, s, c, color, room, n).cursor)
  {
    var prev := PlaceMeetings(cfg, b, p, s, c, color, room, n - 1);
    var r := PlaceMeetings(cfg, b, p, s, c, color, room, n);
    SeparatedStep(cfg, b, prev, r, p, s, c, color, room, n, from);
  }

  /** The separation invariant carries over from `n - 1` to `n` meetings. */
  lemma SeparatedStep(cfg: Config, b: Board, prev: Board, r: Board, p: Program, s: Semester, c: Course, color: string, room: string, n: nat, from: nat)
    requires ConfigOk(cfg) && CursorOk(b.cursor) && n > 0
    requires prev == PlaceMeetings(cfg, b, p, s, c, color, room, n - 1)
    requires r == PlaceMeetings(cfg, b, p, s, c, color, room, n)
    requires Separated(cfg, prev.events, from, prev.cursor)
    ensures Separated(cfg, r.events, from, r.cursor)
  {
    var e := MeetingAt(cfg, prev, p, s, c, color, room, n - 1);
    var d, hour, h := NextMeeting(cfg, b, prev, r, p, s, c, color, room, n);
    MeetingAtFacts(cfg, prev, p, s, c, color, room, n);
    // A meeting that does not start at 09:00 was not reset: it starts at its day's cursor.
    assert e.start.minute != RestartMinute ==> hour == prev.cursor[d - 1];
    AppendKeepsSeparated(cfg, prev.events, prev.cursor, r.events, r.cursor, e, d, hour, h, from);
  }

  lemma CourseKeepsSeparated(cfg: Config, st: SemesterState, p: Program, s: Semester, c: Course, from: nat)
    requires ConfigOk(cfg) && CursorOk(st.cursor)
    requires Separated(cfg, st.acc.events, from, st.cursor)
    ensures var r := PlaceCourse(cfg, st, p, s, c);
            Separated(cfg, r.acc.events, from, r.cursor)
  {
    var color := if c.color.Some? then c.color.value else Pick(DefaultColors, st.acc.colorIndex);
    var room := if c.room.Some? then c.room.value else Pick(DefaultRooms, st.acc.roomIndex);
    var b := Board(st.acc.events, st.cursor);
    MeetingsKeepSeparated(cfg, b, p, s, c, color, room, cfg.meetings, from);
  }

  lemma {:induction false} CoursesKeepSeparated(cfg: Config, st: SemesterState, p: Program, s: Semester, cs: seq<Course>, from: nat)
    requires ConfigOk(cfg) && CursorOk(st.cursor)
    requires Separated(cfg, st.acc.events, from, st.cursor)
    ensures var r := PlaceCourses(cfg, st, p, s, cs);
            Separated(cfg, r.acc.events, from, r.cursor)
    decreases |cs|
  {
    if cs != [] {
      CoursesKeepSeparated(cfg, st, p, s, cs[..|cs| - 1], from);
      CourseKeepsSeparated(cfg, PlaceCourses(cfg, st, p, s, cs[..|cs| - 1]), p, s, cs[|cs| - 1], from);
    }
  }

  /** Within the meetings of one semester, two meetings on the same day with no 09:00 start
      (a cursor reset) after the first of them up to the second do not overlap: the first
      ends no later than the second starts. Beyond a reset the guarantee does not hold
      (see ResetOverlap). */
  lemma SemesterApartSinceReset(cfg: Config, a: Acc, p: Program, s: Semester)
    requires ConfigOk(cfg)
    ensures ApartSinceRestart(PlaceSemester(cfg, a, p, s).events, |a.events|)
  {
    assert Separated(cfg, a.events, |a.events|, FreshCursor);
    CoursesKeepSeparated(cfg, SemesterState(a, FreshCursor), p, s, s.courses, |a.events|);
  }

  // ----- Concrete runs -----

  const Monday2024: int := 19723   // 2024-01-01, a Monday

  /** A catalogue of one program with one semester with one course is that course placed
      from the counters `a` and fresh cursors. */
  lemma OneCourseCatalogue(cfg: Config, a: Acc, p: Program, s: Semester, c: Course)
    requires ConfigOk(cfg) && p.semesters == [s] && s.courses == [c]
    ensures PlacePrograms(cfg, a, [p]) == PlaceCourse(cfg, SemesterState(a, FreshCursor), p, s, c).acc
  {
    var st := SemesterState(a, FreshCursor);
    assert [p][..0] == [];
    assert PlacePrograms(cfg, a, [p]) == PlaceProgram(cfg, a, p);
    assert p.semesters[..0] == [];
    assert PlaceSemesters(cfg, a, p, [s]) == PlaceSemester(cfg, a, p, s);
    assert s.courses[..0] == [];
    assert PlaceCourses(cfg, st, p, s, [c]) == PlaceCourse(cfg, st, p, s, c);
  }

  /** The timetable of one default course in the week of 2024-01-01. */
  ghost function SingleCourseTimetable(): Timetable {
    Expected([Program("P1", "Program 1", [Semester("S1", "Semester 1", [Course("C1", None, None, None, None)])])],
             Options(Some(Monday2024), None, None), 0)
  }

  /** One program, one semester, one course, defaults otherwise: two 90-minute meetings at
      09:00, on Monday and on Wednesday of the anchor week. */
  lemma SingleCourseExample()
    ensures var t := SingleCourseTimetable();
            && |t.events| == 2
            && t.events[0].start == Stamp(Monday2024, 540) && t.events[0].end == Stamp(Monday2024, 630)
            && t.events[1].start == Stamp(Monday2024 + 2, 540) && t.events[1].end == Stamp(Monday2024 + 2, 630)
            && t.events[0].title == "C1 - C1 - TBA"
            && t.events[0].backgroundColor == "#3B82F6" && t.events[0].room == "Room A-101"
            && t.events[1].id == EventId("P1", "S1", "C1", 2, Minutes(Stamp(Monday2024 + 2, 540)))
            && t.stats == Stats(2, 62, 61, 0)
  {
    var c := Course("C1", None, None, None, None);
    var s := Semester("S1", "Semester 1", [c]);
    var p := Program("P1", "Program 1", [s]);
    var o := Options(Some(Monday2024), None, None);
    var cfg := Resolve(o, 0);
    assert cfg == Config(Monday2024, 90, 2);
    var col, rm := "#3B82F6", "Room A-101";
    assert Pick(DefaultColors, 0) == col && Pick(DefaultRooms, 0) == rm;
    OneCourseCatalogue(cfg, Acc([], 0, 0), p, s, c);
    TwoShortMeetings(cfg, p, s, c, col, rm);
    ExampleTitle();
    var t := SingleCourseTimetable();
    assert t == Expected([p], o, 0);
    assert t.events == PlaceMeetings(cfg, Board([], FreshCursor), p, s, c, col, rm, 2).events;
    assert t.stats == Summary(2);
    SummaryOfTwo();
  }

  lemma SummaryOfTwo()
    ensures Summary(2) == Stats(2, 62, 61, 0)
  {
  }

  /** Two 90-minute meetings from fresh cursors: Monday and Wednesday, both at 09:00. */
  lemma TwoShortMeetings(cfg: Config, p: Program, s: Semester, c: Course, col: string, rm: string)
    requires ConfigOk(cfg) && cfg.duration == 90
    ensures var evs := PlaceMeetings(cfg, Board([], FreshCursor), p, s, c, col, rm, 2).events;
            && |evs| == 2
            && evs[0].start == Stamp(cfg.monday, 540) && evs[0].end == Stamp(cfg.monday, 630)
            && evs[1].start == Stamp(cfg.monday + 2, 540) && evs[1].end == Stamp(cfg.monday + 2, 630)
            && evs[0].title == Title(c.courseCode, CourseTitle(c), Faculty(c))
            && evs[0].backgroundColor == col && evs[0].room == rm
            && evs[1].id == EventId(p.programId, s.semesterId, c.courseCode, 2, Minutes(evs[1].start))
  {
    var b0 := Board([], FreshCursor);
    var b1 := PlaceMeeting(cfg, b0, p, s, c, col, rm, 0);
    assert PlaceMeetings(cfg, b0, p, s, c, col, rm, 1) == b1;
    var e0 := MeetingAt(cfg, b0, p, s, c, col, rm, 0);
    assert e0.start == Stamp(cfg.monday, 540);
    assert e0.end == Stamp(cfg.monday, 630);
    assert b1.events == [e0] && b1.cursor[2] == 9;
    var b2 := PlaceMeeting(cfg, b1, p, s, c, col, rm, 1);
    assert PlaceMeetings(cfg, b0, p, s, c, col, rm, 2) == b2;
    var e1 := MeetingAt(cfg, b1, p, s, c, col, rm, 1);
    assert DayFor(1, 1) == 3;
    assert e1.start == Stamp(cfg.monday + 2, 540);
    assert e1.end == Stamp(cfg.monday + 2, 630);
    assert b2.events == [e0, e1];
  }

  lemma ExampleTitle()
    ensures Title("C1", "C1", "TBA") == "C1 - C1 - TBA"
  {
    assert "C1" + " - " + "C1" == "C1 - C1";
  }

  /** Meeting `e` takes day `day` from 09:00 to 17:00. */
  predicate FullDay(e: Event, day: int) {
    e.start == Stamp(day, 540) && e.end == Stamp(day, 1020)
  }

  /** Eight-hour meetings fill a day: the first five meetings of a course take Monday to
      Friday at 09:00 in the order Mon, Wed, Fri, Tue, Thu and leave every cursor at 17:00. */
  lemma FiveFullDays(cfg: Config, p: Program, s: Semester, c: Course, col: string, rm: string)
    requires ConfigOk(cfg) && cfg.duration == 480
    ensures var b5 := PlaceMeetings(cfg, Board([], FreshCursor), p, s, c, col, rm, 5);
            && (forall k :: 0 <= k < 5 ==> b5.cursor[k] == 17)
            && |b5.events| == 5
            && FullDay(b5.events[0], cfg.monday)
            && FullDay(b5.events[1], cfg.monday + 2)
            && FullDay(b5.events[2], cfg.monday + 4)
            && FullDay(b5.events[3], cfg.monday + 1)
            && FullDay(b5.events[4], cfg.monday + 3)
            && b5.events[0].semesterId == s.semesterId
  {
    var b0 := Board([], FreshCursor);
    var b1 := PlaceMeeting(cfg, b0, p, s, c, col, rm, 0);
    var b2 := PlaceMeeting(cfg, b1, p, s, c, col, rm, 1);
    var b3 := PlaceMeeting(cfg, b2, p, s, c, col, rm, 2);
    var b4 := PlaceMeeting(cfg, b3, p, s, c, col, rm, 3);
    var b5 := PlaceMeeting(cfg, b4, p, s, c, col, rm, 4);
    assert b1.cursor == [17, 9, 9, 9, 9];
    assert FullDay(b1.events[0], cfg.monday);
    assert b2.cursor == [17, 9, 17, 9, 9];
    assert FullDay(b2.events[1], cfg.monday + 2);
    assert b3.cursor == [17, 9, 17, 9, 17];
    assert FullDay(b3.events[2], cfg.monday + 4);
    assert b4.cursor == [17, 17, 17, 9, 17];
    assert FullDay(b4.events[3], cfg.monday + 1);
    assert b5.cursor == [17, 17, 17, 17, 17];
    assert FullDay(b5.events[4], cfg.monday + 3);
    assert b5.events[..4] == b4.events && b4.events[..3] == b3.events;
    assert b3.events[..2] == b2.events && b2.events[..1] == b1.events;
    assert b5.events[0] == b1.events[0];
    assert PlaceMeetings(cfg, b0, p, s, c, col, rm, 1) == b1;
    assert PlaceMeetings(cfg, b0, p, s, c, col, rm, 2) == b2;
    assert PlaceMeetings(cfg, b0, p, s, c, col, rm, 3) == b3;
    assert PlaceMeetings(cfg, b0, p, s, c, col, rm, 4) == b4;
    assert PlaceMeetings(cfg, b0, p, s, c, col, rm, 5) == b5;
  }

  /** The overflow reset puts a meeting back at 09:00 on a day that already has a 09:00
      meeting of the same semester: with eight-hour meetings and six meetings of one course,
      meetings 1 and 6 both occupy Monday 09:00-17:00, while `conflicts` is 0. */
  lemma ResetOverlap()
    ensures var c := Course("C1", None, None, None, None);
            var input := [Program("P1", "Program 1", [Semester("S1", "Semester 1", [c])])];
            var t := Expected(input, Options(Some(Monday2024), Some(480), Some(6)), 0);
            && |t.events| == 6
            && t.events[0].semesterId == t.events[5].semesterId
            && t.events[0].start == t.events[5].start == Stamp(Monday2024, 540)
            && Minutes(t.events[5].start) < Minutes(t.events[0].end)
            && t.stats.conflicts == 0
  {
    var c := Course("C1", None, None, None, None);
    var s := Semester("S1", "Semester 1", [c]);
    var p := Program("P1", "Program 1", [s]);
    var o := Options(Some(Monday2024), Some(480), Some(6));
    var cfg := Resolve(o, 0);
    assert cfg == Config(Monday2024, 480, 6);
    var col, rm := Pick(DefaultColors, 0), Pick(DefaultRooms, 0);
    OneCourseCatalogue(cfg, Acc([], 0, 0), p, s, c);
    SixthRestarts(cfg, p, s, c, col, rm);
    assert Expected([p], o, 0).events == PlaceMeetings(cfg, Board([], FreshCursor), p, s, c, col, rm, 6).events;
  }

  /** With eight-hour meetings, the sixth meeting of a course returns to Monday 09:00,
      over the first one. */
  lemma SixthRestarts(cfg: Config, p: Program, s: Semester, c: Course, col: string, rm: string)
    requires ConfigOk(cfg) && cfg.duration == 480
    ensures var evs := PlaceMeetings(cfg, Board([], FreshCursor), p, s, c, col, rm, 6).events;
            && |evs| == 6
            && evs[0].start == evs[5].start == Stamp(cfg.monday, 540)
            && evs[0].end == Stamp(cfg.monday, 1020)
            && evs[0].semesterId == evs[5].semesterId == s.semesterId
  {
    var b0 := Board([], FreshCursor);
    var b5 := PlaceMeetings(cfg, b0, p, s, c, col, rm, 5);
    FiveFullDays(cfg, p, s, c, col, rm);
    var b6 := PlaceMeeting(cfg, b5, p, s, c, col, rm, 5);
    assert DayFor(5, 5) == 1;
    RestartStep(cfg, b5, p, s, c, col, rm, 5);
    assert PlaceMeetings(cfg, b0, p, s, c, col, rm, 6) == b6;
    assert b6.events[0] == b5.events[0];
  }

  /** A meeting whose day's cursor leaves no room for it starts at 09:00 on that day. */
  lemma RestartStep(cfg: Config, b: Board, p: Program, s: Semester, c: Course, color: string, room: string, m: nat)
    requires ConfigOk(cfg) && CursorOk(b.cursor)
    requires b.cursor[DayFor(|b.events|, m) - 1] + HoursFor(cfg.duration) > DefaultEndHour
    ensures var e := PlaceMeeting(cfg, b, p, s, c, color, room, m).events[|b.events|];
            && e.start == Stamp(cfg.monday + DayFor(|b.events|, m) - 1, 60 * DefaultStartHour)
            && e.semesterId == s.semesterId
  {
  }

  /** An empty catalogue gives no meetings and zero classes. */
  lemma EmptyCatalogue(o: Options, today: int)
    requires OptionsOk(o)
    ensures Expected([], o, today) == Timetable([], Stats(0, 60, 55, 0))
  {
  }

  /** Leaving out the duration or the meeting count is the same as passing 90 or 2. */
  lemma DefaultSubstitution(input: seq<Program>, o: Options, today: int)
    requires OptionsOk(o)
    ensures Expected(input, o.(meetingDurationMinutes := None), today)
         == Expected(input, o.(meetingDurationMinutes := Some(90)), today)
    ensures Expected(input, o.(meetingsPerCourse := None), today)
         == Expected(input, o.(meetingsPerCourse := Some(2)), today)
  {
  }

  // ----- Small facts -----

  /** The palettes cycle: counter values seven (colours) or five (rooms) apart pick the same entry. */
  lemma PalettesCycle(k: nat)
    ensures Pick(DefaultColors, k + 7) == Pick(DefaultColors, k)
    ensures Pick(DefaultRooms, k + 5) == Pick(DefaultRooms, k)
  {
    var q, r := k / 7, k % 7;
    assert k + 7 == 7 * (q + 1) + r;
    var q', r' := k / 5, k % 5;
    assert k + 5 == 5 * (q' + 1) + r';
  }

  /** The title is the code, then ` - title` when the title is non-empty, then ` - faculty`. */
  lemma TitleShape(code: string, courseTitle: string, faculty: string)
    ensures var t := Title(code, courseTitle, faculty);
            && |t| == |code| + 3 + |faculty| + (if courseTitle == "" then 0 else 3 + |courseTitle|)
            && t[..|code|] == code
            && (courseTitle != "" ==> t[|code|..|code| + 3 + |courseTitle|] == " - " + courseTitle)
            && t[|t| - 3 - |faculty|..] == " - " + faculty
  {
  }

  /** The utilisation figures repeat every 40 classes; faculty utilisation reaches its cap of 95
      exactly when the count is 35 or more modulo 40. */
  lemma SummaryPeriodic(n: nat)
    ensures Summary(n + 40).facultyUtilization == Summary(n).facultyUtilization
    ensures Summary(n + 40).roomUtilization == Summary(n).roomUtilization
    ensures Summary(n).facultyUtilization == 95 <==> n % 40 >= 35
  {
    assert (n + 40) % 40 == n % 40;
    assert (3 * (n + 40)) % 40 == (3 * n) % 40 by {
      assert 3 * (n + 40) == 3 * n + 40 * 3;
    }
  }
}

/**
  The greedy semester-wise slot allocator. Programs are visited in order, then
  their semesters, then their courses; each course asks for a fixed number of
  weekly meetings. A meeting's weekday is picked round-robin from the number of
  meetings emitted so far, its hour from a per-weekday cursor that is fresh for
  every semester, and a course without its own colour or room takes the next
  entry of a cyclic palette whose counter runs across the whole catalogue.

  The functions PlaceMeeting ... PlacePrograms and Expected define the result
  as a left-to-right fold; the method GenerateSemesterWiseTimetable computes it
  with the nested loops, the array of cursors and the counters of
  `generateSemesterWiseTimetable`.
*/
module Scheduler {
  import opened Calendar

  datatype Option<T> = None | Some(value: T)

  // ----- Input catalogue -----

  /** A course; every field but the code is optional. (`hoursPerWeek` is never read.) */
  datatype Course = Course(
    courseCode: string,
    title: Option<string>,
    faculty: Option<string>,
    color: Option<string>,
    room: Option<string>)

  datatype Semester = Semester(semesterId: string, semesterName: string, courses: seq<Course>)

  datatype Program = Program(programId: string, programName: string, semesters: seq<Semester>)

  /** The generation options; `weekStartDate` is a local day number. */
  datatype Options = Options(
    weekStartDate: Option<int>,
    meetingDurationMinutes: Option<int>,
    meetingsPerCourse: Option<int>)

  // ----- Output -----

  /** The parts the textual identity `programId-semesterId-courseCode-n-<getTime()>` is built from;
      `startTime` is the start instant in minutes, standing for its epoch value. */
  datatype EventId = EventId(programId: string, semesterId: string, courseCode: string, ordinal: nat, startTime: int)

  datatype Event = Event(
    id: EventId,
    title: string,
    start: Stamp,
    end: Stamp,
    backgroundColor: string,
    room: string,
    programId: string,
    programName: string,
    semesterId: string,
    semesterName: string,
    courseCode: string)

  datatype Stats = Stats(totalClasses: nat, facultyUtilization: nat, roomUtilization: nat, conflicts: nat)

  datatype Timetable = Timetable(events: seq<Event>, stats: Stats)

  // ----- Constants -----

  const DefaultColors: seq<string> := ["#3B82F6", "#10B981", "#8B5CF6", "#F59E0B", "#EF4444", "#14B8A6", "#F472B6"]
  const DefaultRooms: seq<string> := ["Room A-101", "Lab B-201", "Chemistry Lab C-301", "Computer Lab D-401", "Room E-102"]
  const DefaultStartHour: nat := 9
  const DefaultEndHour: nat := 17
  /** ISO weekdays Monday to Friday. */
  const Days: seq<nat> := [1, 2, 3, 4, 5]
  const DefaultDuration: nat := 90
  const DefaultMeetings: nat := 2
  const Unassigned: string := "TBA"

  /** The cursors of a semester before its first course: 09:00 on every weekday. */
  const FreshCursor: seq<int> := [9, 9, 9, 9, 9]

  /** Cyclic palette lookup: `arr[idx % arr.length]`. */
  function Pick<T>(arr: seq<T>, idx: nat): (r: T)
    requires |arr| > 0
    ensures r in arr
  {
    arr[idx % |arr|]
  }

  function Max(a: int, b: int): int { if a < b then b else a }

  function Min(a: int, b: int): int { if a < b then a else b }

  /** `Math.ceil(d / 60)`: the whole hours a meeting of `d` minutes occupies. */
  function HoursFor(d: nat): (h: nat)
    ensures d <= 60 * h < d + 60
  {
    (d + 59) / 60
  }

  // ----- Defaults -----

  /** The options with every default substituted. */
  datatype Config = Config(monday: int, duration: nat, meetings: nat)

  predicate ConfigOk(cfg: Config) {
    cfg.duration >= 1 && Weekday(cfg.monday) == Monday
  }

  /** Options with a duration of at least one minute, whenever one is given. */
  predicate OptionsOk(o: Options) {
    o.meetingDurationMinutes.Some? ==> o.meetingDurationMinutes.value >= 1
  }

  /** The number of passes of `for (m = 0; m < count; m++)`: none for a negative count. */
  function Passes(count: int): (n: nat)
    ensures count >= 0 ==> n == count
    ensures count < 0 ==> n == 0
  {
    if count < 0 then 0 else count
  }

  /** Resolves the options; `today` stands for the clock reading `new Date()`. */
  function Resolve(o: Options, today: int): (cfg: Config)
    requires OptionsOk(o)
    ensures ConfigOk(cfg)
    ensures var anchor := if o.weekStartDate.Some? then o.weekStartDate.value else today;
            cfg.monday <= anchor < cfg.monday + 7
    ensures o.meetingDurationMinutes.None? ==> cfg.duration == DefaultDuration
    ensures o.meetingDurationMinutes.Some? ==> cfg.duration == o.meetingDurationMinutes.value
    ensures o.meetingsPerCourse.None? ==> cfg.meetings == DefaultMeetings
    ensures o.meetingsPerCourse.Some? ==> cfg.meetings == Passes(o.meetingsPerCourse.value)
  {
    var weekStart := if o.weekStartDate.Some? then o.weekStartDate.value else today;
    var duration := if o.meetingDurationMinutes.Some? then o.meetingDurationMinutes.value else DefaultDuration;
    var meetings := if o.meetingsPerCourse.Some? then o.meetingsPerCourse.value else DefaultMeetings;
    Config(MondayOf(weekStart), duration, Passes(meetings))
  }

  function Faculty(c: Course): string {
    if c.faculty.Some? then c.faculty.value else Unassigned
  }

  function CourseTitle(c: Course): string {
    if c.title.Some? then c.title.value else c.courseCode
  }

  /** `code[ - courseTitle] - faculty`; the middle part is left out when the title is empty. */
  function Title(code: string, courseTitle: string, faculty: string): string {
    code + (if courseTitle != "" then " - " + courseTitle else "") + " - " + faculty
  }

  // ----- What one meeting looks like -----

  /** A meeting placed under `cfg`: on the hour, starting in [09:00, 17:00) on a weekday of the
      anchor week, lasting the configured duration, and over by 17:00 when it fits in eight hours. */
  predicate Placed(cfg: Config, e: Event) {
    && Normal(e.start) && Normal(e.end)
    && e.start.minute % 60 == 0
    && 60 * DefaultStartHour <= e.start.minute < 60 * DefaultEndHour
    && cfg.monday <= e.start.day < cfg.monday + 5
    && Minutes(e.end) == Minutes(e.start) + cfg.duration
    && (HoursFor(cfg.duration) <= 8 ==> Minutes(e.end) <= e.start.day * MinutesPerDay + 60 * DefaultEndHour)
    && e.id.startTime == Minutes(e.start)
  }

  /** Meeting `m` (0-based) of course `c` of semester `s` of program `p`, with the resolved colour and room. */
  predicate Describes(e: Event, p: Program, s: Semester, c: Course, color: string, room: string, m: nat) {
    && e.id == EventId(p.programId, s.semesterId, c.courseCode, m + 1, Minutes(e.start))
    && e.title == Title(c.courseCode, CourseTitle(c), Faculty(c))
    && e.backgroundColor == color
    && e.room == room
    && e.programId == p.programId
    && e.programName == p.programName
    && e.semesterId == s.semesterId
    && e.semesterName == s.semesterName
    && e.courseCode == c.courseCode
  }

  /** Every weekday cursor is at 09:00 or later. */
  predicate CursorOk(cursor: seq<int>) {
    |cursor| == 5 && forall k :: 0 <= k < 5 ==> cursor[k] >= DefaultStartHour
  }

  /** `after` is `before` followed by placed meetings only. */
  predicate Extends(cfg: Config, before: seq<Event>, after: seq<Event>) {
    && |before| <= |after|
    && after[..|before|] == before
    && forall i :: |before| <= i < |after| ==> Placed(cfg, after[i])
  }

  lemma ExtendsTransitive(cfg: Config, a: seq<Event>, b: seq<Event>, c: seq<Event>)
    requires Extends(cfg, a, b) && Extends(cfg, b, c)
    ensures Extends(cfg, a, c)
  {
    assert c[..|a|] == c[..|b|][..|a|];
    forall i | |a| <= i < |c|
      ensures Placed(cfg, c[i])
    {
      if i < |b| {
        assert c[i] == c[..|b|][i];
      }
    }
  }

  // ----- The allocation as a fold -----

  /** The events so far and the semester's cursors; `cursor[d - 1]` is the next free hour of weekday `d`. */
  datatype Board = Board(events: seq<Event>, cursor: seq<int>)

  /** The run-wide state: the events and the two palette counters. */
  datatype Acc = Acc(events: seq<Event>, colorIndex: nat, roomIndex: nat)

  /** The run-wide state together with the current semester's cursors. */
  datatype SemesterState = SemesterState(acc: Acc, cursor: seq<int>)

  /** The weekday meeting `m` goes to when `count` events precede the course's loop step. */
  function DayFor(count: nat, m: nat): (d: nat)
    ensures 1 <= d <= 5
  {
    Days[(count + m) % |Days|]
  }

  /** The hour a meeting of `cfg.duration` minutes starts at on weekday `d`: the day's cursor,
      or 09:00 when starting at the later of 09:00 and the cursor would run past 17:00. */
  function SlotHour(cfg: Config, cursor: seq<int>, d: nat): (hour: nat)
    requires ConfigOk(cfg) && CursorOk(cursor) && 1 <= d <= 5
    ensures DefaultStartHour <= hour < DefaultEndHour
    ensures hour == DefaultStartHour || hour + HoursFor(cfg.duration) <= DefaultEndHour
  {
    var startHour := Max(DefaultStartHour, cursor[d - 1]);
    if startHour + HoursFor(cfg.duration) > DefaultEndHour then DefaultStartHour else cursor[d - 1]
  }

  /** Meeting `m` of a course when `b` holds the events and cursors so far. */
  function MeetingAt(cfg: Config, b: Board, p: Program, s: Semester, c: Course, color: string, room: string, m: nat): (e: Event)
    requires ConfigOk(cfg) && CursorOk(b.cursor)
  {
    var dayIndex := DayFor(|b.events|, m);
    var start := AtHour(cfg.monday + (dayIndex - 1), SlotHour(cfg, b.cursor, dayIndex));
    var end := AddMinutes(start, cfg.duration);
    Event(
      EventId(p.programId, s.semesterId, c.courseCode, m + 1, Minutes(start)),
      Title(c.courseCode, CourseTitle(c), Faculty(c)),
      start, end, color, room,
      p.programId, p.programName, s.semesterId, s.semesterName, c.courseCode)
  }

  /** Meeting `n` of a course (1-based, index `n - 1`) lands on its round-robin weekday of the
      anchor week, fits the daily window and carries the course's identity, title, colour and room. */
  lemma MeetingAtFacts(cfg: Config, b: Board, p: Program, s: Semester, c: Course, color: string, room: string, n: nat)
    requires ConfigOk(cfg) && CursorOk(b.cursor) && n > 0
    ensures Placed(cfg, MeetingAt(cfg, b, p, s, c, color, room, n - 1))
    ensures Describes(MeetingAt(cfg, b, p, s, c, color, room, n - 1), p, s, c, color, room, n - 1)
    ensures MeetingAt(cfg, b, p, s, c, color, room, n - 1).start.day == cfg.monday + DayFor(|b.events|, n - 1) - 1
  {
  }

  /** Places meeting `m` of a course: appends it and moves its day's cursor to the hour after it. */
  function PlaceMeeting(cfg: Config, b: Board, p: Program, s: Semester, c: Course, color: string, room: string, m: nat): (r: Board)
    requires ConfigOk(cfg) && CursorOk(b.cursor)
    ensures CursorOk(r.cursor)
  {
    var dayIndex := DayFor(|b.events|, m);
    var hour := SlotHour(cfg, b.cursor, dayIndex);
    Board(b.events + [MeetingAt(cfg, b, p, s, c, color, room, m)],
          b.cursor[dayIndex - 1 := hour + HoursFor(cfg.duration)])
  }

  /** Places meetings 0 .. n-1 of one course. */
  function PlaceMeetings(cfg: Config, b: Board, p: Program, s: Semester, c: Course, color: string, room: string, n: nat): (r: Board)
    requires ConfigOk(cfg) && CursorOk(b.cursor)
    ensures CursorOk(r.cursor)
    ensures |r.events| == |b.events| + n
    decreases n
  {
    if n == 0 then b
    else PlaceMeeting(cfg, PlaceMeetings(cfg, b, p, s, c, color, room, n - 1), p, s, c, color, room, n - 1)
  }

  /** The meetings of a course only append placed meetings. */
  lemma {:induction false} MeetingsExtend(cfg: Config, b: Board, p: Program, s: Semester, c: Course, color: string, room: string, n: nat)
    requires ConfigOk(cfg) && CursorOk(b.cursor)
    ensures Extends(cfg, b.events, PlaceMeetings(cfg, b, p, s, c, color, room, n).events)
    decreases n
  {
    if n > 0 {
      var prev := PlaceMeetings(cfg, b, p, s, c, color, room, n - 1);
      var r := PlaceMeeting(cfg, prev, p, s, c, color, room, n - 1);
      MeetingsExtend(cfg, b, p, s, c, color, room, n - 1);
      MeetingAtFacts(cfg, prev, p, s, c, color, room, n);
      assert r.events == prev.events + [MeetingAt(cfg, prev, p, s, c, color, room, n - 1)];
      assert Extends(cfg, prev.events, r.events);
      ExtendsTransitive(cfg, b.events, prev.events, r.events);
    }
  }

  /** Places one course: resolves its colour, room, faculty and title, then its meetings. */
  function PlaceCourse(cfg: Config, st: SemesterState, p: Program, s: Semester, c: Course): (r: SemesterState)
    requires ConfigOk(cfg) && CursorOk(st.cursor)
    ensures CursorOk(r.cursor)
    ensures Extends(cfg, st.acc.events, r.acc.events)
  {
    var color := if c.color.Some? then c.color.value else Pick(DefaultColors, st.acc.colorIndex);
    var colorIndex := if c.color.Some? then st.acc.colorIndex else st.acc.colorIndex + 1;
    var room := if c.room.Some? then c.room.value else Pick(DefaultRooms, st.acc.roomIndex);
    var roomIndex := if c.room.Some? then st.acc.roomIndex else st.acc.roomIndex + 1;
    var b := PlaceMeetings(cfg, Board(st.acc.events, st.cursor), p, s, c, color, room, cfg.meetings);
    MeetingsExtend(cfg, Board(st.acc.events, st.cursor), p, s, c, color, room, cfg.meetings);
    SemesterState(Acc(b.events, colorIndex, roomIndex), b.cursor)
  }

  /** Places the courses `cs` of one semester, in order. */
  function PlaceCourses(cfg: Config, st: SemesterState, p: Program, s: Semester, cs: seq<Course>): (r: SemesterState)
    requires ConfigOk(cfg) && CursorOk(st.cursor)
    ensures CursorOk(r.cursor)
    ensures Extends(cfg, st.acc.events, r.acc.events)
    decreases |cs|
  {
    if cs == [] then st
    else
      var prev := PlaceCourses(cfg, st, p, s, cs[..|cs| - 1]);
      var r := PlaceCourse(cfg, prev, p, s, cs[|cs| - 1]);
      ExtendsTransitive(cfg, st.acc.events, prev.acc.events, r.acc.events);
      r
  }

  /** Places one semester, starting from fresh cursors. */
  function PlaceSemester(cfg: Config, a: Acc, p: Program, s: Semester): (r: Acc)
    requires ConfigOk(cfg)
    ensures Extends(cfg, a.events, r.events)
  {
    PlaceCourses(cfg, SemesterState(a, FreshCursor), p, s, s.courses).acc
  }

  /** Places the semesters `ss` of program `p`, in order. */
  function PlaceSemesters(cfg: Config, a: Acc, p: Program, ss: seq<Semester>): (r: Acc)
    requires ConfigOk(cfg)
    ensures Extends(cfg, a.events, r.events)
    decreases |ss|
  {
    if ss == [] then a
    else
      var prev := PlaceSemesters(cfg, a, p, ss[..|ss| - 1]);
      var r := PlaceSemester(cfg, prev, p, ss[|ss| - 1]);
      ExtendsTransitive(cfg, a.events, prev.events, r.events);
      r
  }

  /** Places one program. */
  function PlaceProgram(cfg: Config, a: Acc, p: Program): (r: Acc)
    requires ConfigOk(cfg)
    ensures Extends(cfg, a.events, r.events)
  {
    PlaceSemesters(cfg, a, p, p.semesters)
  }

  /** Places the programs `ps`, in order. */
  function PlacePrograms(cfg: Config, a: Acc, ps: seq<Program>): (r: Acc)
    requires ConfigOk(cfg)
    ensures Extends(cfg, a.events, r.events)
    decreases |ps|
  {
    if ps == [] then a
    else
      var prev := PlacePrograms(cfg, a, ps[..|ps| - 1]);
      var r := PlaceProgram(cfg, prev, ps[|ps| - 1]);
      ExtendsTransitive(cfg, a.events, prev.events, r.events);
      r
  }

  /** The placeholder statistics: derived from the event count alone, `conflicts` always 0. */
  function Summary(n: nat): (st: Stats)
    ensures st.totalClasses == n && st.conflicts == 0
    ensures 60 <= st.facultyUtilization <= 95
    ensures 55 <= st.roomUtilization <= 95
  {
    Stats(n, Min(95, 60 + n % 40), Min(95, 55 + (3 * n) % 40), 0)
  }

  /** The timetable the allocator produces for `input` under `o`, with `today` for the clock. */
  function Expected(input: seq<Program>, o: Options, today: int): (t: Timetable)
    requires OptionsOk(o)
    ensures t.stats.totalClasses == |t.events| && t.stats.conflicts == 0
    ensures forall e :: e in t.events ==> Placed(Resolve(o, today), e)
  {
    var cfg := Resolve(o, today);
    var a := PlacePrograms(cfg, Acc([], 0, 0), input);
    Timetable(a.events, Summary(|a.events|))
  }

  // ----- The allocator -----

  /** `generateSemesterWiseTimetable`: resolves the options, then visits programs and
      semesters in order with run-wide palette counters. */
  method GenerateSemesterWiseTimetable(input: seq<Program>, options: Options, today: int) returns (tt: Timetable)
    requires OptionsOk(options)
    ensures tt == Expected(input, options, today)
  {
    var weekStart := if options.weekStartDate.Some? then options.weekStartDate.value else today;
    var day := Weekday(weekStart);
    var diffToMonday := (day + 6) % 7;
    var ws := weekStart - diffToMonday;
    var meetingDuration := if options.meetingDurationMinutes.Some? then options.meetingDurationMinutes.value else DefaultDuration;
    var meetingsPerCourse := if options.meetingsPerCourse.Some? then options.meetingsPerCourse.value else DefaultMeetings;
    var cfg := Config(ws, meetingDuration, Passes(meetingsPerCourse));
    assert cfg == Resolve(options, today);

    var events: seq<Event> := [];
    var colorIndex: nat := 0;
    var roomIndex: nat := 0;

    for pi := 0 to |input|
      invariant Acc(events, colorIndex, roomIndex) == PlacePrograms(cfg, Acc([], 0, 0), input[..pi])
    {
      var program := input[pi];
      ghost var programStart := Acc(events, colorIndex, roomIndex);
      for si := 0 to |program.semesters|
        invariant Acc(events, colorIndex, roomIndex) == PlaceSemesters(cfg, programStart, program, program.semesters[..si])
      {
        events, colorIndex, roomIndex := AllocateSemester(cfg, events, colorIndex, roomIndex, program, program.semesters[si]);
        assert program.semesters[..si + 1][..si] == program.semesters[..si];
      }
      assert program.semesters[..|program.semesters|] == program.semesters;
      assert input[..pi + 1][..pi] == input[..pi];
    }
    assert input[..|input|] == input;

    tt := Timetable(events, Summary(|events|));
  }

  /** One semester: a fresh cursor array at 09:00, then the courses in order. */
  method AllocateSemester(cfg: Config, events: seq<Event>, colorIndex: nat, roomIndex: nat, program: Program, sem: Semester)
    returns (events': seq<Event>, colorIndex': nat, roomIndex': nat)
    requires ConfigOk(cfg)
    ensures Acc(events', colorIndex', roomIndex') == PlaceSemester(cfg, Acc(events, colorIndex, roomIndex), program, sem)
  {
    var perDayNextHour := new int[5];
    for d := 0 to 5
      invariant forall k :: 0 <= k < d ==> perDayNextHour[k] == DefaultStartHour
    {
      perDayNextHour[d] := DefaultStartHour;
    }
    assert perDayNextHour[..] == FreshCursor;
    ghost var semesterStart := SemesterState(Acc(events, colorIndex, roomIndex), FreshCursor);
    events', colorIndex', roomIndex' := events, colorIndex, roomIndex;

    for ci := 0 to |sem.courses|
      invariant SemesterState(Acc(events', colorIndex', roomIndex'), perDayNextHour[..])
                == PlaceCourses(cfg, semesterStart, program, sem, sem.courses[..ci])
    {
      var course := sem.courses[ci];
      var color, room;
      if course.color.Some? {
        color := course.color.value;
      } else {
        color := Pick(DefaultColors, colorIndex');
        colorIndex' := colorIndex' + 1;
      }
      if course.room.Some? {
        room := course.room.value;
      } else {
        room := Pick(DefaultRooms, roomIndex');
        roomIndex' := roomIndex' + 1;
      }
      events' := AllocateMeetings(cfg, perDayNextHour, events', program, sem, course, color, room);
      assert sem.courses[..ci + 1][..ci] == sem.courses[..ci];
    }
    assert sem.courses[..|sem.courses|] == sem.courses;
  }

  /** The meetings of one course, each placed on its round-robin weekday at that day's cursor. */
  method AllocateMeetings(cfg: Config, perDayNextHour: array<int>, events: seq<Event>,
                          program: Program, sem: Semester, course: Course, color: string, room: string)
    returns (events': seq<Event>)
    requires ConfigOk(cfg) && CursorOk(perDayNextHour[..])
    modifies perDayNextHour
    ensures Board(events', perDayNextHour[..])
            == PlaceMeetings(cfg, Board(events, old(perDayNextHour[..])), program, sem, course, color, room, cfg.meetings)
  {
    var faculty := if course.faculty.Some? then course.faculty.value else Unassigned;
    var courseTitle := if course.title.Some? then course.title.value else course.courseCode;
    ghost var courseStart := Board(events, perDayNextHour[..]);
    events' := events;
    for m := 0 to cfg.meetings
      invariant Board(events', perDayNextHour[..]) == PlaceMeetings(cfg, courseStart, program, sem, course, color, room, m)
    {
      var e := AllocateMeeting(cfg, perDayNextHour, events', program, sem, course, courseTitle, faculty, color, room, m);
      events' := events' + [e];
    }
  }

  /** Meeting `m` of a course: its weekday from the event count, the day's cursor reset to
      09:00 if the meeting would end after 17:00, then the start there and the cursor moved past it. */
  method AllocateMeeting(cfg: Config, perDayNextHour: array<int>, events: seq<Event>,
                         program: Program, sem: Semester, course: Course,
                         courseTitle: string, faculty: string, color: string, room: string, m: nat)
    returns (e: Event)
    requires ConfigOk(cfg) && CursorOk(perDayNextHour[..])
    requires courseTitle == CourseTitle(course) && faculty == Faculty(course)
    modifies perDayNextHour
    ensures Board(events + [e], perDayNextHour[..])
            == PlaceMeeting(cfg, Board(events, old(perDayNextHour[..])), program, sem, course, color, room, m)
  {
    ghost var b := Board(events, perDayNextHour[..]);
    var dayIndex := Days[(|events| + m) % |Days|];
    var h := HoursFor(cfg.duration);
    var startHour := Max(DefaultStartHour, perDayNextHour[dayIndex - 1]);
    var endHourCandidate := startHour + h;
    if endHourCandidate > DefaultEndHour {
      perDayNextHour[dayIndex - 1] := DefaultStartHour;
    }
    ghost var reset := perDayNextHour[..];
    var finalStartHour := perDayNextHour[dayIndex - 1];
    assert finalStartHour == SlotHour(cfg, b.cursor, dayIndex);
    var startDate := AtHour(cfg.monday + (dayIndex - 1), finalStartHour);
    var endDate := AddMinutes(startDate, cfg.duration);
    perDayNextHour[dayIndex - 1] := finalStartHour + h;
    assert reset[dayIndex - 1 := finalStartHour + h] == b.cursor[dayIndex - 1 := finalStartHour + h];
    var id := EventId(program.programId, sem.semesterId, course.courseCode, m + 1, Minutes(startDate));
    e := Event(
      id, Title(course.courseCode, courseTitle, faculty), startDate, endDate, color, room,
      program.programId, program.programName, sem.semesterId, sem.semesterName, course.courseCode);
  }
}

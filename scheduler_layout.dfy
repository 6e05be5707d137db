/**
  The layout of the whole timetable. The catalogue's courses, listed with their
  program and semester in program, semester, course order, own one block of
  `meetings` consecutive events each, in that order. Every block carries its
  course's identity, names, title, colour and room and the round-robin weekdays,
  and a course without its own colour (room) takes the palette entry at the
  counter, which steps once per such course anywhere in the catalogue.
*/
module SchedulerLayout {
  import opened Calendar
  import opened Scheduler
  import opened SchedulerProofs

  /** One course of the catalogue, with the semester and the program it belongs to. */
  datatype Entry = Entry(program: Program, semester: Semester, course: Course)

  /** The courses `cs` of semester `s` of program `p`, as entries. */
  function CourseEntries(p: Program, s: Semester, cs: seq<Course>): (es: seq<Entry>)
    ensures |es| == |cs|
    decreases |cs|
  {
    if cs == [] then [] else CourseEntries(p, s, cs[..|cs| - 1]) + [Entry(p, s, cs[|cs| - 1])]
  }

  /** The courses of the semesters `ss` of program `p`, semester by semester. */
  function SemesterEntries(p: Program, ss: seq<Semester>): seq<Entry>
    decreases |ss|
  {
    if ss == [] then []
    else SemesterEntries(p, ss[..|ss| - 1]) + CourseEntries(p, ss[|ss| - 1], ss[|ss| - 1].courses)
  }

  /** The courses of a catalogue, in the order the allocator visits them. */
  function CatalogueEntries(ps: seq<Program>): seq<Entry>
    decreases |ps|
  {
    if ps == [] then []
    else CatalogueEntries(ps[..|ps| - 1]) + SemesterEntries(ps[|ps| - 1], ps[|ps| - 1].semesters)
  }

  /** The courses of some entries. */
  function CoursesOf(es: seq<Entry>): (cs: seq<Course>)
    ensures |cs| == |es|
    decreases |es|
  {
    if es == [] then [] else CoursesOf(es[..|es| - 1]) + [es[|es| - 1].course]
  }

  lemma {:induction false} CoursesOfAppend(xs: seq<Entry>, ys: seq<Entry>)
    ensures CoursesOf(xs + ys) == CoursesOf(xs) + CoursesOf(ys)
    decreases |ys|
  {
    if ys != [] {
      var zs := xs + ys;
      assert zs[..|zs| - 1] == xs + ys[..|ys| - 1];
      assert zs[|zs| - 1] == ys[|ys| - 1];
      CoursesOfAppend(xs, ys[..|ys| - 1]);
    } else {
      assert xs + ys == xs;
    }
  }

  lemma {:induction false} CoursesOfCourseEntries(p: Program, s: Semester, cs: seq<Course>)
    ensures CoursesOf(CourseEntries(p, s, cs)) == cs
    decreases |cs|
  {
    if cs != [] {
      var init := cs[..|cs| - 1];
      CoursesOfCourseEntries(p, s, init);
      CoursesOfAppend(CourseEntries(p, s, init), [Entry(p, s, cs[|cs| - 1])]);
      assert CoursesOf([Entry(p, s, cs[|cs| - 1])]) == [cs[|cs| - 1]];
      SplitLast(cs);
    }
  }

  /** The entries of some semesters list exactly the courses `SemesterCourses` counts. */
  lemma {:induction false} SemesterEntriesCourses(p: Program, ss: seq<Semester>)
    ensures CoursesOf(SemesterEntries(p, ss)) == SemesterCourses(ss)
    decreases |ss|
  {
    if ss != [] {
      var last := ss[|ss| - 1];
      SemesterEntriesCourses(p, ss[..|ss| - 1]);
      CoursesOfAppend(SemesterEntries(p, ss[..|ss| - 1]), CourseEntries(p, last, last.courses));
      CoursesOfCourseEntries(p, last, last.courses);
    }
  }

  /** The entries of a catalogue list exactly the courses `CatalogueCourses` counts. */
  lemma {:induction false} CatalogueEntriesCourses(ps: seq<Program>)
    ensures CoursesOf(CatalogueEntries(ps)) == CatalogueCourses(ps)
    decreases |ps|
  {
    if ps != [] {
      var last := ps[|ps| - 1];
      CatalogueEntriesCourses(ps[..|ps| - 1]);
      CoursesOfAppend(CatalogueEntries(ps[..|ps| - 1]), SemesterEntries(last, last.semesters));
      SemesterEntriesCourses(last, last.semesters);
    }
  }

  /** The colour of course `c` when the colour counter stands at `k`. */
  function ColorFor(c: Course, k: nat): string {
    if c.color.Some? then c.color.value else DefaultColors[k % |DefaultColors|]
  }

  /** The room of course `c` when the room counter stands at `k`. */
  function RoomFor(c: Course, k: nat): string {
    if c.room.Some? then c.room.value else DefaultRooms[k % |DefaultRooms|]
  }

  /** The colour counter after course `c`: one step when it has no colour of its own. */
  function NextColor(c: Course, k: nat): nat {
    if c.color.None? then k + 1 else k
  }

  /** The room counter after course `c`: one step when it has no room of its own. */
  function NextRoom(c: Course, k: nat): nat {
    if c.room.None? then k + 1 else k
  }

  /** Event `i` of `evs` is meeting `i - from` of entry `e`, with the colour and the room the
      counters `k` and `j` give it, on the weekday of `Block`. */
  ghost predicate MeetingIn(cfg: Config, evs: seq<Event>, i: nat, from: nat, e: Entry, k: nat, j: nat)
    requires from <= i < |evs|
  {
    && Describes(evs[i], e.program, e.semester, e.course, ColorFor(e.course, k), RoomFor(e.course, j), i - from)
    && evs[i].start.day == cfg.monday + Days[(2 * i - from) % 5] - 1
  }

  /** Events `from` to `from + meetings - 1` of `evs` are the meetings of entry `e` in order. */
  ghost predicate BlockAt(cfg: Config, evs: seq<Event>, from: nat, e: Entry, k: nat, j: nat) {
    && from + cfg.meetings <= |evs|
    && forall i :: from <= i < from + cfg.meetings ==> MeetingIn(cfg, evs, i, from, e, k, j)
  }

  /** From index `base` to index `end`, `evs` holds one block per entry of `es`, in order, with
      the palette counters at `c0`, `r0` before the first entry and at `c1`, `r1` after the last. */
  ghost predicate Layout(cfg: Config, evs: seq<Event>, base: nat, es: seq<Entry>, c0: nat, r0: nat,
                         end: nat, c1: nat, r1: nat)
    decreases |es|
  {
    if es == [] then base == end && c0 == c1 && r0 == r1 && base <= |evs|
    else
      && BlockAt(cfg, evs, base, es[0], c0, r0)
      && Layout(cfg, evs, base + cfg.meetings, es[1..], NextColor(es[0].course, c0), NextRoom(es[0].course, r0),
                end, c1, r1)
  }

  /** A block survives appending events after it. */
  lemma BlockAtGrow(cfg: Config, evs: seq<Event>, evs': seq<Event>, from: nat, e: Entry, k: nat, j: nat)
    requires BlockAt(cfg, evs, from, e, k, j)
    requires |evs| <= |evs'| && evs'[..|evs|] == evs
    ensures BlockAt(cfg, evs', from, e, k, j)
  {
    forall i | from <= i < from + cfg.meetings
      ensures MeetingIn(cfg, evs', i, from, e, k, j)
    {
      assert evs'[i] == evs'[..|evs|][i];
      assert MeetingIn(cfg, evs, i, from, e, k, j);
    }
  }

  /** A layout survives appending events after it. */
  lemma {:induction false} LayoutGrow(cfg: Config, evs: seq<Event>, evs': seq<Event>, base: nat, es: seq<Entry>,
                                      c0: nat, r0: nat, end: nat, c1: nat, r1: nat)
    requires Layout(cfg, evs, base, es, c0, r0, end, c1, r1)
    requires |evs| <= |evs'| && evs'[..|evs|] == evs
    ensures Layout(cfg, evs', base, es, c0, r0, end, c1, r1)
    decreases |es|
  {
    if es != [] {
      var e := es[0];
      BlockAtGrow(cfg, evs, evs', base, e, c0, r0);
      LayoutGrow(cfg, evs, evs', base + cfg.meetings, es[1..], NextColor(e.course, c0), NextRoom(e.course, r0), end, c1, r1);
    }
  }

  /** Two layouts side by side, the second starting where the first ends, are one layout. */
  lemma {:induction false} LayoutAppend(cfg: Config, evs: seq<Event>, xs: seq<Entry>, ys: seq<Entry>,
                                        base: nat, c0: nat, r0: nat, mid: nat, cm: nat, rm: nat,
                                        end: nat, c1: nat, r1: nat)
    requires Layout(cfg, evs, base, xs, c0, r0, mid, cm, rm)
    requires Layout(cfg, evs, mid, ys, cm, rm, end, c1, r1)
    ensures Layout(cfg, evs, base, xs + ys, c0, r0, end, c1, r1)
    decreases |xs|
  {
    if xs == [] {
      assert xs + ys == ys;
    } else {
      var e := xs[0];
      assert (xs + ys)[0] == e && (xs + ys)[1..] == xs[1..] + ys;
      LayoutAppend(cfg, evs, xs[1..], ys, base + cfg.meetings, NextColor(e.course, c0), NextRoom(e.course, r0),
                   mid, cm, rm, end, c1, r1);
    }
  }

  /** One course is a one-entry layout from the state it starts in to the state it leaves. */
  lemma CourseLayout(cfg: Config, st: SemesterState, p: Program, s: Semester, c: Course)
    requires ConfigOk(cfg) && CursorOk(st.cursor)
    ensures var r := PlaceCourse(cfg, st, p, s, c).acc;
            Layout(cfg, r.events, |st.acc.events|, [Entry(p, s, c)], st.acc.colorIndex, st.acc.roomIndex,
                   |r.events|, r.colorIndex, r.roomIndex)
  {
    var r := PlaceCourse(cfg, st, p, s, c).acc;
    CourseBlock(cfg, st, p, s, c);
    var e := Entry(p, s, c);
    assert BlockAt(cfg, r.events, |st.acc.events|, e, st.acc.colorIndex, st.acc.roomIndex) by {
      forall i | |st.acc.events| <= i < |st.acc.events| + cfg.meetings
        ensures MeetingIn(cfg, r.events, i, |st.acc.events|, e, st.acc.colorIndex, st.acc.roomIndex)
      {
      }
    }
    assert [Entry(p, s, c)][1..] == [];
  }

  /** The courses of one semester lay out one block each, in order. */
  lemma {:induction false} CoursesLayout(cfg: Config, st: SemesterState, p: Program, s: Semester, cs: seq<Course>)
    requires ConfigOk(cfg) && CursorOk(st.cursor)
    ensures var r := PlaceCourses(cfg, st, p, s, cs).acc;
            Layout(cfg, r.events, |st.acc.events|, CourseEntries(p, s, cs), st.acc.colorIndex, st.acc.roomIndex,
                   |r.events|, r.colorIndex, r.roomIndex)
    decreases |cs|
  {
    if cs == [] {
    } else {
      var init, last := cs[..|cs| - 1], cs[|cs| - 1];
      var prev := PlaceCourses(cfg, st, p, s, init);
      var r := PlaceCourse(cfg, prev, p, s, last);
      CoursesLayout(cfg, st, p, s, init);
      LastCourse(cfg, st, p, s, cs);
      CourseLayout(cfg, prev, p, s, last);
      LayoutGrow(cfg, prev.acc.events, r.acc.events, |st.acc.events|, CourseEntries(p, s, init),
                 st.acc.colorIndex, st.acc.roomIndex, |prev.acc.events|, prev.acc.colorIndex, prev.acc.roomIndex);
      LayoutAppend(cfg, r.acc.events, CourseEntries(p, s, init), [Entry(p, s, last)],
                   |st.acc.events|, st.acc.colorIndex, st.acc.roomIndex,
                   |prev.acc.events|, prev.acc.colorIndex, prev.acc.roomIndex,
                   |r.acc.events|, r.acc.colorIndex, r.acc.roomIndex);
    }
  }

  /** One semester lays out its courses' blocks, starting from fresh weekday cursors. */
  lemma SemesterLayout(cfg: Config, a: Acc, p: Program, s: Semester)
    requires ConfigOk(cfg)
    ensures var r := PlaceSemester(cfg, a, p, s);
            Layout(cfg, r.events, |a.events|, CourseEntries(p, s, s.courses), a.colorIndex, a.roomIndex,
                   |r.events|, r.colorIndex, r.roomIndex)
  {
    var st := SemesterState(a, FreshCursor);
    assert CursorOk(st.cursor);
    CoursesLayout(cfg, st, p, s, s.courses);
  }

  /** The semesters of one program lay out their courses' blocks, semester by semester. */
  lemma {:induction false} SemestersLayout(cfg: Config, a: Acc, p: Program, ss: seq<Semester>)
    requires ConfigOk(cfg)
    ensures var r := PlaceSemesters(cfg, a, p, ss);
            Layout(cfg, r.events, |a.events|, SemesterEntries(p, ss), a.colorIndex, a.roomIndex,
                   |r.events|, r.colorIndex, r.roomIndex)
    decreases |ss|
  {
    if ss == [] {
    } else {
      var init, last := ss[..|ss| - 1], ss[|ss| - 1];
      var prev := PlaceSemesters(cfg, a, p, init);
      var r := PlaceSemester(cfg, prev, p, last);
      SemestersLayout(cfg, a, p, init);
      SemesterLayout(cfg, prev, p, last);
      LayoutGrow(cfg, prev.events, r.events, |a.events|, SemesterEntries(p, init),
                 a.colorIndex, a.roomIndex, |prev.events|, prev.colorIndex, prev.roomIndex);
      LayoutAppend(cfg, r.events, SemesterEntries(p, init), CourseEntries(p, last, last.courses),
                   |a.events|, a.colorIndex, a.roomIndex,
                   |prev.events|, prev.colorIndex, prev.roomIndex,
                   |r.events|, r.colorIndex, r.roomIndex);
    }
  }

  /** The programs of a catalogue lay out their courses' blocks, program by program. */
  lemma {:induction false} ProgramsLayout(cfg: Config, a: Acc, ps: seq<Program>)
    requires ConfigOk(cfg)
    ensures var r := PlacePrograms(cfg, a, ps);
            Layout(cfg, r.events, |a.events|, CatalogueEntries(ps), a.colorIndex, a.roomIndex,
                   |r.events|, r.colorIndex, r.roomIndex)
    decreases |ps|
  {
    if ps == [] {
    } else {
      var init, last := ps[..|ps| - 1], ps[|ps| - 1];
      var prev := PlacePrograms(cfg, a, init);
      var r := PlaceProgram(cfg, prev, last);
      ProgramsLayout(cfg, a, init);
      SemestersLayout(cfg, prev, last, last.semesters);
      LayoutGrow(cfg, prev.events, r.events, |a.events|, CatalogueEntries(init),
                 a.colorIndex, a.roomIndex, |prev.events|, prev.colorIndex, prev.roomIndex);
      LayoutAppend(cfg, r.events, CatalogueEntries(init), SemesterEntries(last, last.semesters),
                   |a.events|, a.colorIndex, a.roomIndex,
                   |prev.events|, prev.colorIndex, prev.roomIndex,
                   |r.events|, r.colorIndex, r.roomIndex);
    }
  }

  /** The whole timetable is one block of `meetings` events per catalogue course, in program,
      semester, course order, from the first event to the last. The palette counters start at
      0 and end at the number of courses that fell back on each palette. */
  lemma TimetableLayout(input: seq<Program>, o: Options, today: int)
    requires OptionsOk(o)
    ensures var cfg := Resolve(o, today);
            var t := Expected(input, o, today);
            var cs := CatalogueCourses(input);
            && CoursesOf(CatalogueEntries(input)) == cs
            && Layout(cfg, t.events, 0, CatalogueEntries(input), 0, 0, |t.events|, NoColor(cs), NoRoom(cs))
  {
    var cfg := Resolve(o, today);
    ProgramsLayout(cfg, Acc([], 0, 0), input);
    EventCount(input, o, today);
    CatalogueEntriesCourses(input);
  }

  // ----- Entry by entry -----

  /** How many of the first `q` entries have no colour of their own. */
  function ColorFallbacks(es: seq<Entry>, q: nat): nat
    requires q <= |es|
    decreases q
  {
    if q == 0 then 0 else (if es[0].course.color.None? then 1 else 0) + ColorFallbacks(es[1..], q - 1)
  }

  /** How many of the first `q` entries have no room of their own. */
  function RoomFallbacks(es: seq<Entry>, q: nat): nat
    requires q <= |es|
    decreases q
  {
    if q == 0 then 0 else (if es[0].course.room.None? then 1 else 0) + RoomFallbacks(es[1..], q - 1)
  }

  /** Where block `q` starts when every block holds `n` events. */
  function Blocks(n: nat, q: nat): (r: nat)
    ensures r == n * q
    decreases q
  {
    if q == 0 then 0 else n + Blocks(n, q - 1)
  }

  /** In a layout, entry `q` owns the block starting `q` blocks after `base`, and its palette
      counters stand at the start values plus the earlier entries that fell back on the palette. */
  lemma {:induction false} LayoutEntry(cfg: Config, evs: seq<Event>, base: nat, es: seq<Entry>, c0: nat, r0: nat,
                                       end: nat, c1: nat, r1: nat, q: nat)
    requires Layout(cfg, evs, base, es, c0, r0, end, c1, r1) && q < |es|
    ensures BlockAt(cfg, evs, base + Blocks(cfg.meetings, q), es[q], c0 + ColorFallbacks(es, q), r0 + RoomFallbacks(es, q))
    decreases q
  {
    if q > 0 {
      var e, rest := es[0], es[1..];
      LayoutEntry(cfg, evs, base + cfg.meetings, rest, NextColor(e.course, c0), NextRoom(e.course, r0), end, c1, r1, q - 1);
      assert rest[q - 1] == es[q];
    }
  }

  lemma {:induction false} CoursesOfIndex(es: seq<Entry>, i: nat)
    requires i < |es|
    ensures CoursesOf(es)[i] == es[i].course
    decreases |es|
  {
    if i < |es| - 1 {
      CoursesOfIndex(es[..|es| - 1], i);
    }
  }

  /** The fallback counts of the first `q` entries are the counts of the first `q` courses. */
  lemma {:induction false} FallbacksCount(es: seq<Entry>, q: nat)
    requires q <= |es|
    ensures ColorFallbacks(es, q) == NoColor(CoursesOf(es)[..q])
    ensures RoomFallbacks(es, q) == NoRoom(CoursesOf(es)[..q])
    decreases q
  {
    if q > 0 {
      var x, rest := es[0], es[1..];
      FallbacksCount(rest, q - 1);
      assert es == [x] + rest;
      CoursesOfAppend([x], rest);
      assert CoursesOf([x]) == [x.course] by {
        assert [x][..0] == [];
      }
      assert CoursesOf(es)[..q] == [x.course] + CoursesOf(rest)[..q - 1];
      CountsAppend([x.course], CoursesOf(rest)[..q - 1]);
      CountsSingle(x.course);
    }
  }

  /** In a layout from the first event, entry `q` owns the events from `meetings * q` on, with
      the palette counters at the number of earlier courses without a colour (room) of their own. */
  lemma LayoutIndex(cfg: Config, evs: seq<Event>, es: seq<Entry>, c1: nat, r1: nat, q: nat)
    requires Layout(cfg, evs, 0, es, 0, 0, |evs|, c1, r1) && q < |es|
    ensures var cs := CoursesOf(es);
            && es[q].course == cs[q]
            && BlockAt(cfg, evs, Blocks(cfg.meetings, q), es[q], NoColor(cs[..q]), NoRoom(cs[..q]))
  {
    LayoutEntry(cfg, evs, 0, es, 0, 0, |evs|, c1, r1, q);
    FallbacksCount(es, q);
    CoursesOfIndex(es, q);
  }

  /** Course `q` of the catalogue, in visiting order, owns events `meetings * q` onwards of the
      events placed from an empty start: its meetings carry its program, semester and course, and
      its colour (room) is its own or the palette entry at the number of earlier catalogue courses
      without one. */
  lemma CatalogueEntry(cfg: Config, ps: seq<Program>, q: nat)
    requires ConfigOk(cfg) && q < |CatalogueCourses(ps)|
    ensures var evs := PlacePrograms(cfg, Acc([], 0, 0), ps).events;
            var cs := CatalogueCourses(ps);
            var es := CatalogueEntries(ps);
            && q < |es| && es[q].course == cs[q]
            && BlockAt(cfg, evs, Blocks(cfg.meetings, q), es[q], NoColor(cs[..q]), NoRoom(cs[..q]))
  {
    var r := PlacePrograms(cfg, Acc([], 0, 0), ps);
    ProgramsLayout(cfg, Acc([], 0, 0), ps);
    CatalogueEntriesCourses(ps);
    LayoutIndex(cfg, r.events, CatalogueEntries(ps), r.colorIndex, r.roomIndex, q);
  }

  /** The generated timetable: course `q` of the catalogue owns events `meetings * q` onwards. */
  lemma TimetableEntry(input: seq<Program>, o: Options, today: int, q: nat)
    requires OptionsOk(o) && q < |CatalogueCourses(input)|
    ensures var cfg := Resolve(o, today);
            var cs := CatalogueCourses(input);
            var es := CatalogueEntries(input);
            && q < |es| && es[q].course == cs[q]
            && BlockAt(cfg, Expected(input, o, today).events, Blocks(cfg.meetings, q), es[q], NoColor(cs[..q]), NoRoom(cs[..q]))
  {
    CatalogueEntry(Resolve(o, today), input, q);
  }
}

# Semester-wise timetable generator and sign-in form validator, in Dafny

This project models two pieces of a university timetabling web application.

**The slot allocator** is `generateSemesterWiseTimetable`. It takes a catalogue of programs. Each program has semesters, and each semester has courses. The allocator turns the catalogue into a weekly calendar of class meetings.

- The anchor date is rolled back to the Monday of its week.
- Every course gets a fixed number of meetings: 2 by default, each lasting 90 minutes by default.
- A meeting's weekday is picked round-robin. It is weekday `(L + m) % 5` of Monday to Friday, where `L` is the number of meetings emitted so far and `m` is the meeting's index within its course.
- Its hour comes from a per-weekday cursor. The cursor starts at 09:00 for every semester and moves past each meeting placed on that day.
- When a meeting would run past 17:00, the cursor of that day restarts at 09:00.
- A course without its own colour or room takes the next entry of a seven-colour or five-room palette. The palette counters run across the whole catalogue.
- Each meeting also gets:
  - a title `code - title - faculty`, where a missing title falls back to the code and a missing faculty to `TBA`;
  - an identity made of the program, semester, course code, meeting ordinal and start time.
- The statistics count the meetings and fill three placeholder figures. `conflicts` is always 0.

The model has three parts:

- `Calendar`: the part of the JavaScript `Date` the allocator relies on. A day is a number counted from 1970-01-01; an instant is a day plus minutes since midnight.
- `Scheduler`:
  - the data;
  - the specification of the allocator as a left-to-right fold over programs, semesters, courses and meetings;
  - the method `GenerateSemesterWiseTimetable`. It has the nested loops, the counters and the array of five cursors of `generateSemesterWiseTimetable`, and it is proved to compute the fold.
- `SchedulerProofs`: properties of the fold.
  - What one course's block of meetings holds.
  - How many meetings there are, and how far the palette counters advance.
  - Where each meeting lies in the week.
  - The cursor rule.
  - How far meetings of one semester are kept apart.
- `SchedulerLayout`: the layout of the whole timetable. The catalogue's courses, listed with their program and semester in visiting order, own one block of `meetingsPerCourse` consecutive events each. Course `q` owns the events from `meetingsPerCourse * q` on. Its meetings carry its identity, names, title, colour and room and the round-robin weekdays. The palette entry it falls back on is picked at the number of earlier courses, anywhere in the catalogue, that also had no colour (room) of their own.

The comment on `generateSemesterWiseTimetable` describes it as avoiding clashes within a semester. The code only partly does that:

- Two meetings of one semester on the same day do not overlap, as long as no 09:00 restart happened on that day in between (`SchedulerProofs.SemesterApartSinceReset`).
- A restart can put a meeting on top of an earlier one. `SchedulerProofs.ResetOverlap` shows this with one course of six 8-hour meetings: the sixth lands on Monday at 09:00, on top of the first, and `conflicts` is still 0.
- The model follows the code.

**The sign-in validator** is `validateForm` of the login page. It yields one message per field and a verdict.

- An empty email gives "Email is required".
- Otherwise, an email with no substring matching `\S+@\S+\.\S+` gives "Invalid email format".
- An empty password gives "Password is required".
- Otherwise, a password shorter than 6 characters gives "Password must be at least 6 characters".
- The form is valid exactly when both messages are empty.

`Login.PatternMatches` states the regular expression as a ghost predicate. `Login.EmailShape` is the executable test the method runs, and `Login.EmailShapeIsPattern` proves that the two agree.

## Model

| member | source | states |
|---|---|---|
| Calendar.Weekday | src/lib/scheduler.ts:57 | `getDay()` of a day number is in 0..6 (1970-01-01 is a Thursday) |
| Calendar.DaysSinceMonday | src/lib/scheduler.ts:58 | `(day + 6) % 7` is below 7, and stepping back that many days from weekday `day` lands on a Monday |
| Calendar.MondayOf | src/lib/scheduler.ts:55-59 | the normalised week start is a Monday, at most six days before the anchor and never after it |
| Calendar.MondayRollBack | src/lib/scheduler.ts:57-58 | Sunday rolls back six days, Saturday five, Monday none, and weekday `w` in 1..6 rolls back `w - 1` |
| Calendar.WorkWeek | src/lib/scheduler.ts:93-94 | the Monday plus `dayIndex - 1` days is weekday `dayIndex`, for each of Monday..Friday |
| Calendar.AtHour | src/lib/scheduler.ts:95 | `setHours(h, 0, 0, 0)` keeps the day and sets the minute of the day to `60 * h` |
| Calendar.AddMinutes | src/lib/scheduler.ts:97-98 | adding minutes advances the instant by exactly that many minutes, rolling into the next day when needed, and stays on the same day when it fits |
| Scheduler.Pick | src/lib/scheduler.ts:42-44 | `arr[idx % arr.length]` is an element of the non-empty array |
| SchedulerProofs.PalettesCycle | src/lib/scheduler.ts:42-47 | the colour palette repeats every 7 picks and the room palette every 5 |
| Scheduler.HoursFor | src/lib/scheduler.ts:86 | `Math.ceil(d / 60)` is the least whole number of hours covering `d` minutes |
| Scheduler.Resolve | src/lib/scheduler.ts:54-62 | the week start is the Monday of the given date, or of `today` when none is given; the duration defaults to 90 minutes and the meeting count to 2; a given duration is used unchanged, and a given count is the number of passes of the meeting loop, so a negative count places no meeting |
| SchedulerProofs.DefaultSubstitution | src/lib/scheduler.ts:61-62 | leaving the duration out is the same as passing 90, and leaving the meeting count out is the same as passing 2, for every catalogue |
| SchedulerProofs.TitleShape | src/lib/scheduler.ts:106 | the title is the code, then ` - title` only when the title is non-empty, then ` - faculty`, and its length adds up accordingly |
| SchedulerProofs.ExampleTitle | src/lib/scheduler.ts:79-80 | a course with no title and no faculty is titled `C1 - C1 - TBA` |
| Scheduler.DayFor | src/lib/scheduler.ts:83 | the weekday `DAYS[(events.length + m) % 5]` is one of Monday..Friday |
| Scheduler.SlotHour | src/lib/scheduler.ts:85-92 | the start hour is in [9, 17), and the meeting fits by 17:00 unless it starts at the 09:00 restart |
| SchedulerProofs.CursorRule | src/lib/scheduler.ts:85-101 | a meeting that would end after 17:00 restarts at 09:00, otherwise it starts at the day's cursor; afterwards that day's cursor is the start hour plus the rounded-up duration and the other days' cursors are unchanged |
| Scheduler.MeetingAtFacts | src/lib/scheduler.ts:92-116 | a meeting starts on the hour within [09:00, 17:00) on the chosen weekday, lasts the configured duration, and carries the program, semester, course, colour, room, title and identity `program-semester-course-(m+1)-start` |
| SchedulerProofs.RestartStep | src/lib/scheduler.ts:87-92 | when the day's cursor plus the meeting's hours passes 17:00, the meeting starts at 09:00 on that weekday |
| Scheduler.PlaceMeetings | src/lib/scheduler.ts:82-117 | placing `n` meetings appends exactly `n` events and keeps every cursor at 09:00 or later |
| Scheduler.MeetingsExtend | src/lib/scheduler.ts:82-117 | the meetings of a course are appended after the existing events, which stay unchanged, and each new one is placed in the week's window |
| SchedulerProofs.MeetingsBlock | src/lib/scheduler.ts:82-116 | the `k`-th event of a course's block is that course's meeting `k`, with its resolved colour and room, on weekday `(L + 2k) % 5` counted from the block start `L` |
| SchedulerProofs.TwoWeekdaysApart | src/lib/scheduler.ts:83 | consecutive meetings of one course fall two weekdays apart, cyclically within Monday..Friday |
| SchedulerProofs.MeetingIdsDistinct | src/lib/scheduler.ts:103 | two meetings of the same course have different identities, because their ordinals differ |
| SchedulerProofs.CourseCounts | src/lib/scheduler.ts:77-82 | a course adds one colour pick when it has no colour, one room pick when it has no room, and `meetingsPerCourse` events |
| SchedulerProofs.CourseBlock | src/lib/scheduler.ts:76-117 | a course takes the palette entries at the current counters when it lacks its own, advances those counters, and appends its block of meetings |
| Scheduler.PlaceCourse | src/lib/scheduler.ts:76-118 | a course keeps the cursors valid and only appends placed meetings |
| Scheduler.PlaceCourses | src/lib/scheduler.ts:76-118 | the courses of a semester, in order, keep the cursors valid and only append placed meetings |
| Scheduler.PlaceSemester | src/lib/scheduler.ts:71-119 | a semester starts from fresh 09:00 cursors and only appends placed meetings |
| Scheduler.PlaceSemesters | src/lib/scheduler.ts:71-119 | the semesters of a program, in order, only append placed meetings |
| Scheduler.PlaceProgram | src/lib/scheduler.ts:70-120 | a program only appends placed meetings |
| Scheduler.PlacePrograms | src/lib/scheduler.ts:70-120 | the programs, in order, only append placed meetings and leave the earlier events unchanged |
| SchedulerProofs.OneCourseCatalogue | src/lib/scheduler.ts:70-120 | a catalogue of one program with one semester and one course yields exactly that course's block from fresh cursors |
| SchedulerProofs.CoursesTally | src/lib/scheduler.ts:76-118 | over a semester's courses the event count grows by `meetingsPerCourse` per course, and the colour and room counters grow by the number of courses without a colour or a room |
| SchedulerProofs.SemestersTally | src/lib/scheduler.ts:71-119 | the same tally over a program's semesters; the palette counters are not reset between semesters |
| SchedulerProofs.ProgramsTally | src/lib/scheduler.ts:66-120 | the same tally over the whole catalogue, with counters that start at 0 and are never reset |
| SchedulerProofs.EventCount | src/lib/scheduler.ts:64-124 | the timetable holds `meetingsPerCourse` events per course and `totalClasses` equals that count; the final palette counters equal the numbers of courses without a colour and without a room |
| Scheduler.Summary | src/lib/scheduler.ts:123-128 | the statistics report the event count, a faculty figure in [60, 95], a room figure in [55, 95] and zero conflicts |
| SchedulerProofs.SummaryPeriodic | src/lib/scheduler.ts:125-126 | both utilisation figures repeat every 40 events, and the faculty figure is capped at 95 exactly when `count % 40 >= 35` |
| SchedulerProofs.SummaryOfTwo | src/lib/scheduler.ts:123-128 | two events give the statistics 2, 62, 61, 0 |
| Scheduler.Expected | src/lib/scheduler.ts:53-131 | the timetable's `totalClasses` is its event count, `conflicts` is 0, and every event is placed within the anchor week's working window |
| Scheduler.GenerateSemesterWiseTimetable | src/lib/scheduler.ts:53-131 | the nested loops over programs, semesters, courses and meetings, with the run-wide palette counters and per-semester cursors, compute exactly the folded timetable |
| Scheduler.AllocateSemester | src/lib/scheduler.ts:71-119 | one semester with a fresh five-day cursor array yields the fold's events and palette counters for that semester |
| Scheduler.AllocateMeetings | src/lib/scheduler.ts:82-117 | the meeting loop leaves the events and the cursor array as the fold over `meetingsPerCourse` meetings prescribes |
| Scheduler.AllocateMeeting | src/lib/scheduler.ts:83-116 | one pass of the loop body appends the fold's meeting and updates the one cursor the fold updates |
| SchedulerProofs.PlacedInWindow | src/lib/scheduler.ts:83-98 | a placed meeting starts on a weekday, on the hour, between 09:00 and 17:00, and ends by 17:00 on the same day when it lasts at most eight hours |
| SchedulerProofs.MeetingsInWindow | src/lib/scheduler.ts:54-98 | every event of the timetable lies in the five days from the Monday of the anchor, starts on the hour in [09:00, 17:00) and lasts the configured duration |
| SchedulerProofs.MeetingsKeepSeparated | src/lib/scheduler.ts:82-101 | placing meetings keeps earlier same-day meetings ending by the day's cursor, and meetings with no restart between them apart |
| SchedulerProofs.CoursesKeepSeparated | src/lib/scheduler.ts:76-118 | the separation invariant survives each course of a semester |
| SchedulerProofs.SemesterApartSinceReset | src/lib/scheduler.ts:71-119 | two meetings of one semester on the same day with no 09:00 restart between them do not overlap: the earlier ends by the start of the later |
| SchedulerProofs.ResetOverlap | src/lib/scheduler.ts:52 | the clash-freedom promised for a semester does not hold: six 8-hour meetings of one course put the sixth on top of the first, while `conflicts` is still 0 |
| SchedulerProofs.SixthRestarts | src/lib/scheduler.ts:85-95 | with 8-hour meetings, the sixth meeting of a course restarts at Monday 09:00, where the first meeting already is |
| SchedulerProofs.FiveFullDays | src/lib/scheduler.ts:83-101 | five 8-hour meetings take Monday, Wednesday, Friday, Tuesday and Thursday in that order, each from 09:00 to 17:00, and move every cursor to 17 |
| SchedulerLayout.SemesterEntriesCourses | src/lib/scheduler.ts:71-76 | listing a program's courses semester by semester, with their program and semester, lists exactly the courses of those semesters in that order |
| SchedulerLayout.CatalogueEntriesCourses | src/lib/scheduler.ts:70-76 | listing the catalogue's courses program by program, then semester by semester, lists exactly the courses the tally counts, in that order |
| SchedulerLayout.BlockAtGrow | src/lib/scheduler.ts:104 | a block of a course's meetings stays in place when later events are pushed |
| SchedulerLayout.LayoutGrow | src/lib/scheduler.ts:104 | a layout of blocks stays in place when later events are pushed |
| SchedulerLayout.LayoutAppend | src/lib/scheduler.ts:70-120 | a layout followed by one that starts where it ends, at the palette counters it leaves, is one layout of both lists of courses |
| SchedulerLayout.CourseLayout | src/lib/scheduler.ts:76-117 | one course places exactly its block after the existing events: each meeting carries the course's program, semester, code, title, colour and room, its ordinal and its round-robin weekday; the colour (room) is the course's own or the palette entry at the counter, and the counters step once per missing colour (room) |
| SchedulerLayout.CoursesLayout | src/lib/scheduler.ts:76-118 | the courses of a semester place one such block each, in course order, from the event count and counters at the start to those at the end |
| SchedulerLayout.SemesterLayout | src/lib/scheduler.ts:71-119 | a semester, starting from fresh 09:00 cursors, places one block per course, with the palette counters carried over from earlier semesters |
| SchedulerLayout.SemestersLayout | src/lib/scheduler.ts:71-119 | the semesters of a program place their courses' blocks semester by semester |
| SchedulerLayout.ProgramsLayout | src/lib/scheduler.ts:70-120 | the programs place their courses' blocks in program, semester, course order |
| SchedulerLayout.TimetableLayout | src/lib/scheduler.ts:53-131 | the timetable is one block per catalogue course in visiting order, from the first event to the last, with palette counters that start at 0 and end at the numbers of courses without a colour and without a room |
| SchedulerLayout.LayoutEntry | src/lib/scheduler.ts:76-82 | in a layout, entry `q` owns the block `q` blocks after the start, with each counter at its start value plus the number of earlier entries that fell back on that palette |
| SchedulerLayout.FallbacksCount | src/lib/scheduler.ts:77-78 | the fallbacks among the first `q` entries are the courses without a colour (room) among the first `q` courses |
| SchedulerLayout.LayoutIndex | src/lib/scheduler.ts:70-117 | in a layout from the first event, entry `q` is course `q` and owns events `meetingsPerCourse * q` onwards, with each palette counter at the number of earlier courses without their own colour (room) |
| SchedulerLayout.CatalogueEntry | src/lib/scheduler.ts:66-117 | from an empty start, course `q` of the catalogue in visiting order owns events `meetingsPerCourse * q` onwards: its meetings carry its program, semester and course ids and names, and its colour is its own or `DEFAULT_COLORS[k % 7]`, where `k` counts the earlier courses without a colour; rooms likewise with `DEFAULT_ROOMS[k % 5]` |
| SchedulerLayout.TimetableEntry | src/lib/scheduler.ts:53-117 | the same for the generated timetable: course `q` owns events `meetingsPerCourse * q` onwards, with the identities, names and palette picks above |
| SchedulerProofs.TwoShortMeetings | src/lib/scheduler.ts:82-116 | two 90-minute meetings land on Monday and Wednesday, 09:00 to 10:30, with the course's title, colour, room and identities |
| SchedulerProofs.SingleCourseExample | src/lib/scheduler.ts:53-131 | one course with defaults in the week of 2024-01-01 gives meetings on Monday and Wednesday at 09:00 to 10:30, the first palette colour and room, the title `C1 - C1 - TBA` and statistics 2, 62, 61, 0 |
| SchedulerProofs.EmptyCatalogue | src/lib/scheduler.ts:64-130 | an empty catalogue yields no events and the statistics 0, 60, 55, 0 |
| Login.EmailShapeIsPattern | src/pages/Login.tsx:28 | the executable email test accepts exactly the strings containing a match of `\S+@\S+\.\S+` |
| Login.EmailError | src/pages/Login.tsx:25-31 | the email message is empty exactly when the email is non-empty and matches the pattern |
| Login.PasswordError | src/pages/Login.tsx:33-39 | the password message is empty exactly when the password has at least 6 characters |
| Login.ValidateForm | src/pages/Login.tsx:21-43 | the messages are the per-field messages, and the result is true exactly when both are empty, that is, when the email is present and matches and the password has at least 6 characters |
| Login.MessagesPerField | src/pages/Login.tsx:25-39 | each message is empty or one of its field's two texts, and the "required" text appears exactly when the field is empty |
| Login.FieldsIndependent | src/pages/Login.tsx:22-39 | the email message does not depend on the password nor the password message on the email, so both failures are reported together |
| Login.PatternUnanchored | src/pages/Login.tsx:28 | the test is unanchored: text before and after a matching string keeps it matching |
| Login.MatchFacts | src/pages/Login.tsx:28 | a match has non-space characters before the '@', after it and after the '.', and at least one character between '@' and '.' |
| Login.NoDotNoMatch | src/pages/Login.tsx:28 | a string without a '.' never matches |
| Login.EmptyDomainRejected | src/pages/Login.tsx:28 | `ana@.org` is rejected |
| Login.SpaceBeforeAtRejected | src/pages/Login.tsx:28 | `ana @uni.org` is rejected |
| Login.ShortestAccepted | src/pages/Login.tsx:28 | `a@b.c` is accepted |
| Login.SurroundedAccepted | src/pages/Login.tsx:28 | an address inside a sentence is accepted |
| Login.DottedDomainAccepted | src/pages/Login.tsx:28 | `ana@uni.example.org` is accepted |
| Login.PatternExamples | src/pages/Login.tsx:28 | three accepted and three rejected emails, including `ana@uni` with no dot |
| Login.FormExamples | src/pages/Login.tsx:21-43 | an empty form gets both "required" messages; `ana@uni` with `12345` gets both format messages; `a@b.c` with six spaces is valid |

## Left out

- Dates are day numbers and minutes in local time. Time zones, daylight-saving shifts and the ISO strings of `toISOString` are not modelled.
- The event id is the datatype `EventId`. It stands in for the dash-joined string, and its `startTime` is minutes since 1970-01-01 rather than the milliseconds of `getTime()`.
- The default week start `new Date()` reads the clock. The model takes it as the parameter `today`.
- `Math.ceil(d / 60)` and `Math.floor` are computed on integers. Fractional durations, negative durations and fractional meeting counts are not modelled: `Scheduler.OptionsOk` requires a duration of at least one minute, and the meeting count is a whole number (a negative one gives no meetings, as the loop in the code does not run).
- `hoursPerWeek` is accepted by the input type but never read, so the model's `Course` has no such field.
- SchedulerProofs.MeetingIdsDistinct: it states distinct identities only within one course. Two courses with the same code in one semester can produce equal identities, so uniqueness across the timetable is not claimed.
- SchedulerProofs.SemesterApartSinceReset: it claims non-overlap only between meetings with no 09:00 restart on that day in between. The wider clash-freedom does not hold (see SchedulerProofs.ResetOverlap).
- `password.length` counts UTF-16 code units; the model counts Dafny characters. The two differ for characters outside the Basic Multilingual Plane.
- Of the login page, only `validateForm` is modelled. The form state, showing the messages through `setErrors`, the asynchronous submit, the toast notifications, navigation and the authentication call are user-interface code.
- The other pages, components and services of the application are not part of this model.

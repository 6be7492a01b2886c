/** The Course schema (server/models/Course.js): the course record, the fields a request body
    may carry, the `trim`/`uppercase` setters, the validators and the defaults. */
module CourseModel {
  import opened Common
  import opened Text

  datatype Course = Course(
    courseCode: string,
    courseName: string,
    faculty: string,
    program: string,
    totalStudents: int,
    assignedLecturers: seq<Id>,
    programLeader: Id,
    principalLecturer: Option<Id>,
    isActive: bool,
    createdAt: Timestamp,
    updatedAt: Timestamp)

  /** A request body: every course path a client may send, `None` when absent. */
  datatype CourseBody = CourseBody(
    courseCode: Option<string>,
    courseName: Option<string>,
    faculty: Option<string>,
    program: Option<string>,
    totalStudents: Option<int>,
    assignedLecturers: Option<seq<Id>>,
    programLeader: Option<Id>,
    principalLecturer: Option<Id>,
    isActive: Option<bool>,
    createdAt: Option<Timestamp>,
    updatedAt: Option<Timestamp>)

  /** The setters applied to a body's values as they are assigned. */
  function Normalize(b: CourseBody): (n: CourseBody)
    ensures n.courseCode.Some? <==> b.courseCode.Some?
    ensures n.courseCode.Some? ==> n.courseCode.value == TrimUpper(b.courseCode.value)
    ensures n.courseName == TrimOpt(b.courseName) && n.faculty == TrimOpt(b.faculty)
    ensures n.program == TrimOpt(b.program)
    ensures n.(courseCode := b.courseCode, courseName := b.courseName, faculty := b.faculty,
               program := b.program) == b
  {
    b.(courseCode := if b.courseCode.Some? then Some(TrimUpper(b.courseCode.value)) else None,
       courseName := TrimOpt(b.courseName),
       faculty := TrimOpt(b.faculty),
       program := TrimOpt(b.program))
  }

  /** The validators on a value (after its setter): a required string must not be empty, and
      `totalStudents` is at least 0. */
  predicate StringValid(o: Option<string>) { o.Some? ==> o.value != "" }

  /** The validators on the paths a body sets, as `runValidators` applies them to an update. */
  predicate BodyValid(n: CourseBody) {
    && StringValid(n.courseCode) && StringValid(n.courseName)
    && StringValid(n.faculty) && StringValid(n.program)
    && (n.totalStudents.Some? ==> n.totalStudents.value >= 0)
  }

  /** What the schema admits: required strings present (non-empty), code trimmed and upper case,
      the other strings trimmed, a non-negative student count. */
  predicate ValidCourse(c: Course) {
    && c.courseCode != "" && c.courseName != "" && c.faculty != "" && c.program != ""
    && IsTrimmed(c.courseCode) && IsUpper(c.courseCode)
    && IsTrimmed(c.courseName) && IsTrimmed(c.faculty) && IsTrimmed(c.program)
    && c.totalStudents >= 0
  }

  /** A body gives every path that is required and has no default. */
  predicate Complete(b: CourseBody) {
    && b.courseCode.Some? && b.courseName.Some? && b.faculty.Some? && b.program.Some?
    && b.totalStudents.Some? && b.programLeader.Some?
  }

  /** `new Course(body)`: the body's values and the defaults (`isActive` true, no assigned
      lecturers, both timestamps now). */
  function Build(n: CourseBody, now: Timestamp): (c: Course)
    requires Complete(n)
    ensures c.courseCode == n.courseCode.value && c.courseName == n.courseName.value
    ensures c.faculty == n.faculty.value && c.program == n.program.value
    ensures c.totalStudents == n.totalStudents.value && c.programLeader == n.programLeader.value
    ensures c.principalLecturer == n.principalLecturer
    ensures c.isActive == OrElse(n.isActive, true)
    ensures c.assignedLecturers == OrElse(n.assignedLecturers, [])
    ensures c.createdAt == OrElse(n.createdAt, now) && c.updatedAt == OrElse(n.updatedAt, now)
  {
    Course(n.courseCode.value, n.courseName.value, n.faculty.value, n.program.value,
           n.totalStudents.value, OrElse(n.assignedLecturers, []), n.programLeader.value,
           n.principalLecturer, OrElse(n.isActive, true), OrElse(n.createdAt, now),
           OrElse(n.updatedAt, now))
  }

  /** The update `$set`: every path the body gives takes its value, every other path keeps its
      value. Nothing refreshes `updatedAt`. */
  function Merge(c: Course, n: CourseBody): (m: Course)
    ensures m.courseCode == OrElse(n.courseCode, c.courseCode)
    ensures m.courseName == OrElse(n.courseName, c.courseName)
    ensures m.faculty == OrElse(n.faculty, c.faculty) && m.program == OrElse(n.program, c.program)
    ensures m.totalStudents == OrElse(n.totalStudents, c.totalStudents)
    ensures m.assignedLecturers == OrElse(n.assignedLecturers, c.assignedLecturers)
    ensures m.programLeader == OrElse(n.programLeader, c.programLeader)
    ensures m.principalLecturer == (if n.principalLecturer.Some? then n.principalLecturer else c.principalLecturer)
    ensures m.isActive == OrElse(n.isActive, c.isActive)
    ensures m.createdAt == OrElse(n.createdAt, c.createdAt) && m.updatedAt == OrElse(n.updatedAt, c.updatedAt)
  {
    Course(
      OrElse(n.courseCode, c.courseCode),
      OrElse(n.courseName, c.courseName),
      OrElse(n.faculty, c.faculty),
      OrElse(n.program, c.program),
      OrElse(n.totalStudents, c.totalStudents),
      OrElse(n.assignedLecturers, c.assignedLecturers),
      OrElse(n.programLeader, c.programLeader),
      if n.principalLecturer.Some? then n.principalLecturer else c.principalLecturer,
      OrElse(n.isActive, c.isActive),
      OrElse(n.createdAt, c.createdAt),
      OrElse(n.updatedAt, c.updatedAt))
  }

  /** A body that went through the setters and passed the validators keeps a valid course valid. */
  lemma MergeKeepsValid(c: Course, b: CourseBody)
    requires ValidCourse(c) && BodyValid(Normalize(b))
    ensures ValidCourse(Merge(c, Normalize(b)))
  {
  }

  /** A course built from a complete, normalised body is valid exactly when its values pass the
      validators. */
  lemma BuildValid(b: CourseBody, now: Timestamp)
    requires Complete(b)
    ensures ValidCourse(Build(Normalize(b), now)) <==> BodyValid(Normalize(b))
  {
  }

  /** The code setters are idempotent: a stored code passes through them unchanged, so the unique
      index compares codes as stored. */
  lemma {:induction false} CodeOfIdempotent(s: string)
    ensures TrimUpper(TrimUpper(s)) == TrimUpper(s)
  {
    var c := TrimUpper(s);
    TrimOfTrimmed(c);
    UpperIsFixed(c);
  }
}

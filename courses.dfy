/** The course routes (server/routes/courses.js) over the course collection: list, get, and the
    programme-leader-only create, update and delete. */
module Courses {
  import opened Common
  import opened Collections
  import opened CourseModel
  import opened Text

  /** The list query parameters. */
  datatype CourseFilter = CourseFilter(faculty: Option<string>, program: Option<string>)

  /** Every supplied filter holds of the course. Casting the filter runs the paths' `trim`
      setters, so faculty and programme are compared trimmed. */
  predicate MatchesFilter(c: Course, f: CourseFilter) {
    && (Given(f.faculty) ==> c.faculty == Trim(f.faculty.value))
    && (Given(f.program) ==> c.program == Trim(f.program.value))
  }

  /** `authorize('program_leader')` */
  predicate MayManage(me: Principal) {
    me.role == ProgramLeader
  }

  /** Some course other than `except` has the code. */
  predicate CodeTaken(courses: map<Id, Course>, code: string, except: Option<Id>) {
    exists id :: id in courses && (except.None? || id != except.value) && courses[id].courseCode == code
  }

  /** Every course is valid, ids lie below the counter, and no two courses share a code. */
  predicate Catalog(courses: map<Id, Course>, nextId: Id) {
    && (forall id :: id in courses ==> id < nextId && ValidCourse(courses[id]))
    && (forall i, j :: i in courses && j in courses && i != j ==> courses[i].courseCode != courses[j].courseCode)
  }

  /** The course a create would save, if the body gives every required path. */
  function NewCourse(b: CourseBody, now: Timestamp): Option<Course> {
    var n := Normalize(b);
    if Complete(n) then Some(Build(n, now)) else None
  }

  lemma AddKeepsCatalog(courses: map<Id, Course>, nextId: Id, c: Course)
    requires Catalog(courses, nextId) && ValidCourse(c) && !CodeTaken(courses, c.courseCode, None)
    ensures nextId !in courses && Catalog(courses[nextId := c], nextId + 1)
  {
  }

  lemma PutKeepsCatalog(courses: map<Id, Course>, nextId: Id, id: Id, c: Course)
    requires Catalog(courses, nextId) && id in courses && ValidCourse(c)
    requires !CodeTaken(courses, c.courseCode, Some(id))
    ensures Catalog(courses[id := c], nextId)
  {
  }

  lemma RemoveKeepsCatalog(courses: map<Id, Course>, nextId: Id, id: Id)
    requires Catalog(courses, nextId)
    ensures Catalog(courses - {id}, nextId)
  {
  }

  class CourseStore {
    var courses: map<Id, Course>
    var nextId: Id

    ghost predicate Valid()
      reads this
    {
      Catalog(courses, nextId)
    }

    constructor ()
      ensures Valid() && courses == map[]
    {
      courses := map[];
      nextId := 0;
    }

    /** `GET /courses`: exactly the courses matching both supplied filters, in the collection's order. */
    function List(f: CourseFilter): (cs: seq<(Id, Course)>)
      reads this
      ensures forall e :: e in cs <==> e.0 in courses && courses[e.0] == e.1 && MatchesFilter(e.1, f)
      ensures IdsIncreasing(cs)
      ensures |cs| == |MatchingIds(courses, (c: Course) => MatchesFilter(c, f))|
    {
      QueryInOrder(courses, (c: Course) => MatchesFilter(c, f))
    }

    /** `GET /courses/:id` */
    function Get(id: Id): (r: Result<Course>)
      reads this
      ensures r.Ok? <==> id in courses
      ensures r.Ok? ==> r.value == courses[id]
      ensures r.Err? ==> r.error == NotFound
    {
      if id in courses then Ok(courses[id]) else Err(NotFound)
    }

    /** `POST /courses`: only a programme leader may create; a body the schema rejects, or whose
        code is already taken, is a 500 and changes nothing; otherwise exactly one course is added. */
    method Create(me: Principal, body: CourseBody, now: Timestamp) returns (res: Result<(Id, Course)>)
      requires Valid()
      modifies this
      ensures Valid()
      ensures !MayManage(me) ==> res == Err(Forbidden)
      ensures MayManage(me) ==>
                var c := NewCourse(body, now);
                if c.Some? && ValidCourse(c.value) && !CodeTaken(old(courses), c.value.courseCode, None)
                then res.Ok? && res.value.1 == c.value && res.value.0 !in old(courses)
                     && courses == old(courses)[res.value.0 := c.value]
                else res == Err(ServerError)
      ensures res.Err? ==> courses == old(courses) && nextId == old(nextId)
    {
      if me.role != ProgramLeader {
        return Err(Forbidden);
      }
      var c := NewCourse(body, now);
      if c.None? || !ValidCourse(c.value) {
        return Err(ServerError);
      }
      if CodeTaken(courses, c.value.courseCode, None) {
        return Err(ServerError);
      }
      AddKeepsCatalog(courses, nextId, c.value);
      var id := nextId;
      courses := courses[id := c.value];
      nextId := nextId + 1;
      res := Ok((id, c.value));
    }

    /** `PUT /courses/:id`: only a programme leader may update; the update validators run on the
        body's paths before the lookup, so an invalid body is a 500 even for an unknown id; an
        unknown id is a 404; a code taken by another course is a 500; all of these change
        nothing. Otherwise only that course changes, to the body merged over it. */
    method Update(me: Principal, id: Id, body: CourseBody) returns (res: Result<Course>)
      requires Valid()
      modifies this
      ensures Valid() && nextId == old(nextId)
      ensures !MayManage(me) ==> res == Err(Forbidden)
      ensures MayManage(me) && !BodyValid(Normalize(body)) ==> res == Err(ServerError)
      ensures MayManage(me) && BodyValid(Normalize(body)) && id !in old(courses) ==> res == Err(NotFound)
      ensures MayManage(me) && BodyValid(Normalize(body)) && id in old(courses) ==>
                var m := Merge(old(courses)[id], Normalize(body));
                if CodeTaken(old(courses), m.courseCode, Some(id))
                then res == Err(ServerError)
                else res == Ok(m) && courses == old(courses)[id := m]
      ensures res.Err? ==> courses == old(courses)
    {
      if me.role != ProgramLeader {
        return Err(Forbidden);
      }
      var n := Normalize(body);
      if !BodyValid(n) {
        return Err(ServerError);
      }
      if id !in courses {
        return Err(NotFound);
      }
      var m := Merge(courses[id], n);
      if CodeTaken(courses, m.courseCode, Some(id)) {
        return Err(ServerError);
      }
      MergeKeepsValid(courses[id], body);
      PutKeepsCatalog(courses, nextId, id, m);
      courses := courses[id := m];
      res := Ok(m);
    }

    /** `DELETE /courses/:id`: only a programme leader may delete; an unknown id is a 404 and
        changes nothing; otherwise exactly that course is removed. */
    method Delete(me: Principal, id: Id) returns (res: Result<()>)
      requires Valid()
      modifies this
      ensures Valid() && nextId == old(nextId)
      ensures !MayManage(me) ==> res == Err(Forbidden)
      ensures MayManage(me) && id !in old(courses) ==> res == Err(NotFound)
      ensures res.Ok? <==> MayManage(me) && id in old(courses)
      ensures res.Ok? ==> courses == old(courses) - {id}
      ensures res.Err? ==> courses == old(courses)
    {
      if me.role != ProgramLeader {
        return Err(Forbidden);
      }
      if id !in courses {
        return Err(NotFound);
      }
      RemoveKeepsCatalog(courses, nextId, id);
      courses := courses - {id};
      res := Ok(());
    }
  }

  /** A created course starts active with no assigned lecturers unless the body says otherwise,
      and its code is the body's code trimmed and upper-cased. */
  lemma CreateDefaults(b: CourseBody, now: Timestamp)
    requires Complete(b)
    ensures NewCourse(b, now).Some?
    ensures var c := NewCourse(b, now).value;
      && (b.isActive.None? ==> c.isActive)
      && (b.assignedLecturers.None? ==> c.assignedLecturers == [])
      && c.courseCode == TrimUpper(b.courseCode.value)
      && c.createdAt == OrElse(b.createdAt, now)
  {
  }

  /** An update leaves `updatedAt` as it was unless the body itself sets it. */
  lemma UpdateKeepsTimestamp(c: Course, b: CourseBody)
    requires b.updatedAt.None?
    ensures Merge(c, Normalize(b)).updatedAt == c.updatedAt
  {
  }
}

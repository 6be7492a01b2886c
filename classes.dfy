/** The class routes (server/routes/classes.js) over the class collection: list, get, and the
    programme-leader-only create, update and delete. The Class schema is not part of this model:
    which documents it admits is a parameter of the operations that save. */
module Classes {
  import opened Common
  import opened Collections

  /** A class document: the paths the client sends, each possibly absent. */
  datatype ClassDoc = ClassDoc(
    className: Option<string>,
    course: Option<Id>,
    lecturer: Option<Id>,
    venue: Option<string>,
    scheduledTime: Option<string>,
    dayOfWeek: Option<string>,
    semester: Option<string>,
    academicYear: Option<string>)

  /** The list query parameters. */
  datatype ClassFilter = ClassFilter(course: Option<Id>, lecturer: Option<Id>)

  predicate MatchesFilter(c: ClassDoc, f: ClassFilter) {
    && (f.course.Some? ==> c.course == f.course)
    && (f.lecturer.Some? ==> c.lecturer == f.lecturer)
  }

  /** The update `$set`: every path the body gives takes its value, every other keeps its value. */
  function Merge(c: ClassDoc, b: ClassDoc): (m: ClassDoc)
    ensures b.className.Some? ==> m.className == b.className
    ensures b.className.None? ==> m.className == c.className
    ensures b.course.Some? ==> m.course == b.course
    ensures b.course.None? ==> m.course == c.course
    ensures b.lecturer.Some? ==> m.lecturer == b.lecturer
    ensures b.lecturer.None? ==> m.lecturer == c.lecturer
    ensures b.venue.Some? ==> m.venue == b.venue
    ensures b.venue.None? ==> m.venue == c.venue
    ensures b.scheduledTime.Some? ==> m.scheduledTime == b.scheduledTime
    ensures b.scheduledTime.None? ==> m.scheduledTime == c.scheduledTime
    ensures b.dayOfWeek.Some? ==> m.dayOfWeek == b.dayOfWeek
    ensures b.dayOfWeek.None? ==> m.dayOfWeek == c.dayOfWeek
    ensures b.semester.Some? ==> m.semester == b.semester
    ensures b.semester.None? ==> m.semester == c.semester
    ensures b.academicYear.Some? ==> m.academicYear == b.academicYear
    ensures b.academicYear.None? ==> m.academicYear == c.academicYear
  {
    ClassDoc(
      Prefer(b.className, c.className), Prefer(b.course, c.course), Prefer(b.lecturer, c.lecturer),
      Prefer(b.venue, c.venue), Prefer(b.scheduledTime, c.scheduledTime),
      Prefer(b.dayOfWeek, c.dayOfWeek), Prefer(b.semester, c.semester),
      Prefer(b.academicYear, c.academicYear))
  }

  function Prefer<T>(given: Option<T>, current: Option<T>): Option<T> {
    if given.Some? then given else current
  }

  /** Merging is idempotent, and an empty body changes nothing. */
  lemma MergeIdempotent(c: ClassDoc, b: ClassDoc)
    ensures Merge(Merge(c, b), b) == Merge(c, b)
    ensures Merge(c, ClassDoc(None, None, None, None, None, None, None, None)) == c
  {
  }

  class ClassStore {
    var classes: map<Id, ClassDoc>
    var nextId: Id

    ghost predicate Valid()
      reads this
    {
      forall id :: id in classes ==> id < nextId
    }

    constructor ()
      ensures Valid() && classes == map[]
    {
      classes := map[];
      nextId := 0;
    }

    /** `GET /classes`: exactly the classes matching both supplied filters, in the collection's order. */
    function List(f: ClassFilter): (cs: seq<(Id, ClassDoc)>)
      reads this
      ensures forall e :: e in cs <==> e.0 in classes && classes[e.0] == e.1 && MatchesFilter(e.1, f)
      ensures IdsIncreasing(cs)
      ensures |cs| == |MatchingIds(classes, (c: ClassDoc) => MatchesFilter(c, f))|
    {
      QueryInOrder(classes, (c: ClassDoc) => MatchesFilter(c, f))
    }

    /** `GET /classes/:id` */
    function Get(id: Id): (r: Result<ClassDoc>)
      reads this
      ensures r.Ok? <==> id in classes
      ensures r.Ok? ==> r.value == classes[id]
      ensures r.Err? ==> r.error == NotFound
    {
      if id in classes then Ok(classes[id]) else Err(NotFound)
    }

    /** `POST /classes`: only a programme leader may create; a document the schema rejects is a
        500 and changes nothing; otherwise exactly one class, the body, is added. */
    method Create(me: Principal, body: ClassDoc, schemaAccepts: ClassDoc -> bool) returns (res: Result<Id>)
      requires Valid()
      modifies this
      ensures Valid()
      ensures me.role != ProgramLeader ==> res == Err(Forbidden)
      ensures me.role == ProgramLeader && !schemaAccepts(body) ==> res == Err(ServerError)
      ensures res.Ok? <==> me.role == ProgramLeader && schemaAccepts(body)
      ensures res.Ok? ==> res.value !in old(classes) && classes == old(classes)[res.value := body]
      ensures res.Err? ==> classes == old(classes) && nextId == old(nextId)
    {
      if me.role != ProgramLeader {
        return Err(Forbidden);
      }
      if !schemaAccepts(body) {
        return Err(ServerError);
      }
      var id := nextId;
      classes := classes[id := body];
      nextId := nextId + 1;
      res := Ok(id);
    }

    /** `PUT /classes/:id`: only a programme leader may update; a body the update validators
        reject is a 500 (checked before the lookup); an unknown id is a 404; these change nothing.
        Otherwise only that class changes, to the body merged over it. */
    method Update(me: Principal, id: Id, body: ClassDoc, validatorsAccept: ClassDoc -> bool)
      returns (res: Result<ClassDoc>)
      requires Valid()
      modifies this
      ensures Valid() && nextId == old(nextId)
      ensures me.role != ProgramLeader ==> res == Err(Forbidden)
      ensures me.role == ProgramLeader && !validatorsAccept(body) ==> res == Err(ServerError)
      ensures me.role == ProgramLeader && validatorsAccept(body) && id !in old(classes) ==> res == Err(NotFound)
      ensures res.Ok? <==> me.role == ProgramLeader && validatorsAccept(body) && id in old(classes)
      ensures res.Ok? ==> res.value == Merge(old(classes)[id], body) && classes == old(classes)[id := res.value]
      ensures res.Err? ==> classes == old(classes)
    {
      if me.role != ProgramLeader {
        return Err(Forbidden);
      }
      if !validatorsAccept(body) {
        return Err(ServerError);
      }
      if id !in classes {
        return Err(NotFound);
      }
      var m := Merge(classes[id], body);
      classes := classes[id := m];
      res := Ok(m);
    }

    /** `DELETE /classes/:id`: only a programme leader may delete; an unknown id is a 404 and
        changes nothing; otherwise exactly that class is removed. */
    method Delete(me: Principal, id: Id) returns (res: Result<()>)
      requires Valid()
      modifies this
      ensures Valid() && nextId == old(nextId)
      ensures me.role != ProgramLeader ==> res == Err(Forbidden)
      ensures me.role == ProgramLeader && id !in old(classes) ==> res == Err(NotFound)
      ensures res.Ok? <==> me.role == ProgramLeader && id in old(classes)
      ensures res.Ok? ==> classes == old(classes) - {id}
      ensures res.Err? ==> classes == old(classes)
    {
      if me.role != ProgramLeader {
        return Err(Forbidden);
      }
      if id !in classes {
        return Err(NotFound);
      }
      classes := classes - {id};
      res := Ok(());
    }
  }
}

/** The schedule service: validated writes, the week, and what is on now. */
module ScheduleService {
  import opened Wrappers
  import opened Lessons
  import opened LessonRepo

  datatype ServiceError = Forbidden | InvalidTime | DomainNotFound | Overlap

  datatype Patch = Patch(
    subject: Option<string>,
    teacher: Option<Uuid>,
    clearTeacher: bool,
    day: Option<int>,
    startsAt: Option<int>,
    endsAt: Option<int>,
    notes: Option<string>)

  function Or<T>(o: Option<T>, d: T): T {
    match o
    case Some(v) => v
    case None => d
  }

  /** Id and classroom are not patchable. */
  function Patched(l: Lesson, p: Patch): Lesson {
    l.(subject := Or(p.subject, l.subject),
       teacher := if p.clearTeacher then None else if p.teacher.Some? then p.teacher else l.teacher,
       day := Or(p.day, l.day),
       startsAt := Or(p.startsAt, l.startsAt),
       endsAt := Or(p.endsAt, l.endsAt),
       notes := Or(p.notes, l.notes))
  }

  /** Field by field: what the patch gives is in the lesson, what it leaves out is as it was. */
  predicate TakesPatch(was: Lesson, p: Patch, l: Lesson) {
    && l.id == was.id && l.classroom == was.classroom
    && (p.subject.Some? ==> l.subject == p.subject.value) && (p.subject.None? ==> l.subject == was.subject)
    && (p.clearTeacher ==> l.teacher == None)
    && (!p.clearTeacher && p.teacher.Some? ==> l.teacher == p.teacher)
    && (!p.clearTeacher && p.teacher.None? ==> l.teacher == was.teacher)
    && (p.day.Some? ==> l.day == p.day.value) && (p.day.None? ==> l.day == was.day)
    && (p.startsAt.Some? ==> l.startsAt == p.startsAt.value) && (p.startsAt.None? ==> l.startsAt == was.startsAt)
    && (p.endsAt.Some? ==> l.endsAt == p.endsAt.value) && (p.endsAt.None? ==> l.endsAt == was.endsAt)
    && (p.notes.Some? ==> l.notes == p.notes.value) && (p.notes.None? ==> l.notes == was.notes)
  }

  function Mapped(r: Result<(), RepoError>, l: Lesson): Result<Lesson, ServiceError> {
    match r
    case Ok(_) => Ok(l)
    case Err(NotFound) => Err(DomainNotFound)
    case Err(Conflict) => Err(Overlap)
  }

  class Service {
    const repo: MemRepo
    const mayRead: Uuid -> bool      // the caller's rights, classroom by classroom
    const mayEdit: Uuid -> bool

    constructor (repo: MemRepo, mayRead: Uuid -> bool, mayEdit: Uuid -> bool)
      ensures this.repo == repo && this.mayRead == mayRead && this.mayEdit == mayEdit
    {
      this.repo := repo;
      this.mayRead, this.mayEdit := mayRead, mayEdit;
    }

    /**
     `l` carries a fresh id. It is stored exactly when the caller may, its day and times make sense, and no stored
     lesson of its classroom and day shares a minute with it; the first reason to refuse decides.
     */
    method Create(l: Lesson) returns (r: Result<Lesson, ServiceError>)
      requires Timetable(repo.byID)
      modifies repo
      ensures Timetable(repo.byID)
      ensures r.Ok? ==> r.value == l && repo.byID == old(repo.byID)[l.id := l]
      ensures r.Err? ==> repo.byID == old(repo.byID)
      ensures var valid := 1 <= l.day <= 7 && 0 <= l.startsAt < l.endsAt < 1440;
              && (r == Err(Forbidden) <==> !mayEdit(l.classroom))
              && (r == Err(InvalidTime) <==> mayEdit(l.classroom) && !valid)
              && (r == Err(Overlap) <==> mayEdit(l.classroom) && valid && SharesAMinute(old(repo.byID), l, {}))
              && (r.Ok? <==> mayEdit(l.classroom) && valid && !SharesAMinute(old(repo.byID), l, {}))
    {
      if !mayEdit(l.classroom) {
        return Err(Forbidden);
      }
      if !l.Valid() {
        return Err(InvalidTime);
      }
      CreateKeepsTimetable(repo.byID, l);
      ClashesIffSharesAMinute(repo.byID, l, {});
      var created := repo.CreateIfNoOverlap(l);
      r := Mapped(created, l);
    }

    /**
     Read, patch, validate, write. A given field is stored and an absent one stays; id and classroom cannot be
     patched; and a lesson never clashes with its own former self.
     */
    method Update(id: Uuid, p: Patch) returns (r: Result<Lesson, ServiceError>)
      requires Timetable(repo.byID)
      modifies repo
      ensures Timetable(repo.byID)
      ensures r.Ok? ==> id in old(repo.byID) && repo.byID == old(repo.byID)[id := r.value]
      ensures r.Ok? ==> TakesPatch(old(repo.byID)[id], p, r.value)
      ensures r.Err? ==> repo.byID == old(repo.byID)
      ensures r == Err(DomainNotFound) <==> id !in old(repo.byID)
      ensures id in old(repo.byID) ==>
                var was := old(repo.byID)[id];
                var l := Patched(was, p);
                var valid := 1 <= l.day <= 7 && 0 <= l.startsAt < l.endsAt < 1440;
                && TakesPatch(was, p, l)
                && (r == Err(Forbidden) <==> !mayEdit(was.classroom))
                && (r == Err(InvalidTime) <==> mayEdit(was.classroom) && !valid)
                && (r == Err(Overlap) <==> mayEdit(was.classroom) && valid && SharesAMinute(old(repo.byID), l, {id}))
                && (r.Ok? <==> mayEdit(was.classroom) && valid && !SharesAMinute(old(repo.byID), l, {id}))
    {
      var got := repo.GetByID(id);
      if got.Err? {
        return Err(DomainNotFound);
      }
      if !mayEdit(got.value.classroom) {
        return Err(Forbidden);
      }
      var l := Patched(got.value, p);
      if !l.Valid() {
        return Err(InvalidTime);
      }
      UpdateKeepsTimetable(repo.byID, l);
      ClashesIffSharesAMinute(repo.byID, l, {l.id});
      var updated := repo.UpdateIfNoOverlap(l);
      r := Mapped(updated, l);
    }

    method Delete(id: Uuid) returns (r: Result<(), ServiceError>)
      requires Timetable(repo.byID)
      modifies repo
      ensures Timetable(repo.byID)
      ensures r.Ok? <==> id in old(repo.byID) && mayEdit(old(repo.byID)[id].classroom)
      ensures repo.byID == if r.Ok? then old(repo.byID) - {id} else old(repo.byID)
    {
      var got := repo.GetByID(id);
      if got.Err? {
        return Err(DomainNotFound);
      }
      if !mayEdit(got.value.classroom) {
        return Err(Forbidden);
      }
      var gone := repo.Delete(id);
      r := Ok(());
    }

    /** To those who may read: the lesson on at this minute, if any. The first match of the scan is the only one. */
    method Current(classroom: Uuid, today: int, minute: int) returns (r: Result<Option<Lesson>, ServiceError>)
      requires Timetable(repo.byID)
      ensures r == Err(Forbidden) <==> !mayRead(classroom)
      ensures r.Ok? <==> mayRead(classroom)
      ensures r.Ok? && r.value.Some? ==> On(repo.byID, r.value.value, classroom, today, minute)
      ensures r.Ok? && r.value.Some? ==>
                forall l :: On(repo.byID, l, classroom, today, minute) ==> l == r.value.value
      ensures r.Ok? && r.value.None? ==> forall l :: !On(repo.byID, l, classroom, today, minute)
    {
      if !mayRead(classroom) {
        return Err(Forbidden);
      }
      var list := repo.List(classroom, Some(today));
      for i := 0 to |list|
        invariant forall k :: 0 <= k < i ==> !list[k].Contains(minute)
      {
        if minute >= list[i].startsAt && minute < list[i].endsAt {
          OnlyOneOn(repo.byID, list[i], classroom, today, minute);
          return Ok(Some(list[i]));
        }
      }
      r := Ok(None);
    }

    /** One day's lessons in the order they start; the right to read comes before the day is looked at. */
    method Day(classroom: Uuid, day: int) returns (r: Result<seq<Lesson>, ServiceError>)
      requires Timetable(repo.byID)
      ensures r == Err(Forbidden) <==> !mayRead(classroom)
      ensures r == Err(InvalidTime) <==> mayRead(classroom) && !(MONDAY <= day <= SUNDAY)
      ensures r.Ok? <==> mayRead(classroom) && MONDAY <= day <= SUNDAY
      ensures r.Ok? ==> Listed(repo.byID, classroom, Some(day), r.value)
    {
      if !mayRead(classroom) {
        return Err(Forbidden);
      }
      if !(MONDAY <= day <= SUNDAY) {
        return Err(InvalidTime);
      }
      var list := repo.List(classroom, Some(day));
      r := Ok(list);
    }

    /** To those who may read: the classroom's lessons by day. */
    method Week(classroom: Uuid) returns (r: Result<map<int, seq<Lesson>>, ServiceError>)
      requires Timetable(repo.byID)
      ensures r == Err(Forbidden) <==> !mayRead(classroom)
      ensures r.Ok? <==> mayRead(classroom)
      ensures r.Ok? ==> exists list :: Listed(repo.byID, classroom, None, list) && IsWeek(r.value, list)
    {
      if !mayRead(classroom) {
        return Err(Forbidden);
      }
      var list := repo.List(classroom, None);
      var week: map<int, seq<Lesson>> := map[];
      for d := MONDAY to FRIDAY + 1
        invariant forall k :: k in week <==> MONDAY <= k < d
        invariant forall k :: k in week ==> week[k] == []
      {
        week := week[d := []];
      }
      for i := 0 to |list|
        invariant IsWeek(week, list[..i])
      {
        assert list[..i + 1] == list[..i] + [list[i]];
        IsWeekSnoc(week, list[..i], list[i]);
        var day := list[i].day;
        week := week[day := Bucket(week, day) + [list[i]]];
      }
      assert list[..|list|] == list;
      r := Ok(week);
    }
  }

  /** A missing key reads as the empty list, and appending to it makes the key. */
  function Bucket(week: map<int, seq<Lesson>>, day: int): seq<Lesson> {
    if day in week then week[day] else []
  }

  /** Monday to Friday are always present, other days only with lessons; each day keeps the list's order. */
  ghost predicate IsWeek(week: map<int, seq<Lesson>>, list: seq<Lesson>) {
    && (forall d :: d in week <==> MONDAY <= d <= FRIDAY || OfDay(list, d) != [])
    && (forall d :: d in week ==> week[d] == OfDay(list, d))
  }

  lemma IsWeekSnoc(week: map<int, seq<Lesson>>, list: seq<Lesson>, l: Lesson)
    requires IsWeek(week, list)
    ensures IsWeek(week[l.day := Bucket(week, l.day) + [l]], list + [l])
  {
    forall d ensures OfDay(list + [l], d) == OfDay(list, d) + (if l.day == d then [l] else []) {
      OfDaySnoc(list, l, d);
    }
    assert Bucket(week, l.day) == OfDay(list, l.day);
  }

  ghost predicate On(store: Store, l: Lesson, classroom: Uuid, day: int, minute: int) {
    l.id in store && store[l.id] == l && Matches(l, classroom, Some(day)) && l.Contains(minute)
  }

  lemma OnlyOneOn(store: Store, l: Lesson, classroom: Uuid, day: int, minute: int)
    requires Timetable(store) && On(store, l, classroom, day, minute)
    ensures forall other :: On(store, other, classroom, day, minute) ==> other == l
  {
    forall other | On(store, other, classroom, day, minute) ensures other == l {
      if other.id != l.id {
        assert Clash(store[other.id], store[l.id]);
      }
    }
  }

  function OfDay(ls: seq<Lesson>, day: int): seq<Lesson> {
    if ls == [] then []
    else (if ls[0].day == day then [ls[0]] else []) + OfDay(ls[1..], day)
  }

  lemma {:induction false} OfDaySnoc(ls: seq<Lesson>, l: Lesson, day: int)
    ensures OfDay(ls + [l], day) == OfDay(ls, day) + (if l.day == day then [l] else [])
    decreases |ls|
  {
    if ls == [] {
      assert [l][1..] == [];
    } else {
      var head := if ls[0].day == day then [ls[0]] else [];
      OfDaySnoc(ls[1..], l, day);
      assert (ls + [l])[0] == ls[0] && (ls + [l])[1..] == ls[1..] + [l];
      assert OfDay(ls, day) == head + OfDay(ls[1..], day);
      assert OfDay(ls + [l], day) == head + OfDay(ls[1..] + [l], day);
    }
  }

  lemma {:induction false} OfDayNone(ls: seq<Lesson>, day: int)
    requires forall l :: l in ls ==> l.day != day
    ensures OfDay(ls, day) == []
    decreases |ls|
  {
    if ls != [] {
      assert ls[0] in ls && forall l :: l in ls[1..] ==> l in ls;
      OfDayNone(ls[1..], day);
    }
  }

  /** The buckets from day `d` to Sunday, one after the other. */
  function BucketsFrom(week: map<int, seq<Lesson>>, d: int): seq<Lesson>
    decreases SUNDAY - d
  {
    if d > SUNDAY then [] else Bucket(week, d) + BucketsFrom(week, d + 1)
  }

  function DaysFrom(ls: seq<Lesson>, d: int): seq<Lesson>
    decreases SUNDAY - d
  {
    if d > SUNDAY then [] else OfDay(ls, d) + DaysFrom(ls, d + 1)
  }

  lemma DayCons(ls: seq<Lesson>, d: int)
    requires ls != [] && forall l :: l in ls[1..] ==> ls[0].day <= l.day
    ensures OfDay(ls, d) == if d == ls[0].day then [ls[0]] + OfDay(ls[1..], d) else OfDay(ls[1..], d)
    ensures d < ls[0].day ==> OfDay(ls[1..], d) == []
  {
    if d < ls[0].day {
      OfDayNone(ls[1..], d);
    }
  }

  lemma {:induction false} DaysCons(ls: seq<Lesson>, d: int)
    requires ls != [] && ls[0].day <= SUNDAY
    requires forall l :: l in ls[1..] ==> ls[0].day <= l.day
    ensures DaysFrom(ls, d) == if d <= ls[0].day then [ls[0]] + DaysFrom(ls[1..], d) else DaysFrom(ls[1..], d)
    decreases SUNDAY - d
  {
    hide OfDay;
    if d <= SUNDAY {
      DaysCons(ls, d + 1);
      DayCons(ls, d);
      PrependDay(ls[0], OfDay(ls[1..], d), DaysFrom(ls[1..], d + 1));
    }
  }

  lemma PrependDay(l: Lesson, day: seq<Lesson>, later: seq<Lesson>)
    ensures ([l] + day) + later == [l] + (day + later)
    ensures day == [] ==> day + ([l] + later) == [l] + (day + later)
  {
  }

  lemma {:induction false} DaysEmpty(d: int)
    ensures DaysFrom([], d) == []
    decreases SUNDAY - d
  {
    if d <= SUNDAY {
      DaysEmpty(d + 1);
    }
  }

  lemma {:induction false} DaysPartition(ls: seq<Lesson>)
    requires Sorted(ls) && forall l :: l in ls ==> MONDAY <= l.day <= SUNDAY
    ensures DaysFrom(ls, MONDAY) == ls
    decreases |ls|
  {
    hide DaysFrom;
    if ls == [] {
      DaysEmpty(MONDAY);
    } else {
      RestSorted(ls);
      DaysPartition(ls[1..]);
      DaysCons(ls, MONDAY);
      assert ls == [ls[0]] + ls[1..];
    }
  }

  lemma {:induction false} BucketsAreDays(week: map<int, seq<Lesson>>, list: seq<Lesson>, d: int)
    requires IsWeek(week, list)
    ensures BucketsFrom(week, d) == DaysFrom(list, d)
    decreases SUNDAY - d
  {
    if d <= SUNDAY {
      assert Bucket(week, d) == OfDay(list, d);
      BucketsAreDays(week, list, d + 1);
    }
  }

  /** Read Monday to Sunday, the week is the classroom's whole list again: nothing lost, doubled or reordered. */
  lemma WeekPartitions(store: Store, classroom: Uuid, list: seq<Lesson>, week: map<int, seq<Lesson>>)
    requires Timetable(store) && Listed(store, classroom, None, list) && IsWeek(week, list)
    ensures BucketsFrom(week, MONDAY) == list
    ensures forall d :: d in week ==> MONDAY <= d <= SUNDAY
  {
    forall l | l in list ensures MONDAY <= l.day <= SUNDAY {
      assert store[l.id].Valid();
    }
    BucketsAreDays(week, list, MONDAY);
    DaysPartition(list);
    forall d | d in week && !(MONDAY <= d <= SUNDAY) ensures OfDay(list, d) == [] {
      OfDayNone(list, d);
    }
  }

  /** A classroom's lessons of one day fit into it. */
  lemma DayTotal(store: Store, classroom: Uuid, day: int, list: seq<Lesson>)
    requires Timetable(store) && Listed(store, classroom, Some(day), list)
    ensures Total(list) <= MINUTES_PER_DAY - 1
  {
    if list != [] {
      forall i, k | 0 <= i < k < |list| ensures !list[i].Overlaps(list[k]) {
        ListedApart(store, classroom, Some(day), list, i, k);
        assert !Clash(store[list[i].id], store[list[k].id]);
      }
      DisjointTotal(list);
    }
  }

  // ------------------------------------------------------------ any run of the repository

  /** A request's read and its write are separate steps, so what it writes may be stale. */
  datatype Op =
    | CreateLesson(l: Lesson)
    | ReadForUpdate(rid: nat, id: Uuid)
    | WriteUpdate(rid: nat, p: Patch)
    | DeleteLesson(id: Uuid)

  datatype State = State(store: Store, read: map<nat, Lesson>)

  function Step(s: State, op: Op): State {
    match op
    case CreateLesson(l) =>
      if l.Valid() && l.id !in s.store then s.(store := Lessons.CreateIfNoOverlap(s.store, l).0) else s
    case ReadForUpdate(rid, id) => if id in s.store then s.(read := s.read[rid := s.store[id]]) else s
    case WriteUpdate(rid, p) =>
      if rid in s.read && Patched(s.read[rid], p).Valid()
      then s.(store := Lessons.UpdateIfNoOverlap(s.store, Patched(s.read[rid], p)).0) else s
    case DeleteLesson(id) => s.(store := Lessons.Delete(s.store, id).0)
  }

  function Run(s: State, ops: seq<Op>): State
    decreases |ops|
  {
    if ops == [] then s else Run(Step(s, ops[0]), ops[1..])
  }

  lemma {:induction false} RunKeepsTimetable(s: State, ops: seq<Op>)
    requires Timetable(s.store)
    ensures Timetable(Run(s, ops).store)
    decreases |ops|
  {
    if ops != [] {
      match ops[0] {
        case CreateLesson(l) => if l.Valid() { CreateKeepsTimetable(s.store, l); }
        case WriteUpdate(rid, p) =>
          if rid in s.read && Patched(s.read[rid], p).Valid() {
            UpdateKeepsTimetable(s.store, Patched(s.read[rid], p));
          }
        case _ =>
      }
      RunKeepsTimetable(Step(s, ops[0]), ops[1..]);
    }
  }

  /** A creation stores its lesson exactly when it fits, a deletion takes exactly its own, and a read changes nothing. */
  lemma StepStores(s: State, l: Lesson, rid: nat, id: Uuid)
    requires Timetable(s.store) && l.Valid() && l.id !in s.store
    ensures Step(s, CreateLesson(l)).store == if SharesAMinute(s.store, l, {}) then s.store else s.store[l.id := l]
    ensures Step(s, DeleteLesson(id)).store == s.store - {id}
    ensures var t := Step(s, ReadForUpdate(rid, id));
            t.store == s.store && (id in s.store ==> rid in t.read && t.read[rid] == s.store[id])
  {
    ClashesIffSharesAMinute(s.store, l, {});
    assert id !in s.store ==> s.store - {id} == s.store;
  }

  /** A write of an earlier read, if its lesson is still there, makes sense and fits, moves it to the day it names. */
  lemma WriteMovesDay(s: State, rid: nat, p: Patch, d: int)
    requires rid in s.read && s.read[rid].id in s.store && p.day == Some(d) && Timetable(s.store)
    requires Patched(s.read[rid], p).Valid()
    requires !SharesAMinute(s.store, Patched(s.read[rid], p), {s.read[rid].id})
    ensures var id, t := s.read[rid].id, Step(s, WriteUpdate(rid, p)).store;
            && id in t && TakesPatch(s.read[rid], p, t[id]) && t[id].day == d
            && forall k :: k != id ==> (k in t <==> k in s.store) && (k in t ==> t[k] == s.store[k])
  {
    ClashesIffSharesAMinute(s.store, Patched(s.read[rid], p), {s.read[rid].id});
  }

  /** From an empty store no run, stale updates and day moves included, ever stores two overlapping lessons. */
  lemma NeverOverlapping(ops: seq<Op>, a: Uuid, b: Uuid)
    requires var store := Run(State(map[], map[]), ops).store; a in store && b in store && a != b
    ensures var store := Run(State(map[], map[]), ops).store;
            && store[a].Valid() && store[b].Valid()
            && (store[a].classroom == store[b].classroom && store[a].day == store[b].day ==>
                  forall m :: !(store[a].Contains(m) && store[b].Contains(m)))
  {
    RunKeepsTimetable(State(map[], map[]), ops);
    var store := Run(State(map[], map[]), ops).store;
    OverlapsIffSharesMinute(store[a], store[b]);
    assert !Clash(store[a], store[b]);
  }
}

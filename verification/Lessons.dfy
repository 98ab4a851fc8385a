/** Weekly lessons and the atomic contract of the lesson repository. */
module Lessons {
  import opened Wrappers

  type Uuid = nat

  const MONDAY := 1
  const FRIDAY := 5
  const SUNDAY := 7
  const MINUTES_PER_DAY := 1440

  datatype Lesson = Lesson(
    id: Uuid,
    classroom: Uuid,
    subject: string,
    teacher: Option<Uuid>,
    day: int,
    startsAt: int,
    endsAt: int,
    notes: string)
  {
    /** The service's check before every write. */
    predicate Valid() {
      && MONDAY <= day <= SUNDAY
      && 0 <= startsAt < MINUTES_PER_DAY && 0 <= endsAt < MINUTES_PER_DAY
      && startsAt < endsAt
    }

    predicate Overlaps(other: Lesson) {
      day == other.day && startsAt < other.endsAt && other.startsAt < endsAt
    }

    predicate Contains(minute: int) {
      startsAt <= minute < endsAt
    }
  }

  /** Overlap means what it should: some minute belongs to both. */
  lemma OverlapsIffSharesMinute(a: Lesson, b: Lesson)
    requires a.Valid() && b.Valid()
    ensures a.Overlaps(b) <==> a.day == b.day && exists m :: a.Contains(m) && b.Contains(m)
    ensures a.Overlaps(b) <==> b.Overlaps(a)
  {
    if a.Overlaps(b) {
      var m := if a.startsAt < b.startsAt then b.startsAt else a.startsAt;
      assert a.Contains(m) && b.Contains(m);
    }
  }

  type Store = map<Uuid, Lesson>

  datatype RepoError = NotFound | Conflict

  /** Two lessons that must not both be stored. */
  predicate Clash(a: Lesson, b: Lesson) {
    a.classroom == b.classroom && a.Overlaps(b)
  }

  predicate ClashesWith(store: Store, l: Lesson, exclude: set<Uuid>) {
    exists id | id in store :: id !in exclude && Clash(store[id], l)
  }

  /** Some stored lesson of the same classroom and day, other than the excluded, shares a minute with this one. */
  ghost predicate SharesAMinute(store: Store, l: Lesson, exclude: set<Uuid>) {
    exists id ::
      && id in store && id !in exclude
      && store[id].classroom == l.classroom && store[id].day == l.day
      && exists m :: store[id].Contains(m) && l.Contains(m)
  }

  lemma ClashesIffSharesAMinute(store: Store, l: Lesson, exclude: set<Uuid>)
    requires l.startsAt < l.endsAt && forall id :: id in store ==> store[id].startsAt < store[id].endsAt
    ensures ClashesWith(store, l, exclude) <==> SharesAMinute(store, l, exclude)
  {
    if ClashesWith(store, l, exclude) {
      var id :| id in store && id !in exclude && Clash(store[id], l);
      var m := if store[id].startsAt < l.startsAt then l.startsAt else store[id].startsAt;
      assert store[id].Contains(m) && l.Contains(m);
    }
  }

  function CreateIfNoOverlap(store: Store, l: Lesson): (Store, Result<(), RepoError>) {
    if ClashesWith(store, l, {}) then (store, Err(Conflict)) else (store[l.id := l], Ok(()))
  }

  function UpdateIfNoOverlap(store: Store, l: Lesson): (Store, Result<(), RepoError>) {
    if l.id !in store then (store, Err(NotFound))
    else if ClashesWith(store, l, {l.id}) then (store, Err(Conflict))
    else (store[l.id := l], Ok(()))
  }

  function Delete(store: Store, id: Uuid): (Store, Result<(), RepoError>) {
    if id !in store then (store, Err(NotFound)) else (store - {id}, Ok(()))
  }

  /** What every repository state satisfies. */
  ghost predicate Timetable(store: Store) {
    && (forall id :: id in store ==> store[id].id == id && store[id].Valid())
    && (forall a, b :: a in store && b in store && a != b ==> !Clash(store[a], store[b]))
  }

  lemma CreateKeepsTimetable(store: Store, l: Lesson)
    requires Timetable(store) && l.Valid()
    ensures Timetable(CreateIfNoOverlap(store, l).0)
  {
  }

  lemma UpdateKeepsTimetable(store: Store, l: Lesson)
    requires Timetable(store) && l.Valid()
    ensures Timetable(UpdateIfNoOverlap(store, l).0)
  {
  }

  // ------------------------------------------------------------ lists

  /** Day first, then start: the order both list queries ask for. */
  predicate NotAfter(a: Lesson, b: Lesson) {
    a.day < b.day || (a.day == b.day && a.startsAt <= b.startsAt)
  }

  ghost predicate Sorted(ls: seq<Lesson>) {
    forall i, k :: 0 <= i < k < |ls| ==> NotAfter(ls[i], ls[k])
  }

  lemma RestSorted(ls: seq<Lesson>)
    requires Sorted(ls) && ls != []
    ensures Sorted(ls[1..])
    ensures forall l :: l in ls[1..] ==> l in ls && NotAfter(ls[0], l)
  {
    forall l | l in ls[1..] ensures l in ls && NotAfter(ls[0], l) {
      var i :| 0 <= i < |ls[1..]| && ls[1..][i] == l;
      assert ls[i + 1] == l;
    }
  }

  function Insert(ls: seq<Lesson>, l: Lesson): seq<Lesson> {
    if ls == [] || NotAfter(l, ls[0]) then [l] + ls else [ls[0]] + Insert(ls[1..], l)
  }

  lemma {:induction false} InsertSorts(ls: seq<Lesson>, l: Lesson)
    requires Sorted(ls)
    ensures Sorted(Insert(ls, l))
    ensures multiset(Insert(ls, l)) == multiset(ls) + multiset{l}
    decreases |ls|
  {
    if ls == [] || NotAfter(l, ls[0]) {
    } else {
      RestSorted(ls);
      InsertSorts(ls[1..], l);
      var rest := Insert(ls[1..], l);
      assert ls == [ls[0]] + ls[1..];
      forall x | x in rest ensures NotAfter(ls[0], x) {
        assert x in multiset(rest);
      }
      ConsSorted(ls[0], rest);
    }
  }

  lemma ConsSorted(l: Lesson, rest: seq<Lesson>)
    requires Sorted(rest) && forall x :: x in rest ==> NotAfter(l, x)
    ensures Sorted([l] + rest)
  {
    var all := [l] + rest;
    forall i, k | 0 <= i < k < |all| ensures NotAfter(all[i], all[k]) {
      assert all[k] == rest[k - 1] && (i > 0 ==> all[i] == rest[i - 1]);
    }
  }

  function Total(ls: seq<Lesson>): int {
    if ls == [] then 0 else ls[0].endsAt - ls[0].startsAt + Total(ls[1..])
  }

  /** Lessons of one day that do not overlap fit end to end into the time they span. */
  lemma {:induction false} DisjointTotal(ls: seq<Lesson>)
    requires ls != [] && Sorted(ls)
    requires forall i :: 0 <= i < |ls| ==> ls[i].Valid() && ls[i].day == ls[0].day
    requires forall i, k :: 0 <= i < k < |ls| ==> !ls[i].Overlaps(ls[k])
    ensures ls[0].startsAt + Total(ls) <= ls[|ls| - 1].endsAt
    decreases |ls|
  {
    if |ls| == 1 {
      assert ls[1..] == [];
    } else {
      assert !ls[0].Overlaps(ls[1]) && NotAfter(ls[0], ls[1]);
      assert forall i :: 0 <= i < |ls[1..]| ==> ls[1..][i] == ls[i + 1];
      DisjointTotal(ls[1..]);
    }
  }
}

/** The in-memory lesson repository: each method is one critical section. */
module LessonRepo {
  import opened Wrappers
  import opened Lessons

  class MemRepo {
    /** Stored lessons are private copies, replaced as a whole and never written in place. */
    var byID: Store

    constructor ()
      ensures byID == map[]
    {
      byID := map[];
    }

    method FindClash(l: Lesson, exclude: set<Uuid>) returns (clash: bool)
      ensures clash <==> ClashesWith(byID, l, exclude)
    {
      clash := false;
      var todo := byID.Keys;
      while todo != {}
        invariant todo <= byID.Keys
        invariant forall id :: id in byID.Keys - todo ==> id in exclude || !Clash(byID[id], l)
        decreases |todo|
      {
        var id :| id in todo;
        var e := byID[id];
        if id !in exclude && e.classroom == l.classroom && e.day == l.day && e.Overlaps(l) {
          return true;
        }
        todo := todo - {id};
      }
    }

    method CreateIfNoOverlap(l: Lesson) returns (r: Result<(), RepoError>)
      modifies this
      ensures (byID, r) == Lessons.CreateIfNoOverlap(old(byID), l)
    {
      var clash := FindClash(l, {});
      if clash {
        return Err(Conflict);
      }
      byID := byID[l.id := l];
      r := Ok(());
    }

    method UpdateIfNoOverlap(l: Lesson) returns (r: Result<(), RepoError>)
      modifies this
      ensures (byID, r) == Lessons.UpdateIfNoOverlap(old(byID), l)
    {
      if l.id !in byID {
        return Err(NotFound);
      }
      var clash := FindClash(l, {l.id});
      if clash {
        return Err(Conflict);
      }
      byID := byID[l.id := l];
      r := Ok(());
    }

    method GetByID(id: Uuid) returns (r: Result<Lesson, RepoError>)
      ensures r == if id in byID then Ok(byID[id]) else Err(NotFound)
    {
      if id !in byID {
        return Err(NotFound);
      }
      r := Ok(byID[id]);
    }

    method Delete(id: Uuid) returns (r: Result<(), RepoError>)
      modifies this
      ensures (byID, r) == Lessons.Delete(old(byID), id)
    {
      if id !in byID {
        return Err(NotFound);
      }
      byID := byID - {id};
      r := Ok(());
    }

    /** Exactly the matching lessons, each once, in day and start order; `day` None means the whole week. */
    method List(classroom: Uuid, day: Option<int>) returns (out: seq<Lesson>)
      requires forall id :: id in byID ==> byID[id].id == id
      ensures Listed(byID, classroom, day, out)
    {
      out := [];
      var todo := byID.Keys;
      ghost var seen: Store := map[];
      while todo != {}
        invariant todo <= byID.Keys
        invariant forall id :: id in seen <==> id in byID && id !in todo
        invariant forall id :: id in seen ==> seen[id] == byID[id]
        invariant Listed(seen, classroom, day, out)
        decreases |todo|
      {
        var id :| id in todo;
        var l := byID[id];
        if Matches(l, classroom, day) {
          ListedMore(seen, classroom, day, out, l);
          out := Insert(out, l);
        } else {
          ListedSkip(seen, classroom, day, out, l);
        }
        seen := seen[id := l];
        todo := todo - {id};
      }
      assert seen == byID;
    }
  }

  predicate Matches(l: Lesson, classroom: Uuid, day: Option<int>) {
    l.classroom == classroom && (day == None || day == Some(l.day))
  }

  /** The list answers the query: sorted, nothing but matches, and every match exactly once. */
  ghost predicate Listed(store: Store, classroom: Uuid, day: Option<int>, out: seq<Lesson>) {
    && Sorted(out)
    && (forall l :: l in out ==> l.id in store && store[l.id] == l && Matches(l, classroom, day))
    && (forall id :: id in store && Matches(store[id], classroom, day) ==> multiset(out)[store[id]] == 1)
  }

  lemma ListedMore(seen: Store, classroom: Uuid, day: Option<int>, out: seq<Lesson>, l: Lesson)
    requires Listed(seen, classroom, day, out) && l.id !in seen && Matches(l, classroom, day)
    ensures Listed(seen[l.id := l], classroom, day, Insert(out, l))
  {
    InsertSorts(out, l);
    var all, store := Insert(out, l), seen[l.id := l];
    forall x | x in all ensures x.id in store && store[x.id] == x && Matches(x, classroom, day) {
      assert x in multiset(all);
    }
    forall id | id in store && Matches(store[id], classroom, day) ensures multiset(all)[store[id]] == 1 {
      assert id == l.id ==> l !in out;
    }
  }

  lemma ListedSkip(seen: Store, classroom: Uuid, day: Option<int>, out: seq<Lesson>, l: Lesson)
    requires Listed(seen, classroom, day, out) && l.id !in seen && !Matches(l, classroom, day)
    ensures Listed(seen[l.id := l], classroom, day, out)
  {
    var store := seen[l.id := l];
    forall id | id in store && Matches(store[id], classroom, day) ensures multiset(out)[store[id]] == 1 {
      assert id in seen;
    }
  }

  lemma Twins(out: seq<Lesson>, i: nat, k: nat)
    requires i < k < |out|
    ensures out[i] == out[k] ==> multiset(out)[out[k]] >= 2
  {
    assert out == out[..k] + [out[k]] + out[k + 1..];
    assert out[i] in out[..k];
  }

  /** Two places of a list hold two different lessons. */
  lemma ListedApart(store: Store, classroom: Uuid, day: Option<int>, out: seq<Lesson>, i: nat, k: nat)
    requires Listed(store, classroom, day, out) && i < k < |out|
    ensures out[i].id != out[k].id
  {
    Twins(out, i, k);
    assert out[i] in out && out[k] in out;
  }
}

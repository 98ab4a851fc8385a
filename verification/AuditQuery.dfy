/**
 The audit log's SQL builders. A statement is its placeholders and conditions, not its text; its meaning is what
 it does with the arguments. The builders must mean the batch, or the query, they were given.
 */
module AuditQuery {
  import opened Wrappers
  import opened AuditEntry
  import opened Batches

  const COLUMNS: nat := 6
  const ZERO_TIME := 0

  /** An SQL value; a column without one is Null. */
  datatype Value = Null | Id(id: Uuid) | Text(text: string) | Json(bytes: string) | Time(at: int) | Int(n: int)

  type Metadata = map<string, string>

  /** JSON, as far as the log relies on it. */
  datatype Codec = Codec(marshal: Metadata -> Option<string>, unmarshal: string -> Metadata)

  ghost predicate RoundTrips(codec: Codec) {
    forall m :: codec.marshal(m).Some? ==> codec.unmarshal(codec.marshal(m).value) == m
  }

  function IdOrNull(id: Option<Uuid>): Value {
    match id
    case None => Null
    case Some(v) => Id(v)
  }

  function OptionalId(v: Value): Option<Uuid> {
    match v
    case Id(id) => Some(id)
    case _ => None
  }

  // ------------------------------------------------------------ insert

  /** The creation time is filled in when the caller left it zero. */
  function Stamped(e: Entry, now: int): Entry {
    if e.createdAt == ZERO_TIME then e.(createdAt := now) else e
  }

  /** `($1,$2,...),($7,...)`: for each row, which argument each column takes. */
  method BuildInsertSQL(n: nat) returns (rows: seq<seq<nat>>)
    ensures |rows| == n
    ensures forall i :: 0 <= i < n ==> |rows[i]| == COLUMNS
    ensures forall i, j :: 0 <= i < n && 0 <= j < COLUMNS ==> rows[i][j] == COLUMNS * i + j + 1
  {
    rows := [];
    for i := 0 to n
      invariant |rows| == i
      invariant forall k :: 0 <= k < i ==> |rows[k]| == COLUMNS
      invariant forall k, j :: 0 <= k < i && 0 <= j < COLUMNS ==> rows[k][j] == COLUMNS * k + j + 1
    {
      var base := i * COLUMNS;
      rows := rows + [[base + 1, base + 2, base + 3, base + 4, base + 5, base + 6]];
    }
  }

  ghost predicate RowArgs(args: seq<Value>, at: nat, e: Entry, meta: Option<string>) {
    && at + COLUMNS <= |args| && meta.Some?
    && args[at] == IdOrNull(e.actor) && args[at + 1] == Text(e.entityType) && args[at + 2] == IdOrNull(e.entityId)
    && args[at + 3] == Text(e.action) && args[at + 4] == Json(meta.value) && args[at + 5] == Time(e.createdAt)
  }

  /** `nows` are the clock readings, one per entry. */
  method BuildInsertArgs(entries: seq<Entry>, nows: seq<int>, codec: Codec) returns (r: Option<seq<Value>>)
    requires |nows| == |entries|
    ensures r.None? <==> exists i :: 0 <= i < |entries| && codec.marshal(entries[i].metadata).None?
    ensures r.Some? ==> |r.value| == COLUMNS * |entries|
    ensures r.Some? ==> forall i :: 0 <= i < |entries| ==>
              RowArgs(r.value, COLUMNS * i, Stamped(entries[i], nows[i]), codec.marshal(entries[i].metadata))
  {
    var args := [];
    for i := 0 to |entries|
      invariant |args| == COLUMNS * i
      invariant forall k :: 0 <= k < i ==>
                  RowArgs(args, COLUMNS * k, Stamped(entries[k], nows[k]), codec.marshal(entries[k].metadata))
    {
      var e := entries[i];
      if e.createdAt == ZERO_TIME {
        e := e.(createdAt := nows[i]);
      }
      var meta := codec.marshal(e.metadata);
      if meta.None? {
        return None;
      }
      args := args + [IdOrNull(e.actor), Text(e.entityType), IdOrNull(e.entityId), Text(e.action),
                      Json(meta.value), Time(e.createdAt)];
    }
    r := Some(args);
  }

  /** What the database stores for one row of placeholders, in the order of the column list. */
  function Decoded(row: seq<nat>, args: seq<Value>, codec: Codec): Option<Entry> {
    if |row| != COLUMNS || exists j :: 0 <= j < COLUMNS && !(1 <= row[j] <= |args|) then None
    else
      var v := seq(COLUMNS, j requires 0 <= j < COLUMNS => args[row[j] - 1]);
      if v[1].Text? && v[3].Text? && v[4].Json? && v[5].Time?
      then Some(Entry(OptionalId(v[0]), v[1].text, OptionalId(v[2]), v[3].text, codec.unmarshal(v[4].bytes), v[5].at))
      else None
  }

  class Table {
    var log: seq<Entry>

    constructor ()
      ensures log == []
    {
      log := [];
    }

    /** One statement: every row of it or, when it does not fit its arguments or the database fails, none. */
    method Exec(rows: seq<seq<nat>>, args: seq<Value>, codec: Codec, works: bool) returns (ok: bool)
      modifies this
      ensures ok <==> works && forall i :: 0 <= i < |rows| ==> Decoded(rows[i], args, codec).Some?
      ensures !ok ==> log == old(log)
      ensures ok ==> |log| == |old(log)| + |rows| && old(log) <= log
      ensures ok ==> forall i :: 0 <= i < |rows| ==> Some(log[|old(log)| + i]) == Decoded(rows[i], args, codec)
    {
      var added := [];
      for i := 0 to |rows|
        invariant |added| == i
        invariant forall k :: 0 <= k < i ==> Some(added[k]) == Decoded(rows[k], args, codec)
      {
        var e := Decoded(rows[i], args, codec);
        if e.None? {
          return false;
        }
        added := added + [e.value];
      }
      ok := works;
      if works {
        log := log + added;
      }
    }

    /**
     The batch is appended as it is, in order and stamped, or nothing happens, because its JSON or the statement
     failed; an empty batch never reaches the database.
     */
    method Insert(entries: seq<Entry>, nows: seq<int>, codec: Codec, works: bool) returns (ok: bool)
      requires |nows| == |entries| && RoundTrips(codec)
      modifies this
      ensures ok <==> entries == []
                      || (works && forall i :: 0 <= i < |entries| ==> codec.marshal(entries[i].metadata).Some?)
      ensures !ok ==> log == old(log)
      ensures ok ==> log == old(log) + StampedAll(entries, nows)
      ensures ok ==> |log| == |old(log)| + |entries| && log[..|old(log)|] == old(log)
      ensures ok ==> forall i :: 0 <= i < |entries| ==>
                var e, stored := entries[i], log[|old(log)| + i];
                && stored.actor == e.actor && stored.entityType == e.entityType && stored.entityId == e.entityId
                && stored.action == e.action && stored.metadata == e.metadata
                && stored.createdAt == if e.createdAt == 0 then nows[i] else e.createdAt
    {
      if entries == [] {
        return true;
      }
      var args := BuildInsertArgs(entries, nows, codec);
      if args.None? {
        return false;
      }
      var rows := BuildInsertSQL(|entries|);
      forall i | 0 <= i < |entries| ensures Decoded(rows[i], args.value, codec) == Some(Stamped(entries[i], nows[i])) {
        RowDecodes(rows[i], args.value, i, Stamped(entries[i], nows[i]), codec);
      }
      ok := Exec(rows, args.value, codec, works);
      if ok {
        assert log == old(log) + StampedAll(entries, nows);
      }
    }
  }

  function StampedAll(entries: seq<Entry>, nows: seq<int>): (es: seq<Entry>)
    requires |nows| == |entries|
    ensures |es| == |entries| && forall i :: 0 <= i < |es| ==> es[i] == Stamped(entries[i], nows[i])
  {
    seq(|entries|, i requires 0 <= i < |entries| => Stamped(entries[i], nows[i]))
  }

  lemma RowDecodes(row: seq<nat>, args: seq<Value>, i: nat, e: Entry, codec: Codec)
    requires |row| == COLUMNS && forall j :: 0 <= j < COLUMNS ==> row[j] == COLUMNS * i + j + 1
    requires RowArgs(args, COLUMNS * i, e, codec.marshal(e.metadata)) && RoundTrips(codec)
    ensures Decoded(row, args, codec) == Some(e)
  {
  }

  /** Read in order, the placeholders are $1, $2, ... up to six per row: none missing, none twice. */
  lemma {:induction false} PlaceholdersCount(rows: seq<seq<nat>>)
    requires forall i :: 0 <= i < |rows| ==> |rows[i]| == COLUMNS
    requires forall i, j :: 0 <= i < |rows| && 0 <= j < COLUMNS ==> rows[i][j] == COLUMNS * i + j + 1
    ensures |Flat(rows)| == COLUMNS * |rows|
    ensures forall k :: 0 <= k < |Flat(rows)| ==> Flat(rows)[k] == k + 1
    decreases |rows|
  {
    if rows != [] {
      PlaceholdersCount(rows[..|rows| - 1]);
    }
  }

  // ------------------------------------------------------------ list

  datatype Query = Query(actor: Option<Uuid>, entityType: string, entityId: Option<Uuid>, action: string,
    from: Option<int>, to: Option<int>, limit: int, offset: int)

  datatype Column = ActorId | EntityType | EntityId | ActionName | CreatedAt

  datatype Op = Equal | AtLeast | AtMost

  /** `AND column op $ph` */
  datatype Cond = Cond(column: Column, op: Op, ph: nat)

  datatype Select = Select(conds: seq<Cond>, limit: nat, offset: Option<nat>)

  function Cell(e: Entry, column: Column): Value {
    match column
    case ActorId => IdOrNull(e.actor)
    case EntityType => Text(e.entityType)
    case EntityId => IdOrNull(e.entityId)
    case ActionName => Text(e.action)
    case CreatedAt => Time(e.createdAt)
  }

  /** SQL comparison: nothing is true of Null. */
  predicate Compare(op: Op, a: Value, b: Value) {
    match op
    case Equal => a != Null && a == b
    case AtLeast => a.Time? && b.Time? && a.at >= b.at
    case AtMost => a.Time? && b.Time? && a.at <= b.at
  }

  predicate Holds(c: Cond, args: seq<Value>, e: Entry) {
    1 <= c.ph <= |args| && Compare(c.op, Cell(e, c.column), args[c.ph - 1])
  }

  predicate Meets(conds: seq<Cond>, args: seq<Value>, e: Entry) {
    forall i :: 0 <= i < |conds| ==> Holds(conds[i], args, e)
  }

  /** What each field of the query asks of an entry; a field left empty asks nothing. */
  predicate Asks(q: Query, field: nat, e: Entry) {
    match field
    case 0 => q.actor.Some? ==> e.actor == q.actor
    case 1 => q.entityType != "" ==> e.entityType == q.entityType
    case 2 => q.entityId.Some? ==> e.entityId == q.entityId
    case 3 => q.action != "" ==> e.action == q.action
    case 4 => q.from.Some? ==> q.from.value <= e.createdAt
    case 5 => q.to.Some? ==> e.createdAt <= q.to.value
    case _ => true
  }

  predicate Describes(q: Query, e: Entry) {
    forall field :: 0 <= field < 6 ==> Asks(q, field, e)
  }

  lemma DescribesMeans(q: Query)
    ensures forall e :: Describes(q, e) <==>
              && (q.actor.Some? ==> e.actor == q.actor)
              && (q.entityType != "" ==> e.entityType == q.entityType)
              && (q.entityId.Some? ==> e.entityId == q.entityId)
              && (q.action != "" ==> e.action == q.action)
              && (q.from.Some? ==> q.from.value <= e.createdAt)
              && (q.to.Some? ==> e.createdAt <= q.to.value)
  {
    forall e ensures Describes(q, e) <==> Asks(q, 0, e) && Asks(q, 1, e) && Asks(q, 2, e) && Asks(q, 3, e)
                                          && Asks(q, 4, e) && Asks(q, 5, e) {
    }
  }

  /** The conditions so far use the arguments so far, one each and in order, and mean the query's first fields. */
  ghost predicate Built(q: Query, fields: nat, conds: seq<Cond>, args: seq<Value>) {
    && |conds| == |args|
    && (forall i :: 0 <= i < |conds| ==> conds[i].ph == i + 1)
    && (forall e :: Meets(conds, args, e) <==> forall field :: 0 <= field < fields ==> Asks(q, field, e))
  }

  predicate Given(q: Query, field: nat) {
    match field
    case 0 => q.actor.Some?
    case 1 => q.entityType != ""
    case 2 => q.entityId.Some?
    case 3 => q.action != ""
    case 4 => q.from.Some?
    case 5 => q.to.Some?
    case _ => false
  }

  lemma BuiltSkip(q: Query, fields: nat, conds: seq<Cond>, args: seq<Value>)
    requires Built(q, fields, conds, args) && !Given(q, fields)
    ensures Built(q, fields + 1, conds, args)
  {
    assert forall e :: Asks(q, fields, e);
  }

  /** The comparison says what the field asks. */
  ghost predicate Says(q: Query, field: nat, column: Column, op: Op, v: Value) {
    forall e :: Compare(op, Cell(e, column), v) <==> Asks(q, field, e)
  }

  lemma BuiltMore(q: Query, fields: nat, conds: seq<Cond>, args: seq<Value>, column: Column, op: Op, v: Value)
    requires Built(q, fields, conds, args)
    requires Says(q, fields, column, op, v)
    ensures Built(q, fields + 1, conds + [Cond(column, op, |args| + 1)], args + [v])
  {
    var conds', args' := conds + [Cond(column, op, |args| + 1)], args + [v];
    forall e ensures Meets(conds', args', e) <==> Meets(conds, args, e) && Asks(q, fields, e) {
      assert forall i :: 0 <= i < |conds| ==> conds'[i] == conds[i] && (Holds(conds'[i], args', e) <==> Holds(conds[i], args, e));
      assert Holds(conds'[|conds|], args', e) <==> Asks(q, fields, e);
    }
  }

  /** `conds` and `args` with one more condition, on a new last argument. */
  method And(ghost q: Query, ghost fields: nat, conds: seq<Cond>, args: seq<Value>, column: Column, op: Op, v: Value)
    returns (conds': seq<Cond>, args': seq<Value>)
    requires Built(q, fields, conds, args)
    requires Says(q, fields, column, op, v)
    ensures Built(q, fields + 1, conds', args')
  {
    BuiltMore(q, fields, conds, args, column, op, v);
    args' := args + [v];
    conds' := conds + [Cond(column, op, |args'|)];
  }

  method WhereWho(q: Query) returns (conds: seq<Cond>, args: seq<Value>)
    ensures Built(q, 3, conds, args)
  {
    conds, args := [], [];
    if q.actor.Some? {
      conds, args := And(q, 0, conds, args, ActorId, Equal, Id(q.actor.value));
    } else {
      BuiltSkip(q, 0, conds, args);
    }
    if q.entityType != "" {
      conds, args := And(q, 1, conds, args, EntityType, Equal, Text(q.entityType));
    } else {
      BuiltSkip(q, 1, conds, args);
    }
    if q.entityId.Some? {
      conds, args := And(q, 2, conds, args, EntityId, Equal, Id(q.entityId.value));
    } else {
      BuiltSkip(q, 2, conds, args);
    }
  }

  method WhereWhat(q: Query, conds0: seq<Cond>, args0: seq<Value>) returns (conds: seq<Cond>, args: seq<Value>)
    requires Built(q, 3, conds0, args0)
    ensures Built(q, 6, conds, args)
  {
    conds, args := conds0, args0;
    if q.action != "" {
      conds, args := And(q, 3, conds, args, ActionName, Equal, Text(q.action));
    } else {
      BuiltSkip(q, 3, conds, args);
    }
    if q.from.Some? {
      conds, args := And(q, 4, conds, args, CreatedAt, AtLeast, Time(q.from.value));
    } else {
      BuiltSkip(q, 4, conds, args);
    }
    if q.to.Some? {
      conds, args := And(q, 5, conds, args, CreatedAt, AtMost, Time(q.to.value));
    } else {
      BuiltSkip(q, 5, conds, args);
    }
  }

  /** The statement means the query: the same entries, the same page; every argument is used exactly once. */
  method BuildList(q: Query) returns (stmt: Select, args: seq<Value>)
    ensures forall e :: Meets(stmt.conds, args, e) <==> Describes(q, e)
    ensures forall e :: Meets(stmt.conds, args, e) <==>
              && (q.actor.Some? ==> e.actor == q.actor)
              && (q.entityType != "" ==> e.entityType == q.entityType)
              && (q.entityId.Some? ==> e.entityId == q.entityId)
              && (q.action != "" ==> e.action == q.action)
              && (q.from.Some? ==> q.from.value <= e.createdAt)
              && (q.to.Some? ==> e.createdAt <= q.to.value)
    ensures forall i :: 0 <= i < |stmt.conds| ==> stmt.conds[i].ph == i + 1
    ensures stmt.limit == |stmt.conds| + 1 <= |args| && args[stmt.limit - 1] == Int(if 1 <= q.limit <= 1000 then q.limit else 100)
    ensures stmt.offset.Some? <==> q.offset > 0
    ensures stmt.offset.Some? ==> stmt.offset.value == stmt.limit + 1 == |args| && args[stmt.limit] == Int(q.offset)
    ensures stmt.offset.None? ==> stmt.limit == |args|
  {
    var conds;
    conds, args := WhereWho(q);
    conds, args := WhereWhat(q, conds, args);
    ghost var before := args;
    var limit := q.limit;
    if limit <= 0 || limit > 1000 {
      limit := 100;
    }
    args := args + [Int(limit)];
    var limitPh, offsetPh := |args|, None;
    if q.offset > 0 {
      args := args + [Int(q.offset)];
      offsetPh := Some(|args|);
    }
    MeetsPrefix(conds, before, args);
    DescribesMeans(q);
    stmt := Select(conds, limitPh, offsetPh);
  }

  lemma MeetsPrefix(conds: seq<Cond>, args: seq<Value>, more: seq<Value>)
    requires args <= more && forall i :: 0 <= i < |conds| ==> 1 <= conds[i].ph <= |args|
    ensures forall e :: Meets(conds, more, e) <==> Meets(conds, args, e)
  {
    forall e ensures Meets(conds, more, e) <==> Meets(conds, args, e) {
      assert forall i :: 0 <= i < |conds| ==> (Holds(conds[i], more, e) <==> Holds(conds[i], args, e));
    }
  }

  /** Newest first. */
  ghost predicate Newest(es: seq<Entry>) {
    forall i, k :: 0 <= i < k < |es| ==> es[i].createdAt >= es[k].createdAt
  }

  function Page(es: seq<Entry>, limit: int, offset: int): seq<Entry> {
    var rest := if offset <= 0 then es else if offset >= |es| then [] else es[offset..];
    if limit <= 0 then [] else if limit >= |rest| then rest else rest[..limit]
  }

  /** `out` is a result the database may give: ties in time come in any order. */
  ghost predicate Selected(stmt: Select, args: seq<Value>, table: multiset<Entry>, out: seq<Entry>) {
    && 1 <= stmt.limit <= |args| && args[stmt.limit - 1].Int?
    && (stmt.offset.Some? ==> 1 <= stmt.offset.value <= |args| && args[stmt.offset.value - 1].Int?)
    && exists all ::
         && (forall e :: multiset(all)[e] == if Meets(stmt.conds, args, e) then table[e] else 0)
         && Newest(all)
         && out == Page(all, args[stmt.limit - 1].n, if stmt.offset.Some? then args[stmt.offset.value - 1].n else 0)
  }

  /** `out` is an answer to the query: a page of exactly the entries it describes, newest first. */
  ghost predicate Answers(q: Query, table: multiset<Entry>, out: seq<Entry>) {
    exists all ::
      && (forall e :: multiset(all)[e] == if Describes(q, e) then table[e] else 0)
      && Newest(all)
      && out == Page(all, if 1 <= q.limit <= 1000 then q.limit else 100, q.offset)
  }

  /** Where a page starts and how far it goes. */
  lemma PageWindow(es: seq<Entry>, limit: nat, offset: int, i: nat)
    ensures var from := if offset <= 0 then 0 else offset;
            var out := Page(es, limit, offset);
            && (i < |out| <==> i < limit && from + i < |es|)
            && (i < |out| ==> out[i] == es[from + i])
  {
  }

  /**
   What an answer is to whoever asked: at most a thousand entries, newest first, each of them described by the
   query and in the table as often as in the answer; and on the first page a described entry is missing only when
   the page is full and nothing on it is older.
   */
  lemma AnswersAreNewest(q: Query, table: multiset<Entry>, out: seq<Entry>, e: Entry)
    requires Answers(q, table, out)
    ensures |out| <= 1000 && forall i, k :: 0 <= i < k < |out| ==> out[i].createdAt >= out[k].createdAt
    ensures multiset(out)[e] <= if Describes(q, e) then table[e] else 0
    ensures q.offset <= 0 && Describes(q, e) && multiset(out)[e] < table[e] ==>
              && |out| == (if 1 <= q.limit <= 1000 then q.limit else 100)
              && forall i :: 0 <= i < |out| ==> out[i].createdAt >= e.createdAt
  {
    hide Page, Describes;
    var limit := if 1 <= q.limit <= 1000 then q.limit else 100;
    var all :|
      && (forall d :: multiset(all)[d] == if Describes(q, d) then table[d] else 0)
      && Newest(all)
      && out == Page(all, limit, q.offset);
    var from := PageStart(all, q.offset);
    PageIsSlice(all, limit, q.offset);
    SliceOf(all, from, out, e);
  }

  function PageStart(es: seq<Entry>, offset: int): (from: nat)
    ensures from <= |es|
  {
    if offset <= 0 then 0 else if offset >= |es| then |es| else offset
  }

  lemma PageIsSlice(es: seq<Entry>, limit: nat, offset: int)
    ensures var out, from := Page(es, limit, offset), PageStart(es, offset);
            && |out| <= limit && from + |out| <= |es| && out == es[from..from + |out|]
            && (|out| < limit ==> from + |out| == |es|)
  {
  }

  /** A slice of a sorted list is sorted; what is left out behind it is no newer than anything in it. */
  lemma SliceOf(all: seq<Entry>, from: nat, out: seq<Entry>, e: Entry)
    requires Newest(all) && from + |out| <= |all| && out == all[from..from + |out|]
    ensures Newest(out) && multiset(out)[e] <= multiset(all)[e]
    ensures from == 0 && multiset(out)[e] < multiset(all)[e] ==>
              |out| < |all| && forall i :: 0 <= i < |out| ==> out[i].createdAt >= e.createdAt
  {
    var rest := all[from + |out|..];
    assert all == all[..from] + out + rest;
    forall i, k | 0 <= i < k < |out| ensures out[i].createdAt >= out[k].createdAt {
      assert out[i] == all[from + i] && out[k] == all[from + k];
    }
    if from == 0 {
      BehindIsOlder(all, out, rest, e);
    }
  }

  lemma BehindIsOlder(all: seq<Entry>, out: seq<Entry>, rest: seq<Entry>, e: Entry)
    requires Newest(all) && all == out + rest
    ensures multiset(out)[e] < multiset(all)[e] ==>
              |out| < |all| && forall i :: 0 <= i < |out| ==> out[i].createdAt >= e.createdAt
  {
    if multiset(out)[e] < multiset(all)[e] {
      assert e in multiset(rest);
      var j :| 0 <= j < |rest| && rest[j] == e;
      forall i | 0 <= i < |out| ensures out[i].createdAt >= e.createdAt {
        assert all[i] == out[i] && all[|out| + j] == e;
      }
    }
  }

  lemma SelectedIffAnswers(q: Query, stmt: Select, args: seq<Value>, table: multiset<Entry>, out: seq<Entry>)
    requires forall e :: Meets(stmt.conds, args, e) <==> Describes(q, e)
    requires 1 <= stmt.limit <= |args| && args[stmt.limit - 1] == Int(if 1 <= q.limit <= 1000 then q.limit else 100)
    requires stmt.offset.Some? <==> q.offset > 0
    requires stmt.offset.Some? ==> 1 <= stmt.offset.value <= |args| && args[stmt.offset.value - 1] == Int(q.offset)
    ensures Selected(stmt, args, table, out) <==> Answers(q, table, out)
  {
    hide Meets, Describes, Newest;
  }

  /** Whatever the table holds, the built statement's results are exactly the query's answers. */
  method List(q: Query) returns (stmt: Select, args: seq<Value>)
    ensures forall table, out :: Selected(stmt, args, table, out) <==> Answers(q, table, out)
  {
    stmt, args := BuildList(q);
    forall table, out ensures Selected(stmt, args, table, out) <==> Answers(q, table, out) {
      SelectedIffAnswers(q, stmt, args, table, out);
    }
  }
}

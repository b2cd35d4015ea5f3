/** The mock production table (src/tools/context.py): rows keyed by id, read in id order. */
module Records {
  import opened Options

  datatype Record = Record(kind: string, payload: string)
  datatype Row = Row(id: int, kind: string, payload: string)
  /** A row handed to `insert_many`, which may leave its id to the table. */
  datatype NewRow = NewRow(id: Option<int>, kind: string, payload: string)
  datatype Table = Table(rows: map<int, Record>, nextId: int)

  /** `_next_id` is above every id in use. */
  ghost predicate FreshNextId(t: Table) {
    forall i | i in t.rows :: i < t.nextId
  }

  function Least(ids: set<int>): (m: int)
    requires ids != {}
    ensures m in ids && forall i | i in ids :: m <= i
  {
    LeastExists(ids);
    var m :| m in ids && forall i | i in ids :: m <= i;
    m
  }

  lemma Member<T>(s: set<T>) returns (x: T)
    requires s != {}
    ensures x in s
  {
    x :| x in s;
  }

  lemma {:induction false} LeastExists(ids: set<int>)
    requires ids != {}
    ensures exists m :: m in ids && forall i | i in ids :: m <= i
  {
    var x := Member(ids);
    var rest := ids - {x};
    if rest != {} {
      LeastExists(rest);
      var y :| y in rest && forall i | i in rest :: y <= i;
      var m := if x < y then x else y;
      assert forall i | i in ids :: i == x || i in rest;
      assert m in ids && forall i | i in ids :: m <= i;
    } else {
      assert forall i | i in ids :: i == x || i in rest;
      assert x in ids && forall i | i in ids :: x <= i;
    }
  }

  /** The ids in increasing order. */
  function Ascending(ids: set<int>): (s: seq<int>)
    ensures |s| == |ids|
    ensures forall i :: i in s <==> i in ids
    ensures forall k :: 0 <= k < |s| ==> s[k] in ids
  {
    if ids == {} then [] else var m := Least(ids); [m] + Ascending(ids - {m})
  }

  ghost predicate Increasing(s: seq<int>) {
    forall i, j :: 0 <= i < j < |s| ==> s[i] < s[j]
  }

  lemma {:induction false} AscendingIncreases(ids: set<int>)
    ensures Increasing(Ascending(ids))
  {
    if ids != {} {
      AscendingIncreases(ids - {Least(ids)});
    }
  }

  /** An increasing sequence is determined by its elements. */
  lemma {:induction false} IncreasingUnique(a: seq<int>, b: seq<int>)
    requires Increasing(a) && Increasing(b)
    requires forall i :: i in a <==> i in b
    ensures a == b
  {
    assert a != [] ==> a[0] in a;
    assert b != [] ==> b[0] in b;
    if a != [] && b != [] {
      assert a[0] == b[0];
      assert a == [a[0]] + a[1..] && b == [b[0]] + b[1..];
      forall i
        ensures i in a[1..] <==> i in b[1..]
      {
        assert i in a[1..] <==> i in a && i != a[0];
        assert i in b[1..] <==> i in b && i != b[0];
      }
      IncreasingUnique(a[1..], b[1..]);
    }
  }

  function Take<T>(s: seq<T>, limit: nat): seq<T> {
    if |s| <= limit then s else s[..limit]
  }

  // ---- Places in the order of ids. ----

  function Below(ids: set<int>, i: int): set<int> { set j | j in ids && j < i }

  function Elements(s: seq<int>): set<int> { set j | j in s }

  lemma ElementsSnoc(s: seq<int>, x: int)
    requires x !in s
    ensures |Elements(s + [x])| == |Elements(s)| + 1
  {
    assert Elements(s + [x]) == Elements(s) + {x};
  }

  lemma {:induction false} FrontSize(keys: seq<int>, p: nat)
    requires Increasing(keys) && p <= |keys|
    ensures |Elements(keys[..p])| == p
  {
    if p > 0 {
      FrontSize(keys, p - 1);
      ElementsSnoc(keys[..p - 1], keys[p - 1]);
      assert keys[..p] == keys[..p - 1] + [keys[p - 1]];
    }
  }

  lemma FrontIsBelow(keys: seq<int>, p: nat, j: int)
    requires Increasing(keys) && p < |keys|
    ensures j in keys[..p] <==> j in keys && j < keys[p]
  {
    if j in keys {
      var q :| 0 <= q < |keys| && keys[q] == j;
      assert q < p ==> keys[..p][q] == j;
    }
  }

  /** An id's place is the number of ids below it. */
  lemma PlaceIsRank(ids: set<int>, p: nat)
    requires p < |Ascending(ids)|
    ensures |Below(ids, Ascending(ids)[p])| == p
  {
    var keys := Ascending(ids);
    AscendingIncreases(ids);
    FrontSize(keys, p);
    forall j
      ensures j in Below(ids, keys[p]) <==> j in Elements(keys[..p])
    {
      FrontIsBelow(keys, p, j);
    }
    assert Below(ids, keys[p]) == Elements(keys[..p]);
  }

  lemma FirstByRank(ids: set<int>, limit: nat, i: int)
    requires i in ids
    ensures i in Take(Ascending(ids), limit) <==> |Below(ids, i)| < limit
  {
    var keys := Ascending(ids);
    var p :| 0 <= p < |keys| && keys[p] == i;
    PlaceIsRank(ids, p);
    AscendingIncreases(ids);
    TakenByPlace(keys, p, limit);
  }

  lemma TakenByPlace(keys: seq<int>, p: nat, limit: nat)
    requires Increasing(keys) && p < |keys|
    ensures keys[p] in Take(keys, limit) <==> p < limit
  {
    var first := Take(keys, limit);
    assert forall q | 0 <= q < |first| :: first[q] == keys[q];
    if p < limit {
      assert first[p] == keys[p];
    }
  }

  function RowAt(rows: map<int, Record>, id: int): Row
    requires id in rows
  {
    Row(id, rows[id].kind, rows[id].payload)
  }

  function RowsOf(rows: map<int, Record>, ids: seq<int>): (r: seq<Row>)
    requires forall k :: 0 <= k < |ids| ==> ids[k] in rows
    ensures |r| == |ids|
    ensures forall k :: 0 <= k < |ids| ==> r[k] == RowAt(rows, ids[k])
  {
    seq(|ids|, k requires 0 <= k < |ids| => RowAt(rows, ids[k]))
  }

  function IdsOfKind(rows: map<int, Record>, kind: string): set<int> {
    set i | i in rows && rows[i].kind == kind
  }

  /** `get_by_kind`: the rows of one kind (or all), by id, at most `limit` of them. */
  function ByKind(t: Table, kind: Option<string>, limit: nat): seq<Row> {
    var ids := if kind.Some? then IdsOfKind(t.rows, kind.value) else t.rows.Keys;
    Take(RowsOf(t.rows, Ascending(ids)), limit)
  }

  /** `get_by_ids`: the present rows among `ids`, in the order asked for. */
  function ByIds(t: Table, ids: seq<int>): seq<Row> {
    if ids == [] then []
    else if ids[0] in t.rows then
      [RowAt(t.rows, ids[0])] + ByIds(t, ids[1..])
    else ByIds(t, ids[1..])
  }

  function IdsIn(rows: seq<Row>): (ids: seq<int>)
    ensures |ids| == |rows|
    ensures forall k :: 0 <= k < |rows| ==> ids[k] == rows[k].id
  {
    seq(|rows|, k requires 0 <= k < |rows| => rows[k].id)
  }

  function Delete(t: Table, ids: seq<int>): Table {
    t.(rows := map i | i in t.rows && i !in ids :: t.rows[i])
  }

  function Insert(t: Table, row: NewRow): Table {
    var id := if row.id.Some? then row.id.value else t.nextId;
    Table(t.rows[id := Record(row.kind, row.payload)], if t.nextId < id + 1 then id + 1 else t.nextId)
  }

  function InsertMany(t: Table, rows: seq<NewRow>): Table {
    if rows == [] then t else Insert(InsertMany(t, rows[..|rows| - 1]), rows[|rows| - 1])
  }

  /** One more row goes under its own id, or under the next one, which then moves above it; no other row changes. */
  lemma RowInserted(t: Table, rows: seq<NewRow>, row: NewRow)
    ensures var before, after := InsertMany(t, rows), InsertMany(t, rows + [row]);
      var id := if row.id.Some? then row.id.value else before.nextId;
      && id in after.rows && after.rows[id] == Record(row.kind, row.payload)
      && (forall i | i != id :: (i in after.rows <==> i in before.rows)
                                && (i in before.rows ==> after.rows[i] == before.rows[i]))
      && before.nextId <= after.nextId && id < after.nextId && after.nextId in {before.nextId, id + 1}
  {
    assert (rows + [row])[..|rows|] == rows;
  }

  function Reinserted(rows: seq<Row>): (r: seq<NewRow>)
    ensures |r| == |rows|
    ensures forall k :: 0 <= k < |rows| ==> r[k] == NewRow(Some(rows[k].id), rows[k].kind, rows[k].payload)
  {
    seq(|rows|, k requires 0 <= k < |rows| => NewRow(Some(rows[k].id), rows[k].kind, rows[k].payload))
  }

  /** Each row is what `rows` holds under its id. */
  ghost predicate Snapshot(rows: map<int, Record>, taken: seq<Row>) {
    forall k :: 0 <= k < |taken| ==>
      taken[k].id in rows && rows[taken[k].id] == Record(taken[k].kind, taken[k].payload)
  }

  lemma ByKindSnapshot(t: Table, kind: Option<string>, limit: nat)
    ensures Snapshot(t.rows, ByKind(t, kind, limit))
  {
  }

  lemma {:induction false} ByIdsSnapshot(t: Table, ids: seq<int>)
    ensures Snapshot(t.rows, ByIds(t, ids))
    ensures forall i :: i in IdsIn(ByIds(t, ids)) <==> i in ids && i in t.rows
  {
    if ids != [] {
      ByIdsSnapshot(t, ids[1..]);
      var rest := ByIds(t, ids[1..]);
      forall i
        ensures i in IdsIn(ByIds(t, ids)) <==> i in ids && i in t.rows
      {
        assert i in ids <==> i == ids[0] || i in ids[1..];
        if ids[0] in t.rows {
          assert IdsIn(ByIds(t, ids)) == [ids[0]] + IdsIn(rest);
        }
      }
    }
  }

  /** Asking for one more id adds its row at the end, if there is one. */
  lemma {:induction false} ByIdsInOrder(t: Table, ids: seq<int>, id: int)
    ensures ByIds(t, ids + [id]) ==
      ByIds(t, ids) + (if id in t.rows then [Row(id, t.rows[id].kind, t.rows[id].payload)] else [])
  {
    if ids == [] {
      assert ids + [id] == [id];
    } else {
      ByIdsInOrder(t, ids[1..], id);
      assert (ids + [id])[1..] == ids[1..] + [id];
    }
  }

  /** Inserting a snapshot into a table that lacks only some of its rows. */
  lemma {:induction false} ReinsertRestores(t: Table, taken: seq<Row>, rows: map<int, Record>)
    requires Snapshot(rows, taken)
    requires forall i | i in t.rows :: i in rows && t.rows[i] == rows[i]
    requires forall i | i in rows && i !in t.rows :: i in IdsIn(taken)
    ensures InsertMany(t, Reinserted(taken)).rows == rows
    ensures (forall i | i in rows :: i < t.nextId) ==> InsertMany(t, Reinserted(taken)).nextId == t.nextId
  {
    ReinsertPart(t, taken, rows);
    var got := InsertMany(t, Reinserted(taken)).rows;
    forall i | i in rows
      ensures i in got
    {
      if i !in t.rows {
        var k :| 0 <= k < |taken| && IdsIn(taken)[k] == i;
        assert taken[k].id == i;
      }
    }
    assert forall i | i in got :: i in rows && got[i] == rows[i];
    assert got.Keys == rows.Keys;
  }

  lemma {:induction false} ReinsertPart(t: Table, taken: seq<Row>, rows: map<int, Record>)
    requires Snapshot(rows, taken)
    requires forall i | i in t.rows :: i in rows && t.rows[i] == rows[i]
    ensures var got := InsertMany(t, Reinserted(taken));
      && (forall i | i in got.rows :: i in rows && got.rows[i] == rows[i])
      && (forall i | i in t.rows :: i in got.rows)
      && (forall k :: 0 <= k < |taken| ==> taken[k].id in got.rows)
      && ((forall i | i in rows :: i < t.nextId) ==> got.nextId == t.nextId)
  {
    if taken != [] {
      var n := |taken| - 1;
      ReinsertPart(t, taken[..n], rows);
      assert Reinserted(taken)[..n] == Reinserted(taken[..n]);
    }
  }

  /** `r` holds the rows of the lowest ids among `matching`, in order, `limit` of them if there are as many. */
  ghost predicate FirstOf(r: seq<Row>, rows: map<int, Record>, matching: set<int>, limit: nat) {
    && Increasing(IdsIn(r))
    && |r| == (if |matching| < limit then |matching| else limit)
    && (forall k :: 0 <= k < |r| ==> r[k].id in matching && r[k].id in rows && r[k] == RowAt(rows, r[k].id))
    && (forall i, k :: i in matching && i !in IdsIn(r) && 0 <= k < |r| ==> r[k].id < i)
  }

  lemma TakenOrLater(all: seq<int>, limit: nat, i: int)
    requires Increasing(all) && i in all
    ensures i in Take(all, limit) || forall j | j in Take(all, limit) :: j < i
  {
    var first := Take(all, limit);
    var p :| 0 <= p < |all| && all[p] == i;
    if p < limit {
      assert first[p] == i;
    } else {
      forall j | j in first
        ensures j < i
      {
        var q :| 0 <= q < |first| && first[q] == j;
        assert all[q] == j;
      }
    }
  }

  lemma IdsOfTake(rows: map<int, Record>, all: seq<int>, limit: nat)
    requires forall k :: 0 <= k < |all| ==> all[k] in rows
    ensures IdsIn(Take(RowsOf(rows, all), limit)) == Take(all, limit)
  {
  }

  lemma LaterOnes(r: seq<Row>, all: seq<int>, matching: set<int>, limit: nat)
    requires Increasing(all) && IdsIn(r) == Take(all, limit) && forall i | i in matching :: i in all
    ensures forall i, k :: i in matching && i !in IdsIn(r) && 0 <= k < |r| ==> r[k].id < i
  {
    forall i, k | i in matching && i !in IdsIn(r) && 0 <= k < |r|
      ensures r[k].id < i
    {
      TakenOrLater(all, limit, i);
      assert IdsIn(r)[k] in IdsIn(r);
    }
  }

  lemma FirstOfSorted(rows: map<int, Record>, all: seq<int>, matching: set<int>, limit: nat)
    requires Increasing(all) && |all| == |matching| && forall i :: i in all <==> i in matching
    requires forall k :: 0 <= k < |all| ==> all[k] in rows
    ensures FirstOf(Take(RowsOf(rows, all), limit), rows, matching, limit)
  {
    IdsOfTake(rows, all, limit);
    LaterOnes(Take(RowsOf(rows, all), limit), all, matching, limit);
    assert forall k :: 0 <= k < |all| ==> all[k] in all;
  }

  lemma FullOrCut(rows: map<int, Record>, all: seq<int>, r: seq<Row>, limit: nat)
    requires forall k :: 0 <= k < |all| ==> all[k] in rows
    requires |r| <= limit && |r| <= |all| && (|r| == limit || |r| == |all|)
    requires forall k :: 0 <= k < |r| ==> r[k] == RowAt(rows, all[k])
    ensures r == Take(RowsOf(rows, all), limit)
  {
  }

  /** The rows of the given ids, up to the limit. */
  method FirstRows(rows: map<int, Record>, ids: seq<int>, limit: nat) returns (r: seq<Row>)
    requires forall k :: 0 <= k < |ids| ==> ids[k] in rows
    ensures r == Take(RowsOf(rows, ids), limit)
  {
    r := [];
    for k := 0 to if |ids| < limit then |ids| else limit
      invariant |r| == k && forall j :: 0 <= j < k ==> r[j] == RowAt(rows, ids[j])
    {
      r := r + [RowAt(rows, ids[k])];
    }
    FullOrCut(rows, ids, r, limit);
  }

  /** What a caller of `get_by_kind` relies on. */
  lemma ByKindMeans(t: Table, kind: Option<string>, limit: nat)
    ensures FirstOf(ByKind(t, kind, limit), t.rows,
      if kind.Some? then IdsOfKind(t.rows, kind.value) else t.rows.Keys, limit)
  {
    var matching := if kind.Some? then IdsOfKind(t.rows, kind.value) else t.rows.Keys;
    AscendingIncreases(matching);
    FirstOfSorted(t.rows, Ascending(matching), matching, limit);
  }

  /** `{r["id"]: r for r in seed}`. */
  function Loaded(seed: seq<Row>): map<int, Record> {
    if seed == [] then map[]
    else
      var last := seed[|seed| - 1];
      Loaded(seed[..|seed| - 1])[last.id := Record(last.kind, last.payload)]
  }

  /** `max(ids, default=0)`. */
  function MaxId(seed: seq<Row>): int {
    if seed == [] then 0
    else
      var last, before := seed[|seed| - 1].id, MaxId(seed[..|seed| - 1]);
      if |seed| == 1 || before < last then last else before
  }

  lemma {:induction false} LoadedBelow(seed: seq<Row>)
    ensures forall i | i in Loaded(seed) :: i <= MaxId(seed)
  {
    if seed != [] {
      LoadedBelow(seed[..|seed| - 1]);
    }
  }

  class RecordsRepository {
    var rows: map<int, Record>
    var nextId: int

    ghost function Value(): Table
      reads this
    {
      Table(rows, nextId)
    }

    /** A later row with the same id replaces an earlier one; ids are handed out above the highest seeded. */
    constructor (seed: seq<Row>)
      ensures rows == Loaded(seed) && nextId == MaxId(seed) + 1 && FreshNextId(Value())
    {
      var top, m := 0, map[];
      for k := 0 to |seed|
        invariant m == Loaded(seed[..k]) && top == MaxId(seed[..k])
      {
        assert seed[..k + 1][..k] == seed[..k];
        top := if k == 0 || top < seed[k].id then seed[k].id else top;
        m := m[seed[k].id := Record(seed[k].kind, seed[k].payload)];
      }
      assert seed[..|seed|] == seed;
      LoadedBelow(seed);
      rows := m;
      nextId := top + 1;
    }

    /** The filtered rows in order of id, up to the limit. */
    method GetByKind(kind: Option<string>, limit: nat) returns (r: seq<Row>)
      ensures r == ByKind(Value(), kind, limit)
      ensures FirstOf(r, rows, if kind.Some? then IdsOfKind(rows, kind.value) else rows.Keys, limit)
    {
      var matching := if kind.Some? then IdsOfKind(rows, kind.value) else rows.Keys;
      r := FirstRows(rows, Ascending(matching), limit);
      ByKindMeans(Value(), kind, limit);
    }

    method GetByIds(ids: seq<int>) returns (r: seq<Row>)
      ensures r == ByIds(Value(), ids)
    {
      r := ByIds(Table(rows, nextId), ids);
    }

    method DeleteAll(ids: seq<int>)
      modifies this
      ensures Value() == Delete(old(Value()), ids)
    {
      for k := 0 to |ids|
        invariant nextId == old(nextId)
        invariant rows == map i | i in old(rows) && i !in ids[..k] :: old(rows)[i]
      {
        rows := map i | i in rows && i != ids[k] :: rows[i];
        assert ids[..k + 1] == ids[..k] + [ids[k]];
      }
      assert ids[..|ids|] == ids;
    }

    method InsertAll(news: seq<NewRow>)
      modifies this
      ensures Value() == InsertMany(old(Value()), news)
    {
      for k := 0 to |news|
        invariant Value() == InsertMany(old(Value()), news[..k])
      {
        var id := if news[k].id.Some? then news[k].id.value else nextId;
        nextId := if nextId < id + 1 then id + 1 else nextId;
        rows := rows[id := Record(news[k].kind, news[k].payload)];
        assert news[..k + 1][..k] == news[..k];
      }
      assert news[..|news|] == news;
    }
  }
}

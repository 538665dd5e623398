/**
 * The browser-side table store: named tables of records and one id counter per table. A record keeps its
 * id apart from its other fields; field values are opaque text.
 */
module WebStore {
  import opened Wrappers

  type Fields = map<string, string>

  datatype Row = Row(id: int, fields: Fields)

  /** `id` is Some only for a payload whose id is a number that can equal a row id. */
  datatype Payload = Payload(id: Option<int>, fields: Fields)

  datatype Db = Db(counters: map<string, nat>, tables: map<string, seq<Row>>)

  // Table helpers

  function Rows(db: Db, name: string): seq<Row> {
    if name in db.tables then db.tables[name] else []
  }

  function MaxId(rows: seq<Row>): (m: nat)
    ensures forall i | 0 <= i < |rows| :: rows[i].id <= m
    ensures m > 0 ==> exists i | 0 <= i < |rows| :: rows[i].id == m
  {
    if rows == [] then 0
    else
      var last, rest := rows[|rows| - 1].id, MaxId(rows[..|rows| - 1]);
      if last > rest then last else rest
  }

  function IndexOfId(rows: seq<Row>, id: int): (r: Option<nat>)
    ensures r.Some? ==> r.value < |rows| && rows[r.value].id == id
                        && forall i | 0 <= i < r.value :: rows[i].id != id
    ensures r.None? ==> forall i | 0 <= i < |rows| :: rows[i].id != id
  {
    if rows == [] then None
    else if rows[0].id == id then Some(0)
    else
      match IndexOfId(rows[1..], id)
      case None => None
      case Some(k) => Some(k + 1)
  }

  function Without(rows: seq<Row>, id: int): seq<Row> {
    if rows == [] then []
    else (if rows[0].id != id then [rows[0]] else []) + Without(rows[1..], id)
  }

  /** A missing or zero counter is recomputed from the rows. */
  function Counter(db: Db, name: string): nat {
    if name in db.counters && db.counters[name] != 0 then db.counters[name] else MaxId(Rows(db, name))
  }

  function Stamped(fields: Fields, now: string): Fields {
    fields["updated_at" := now]
  }

  // Specification of the calls

  function Found(rows: seq<Row>, payload: Payload): Option<nat> {
    if payload.id.Some? then IndexOfId(rows, payload.id.value) else None
  }

  function SavedRows(rows: seq<Row>, counter: nat, payload: Payload, now: string): seq<Row> {
    var found := Found(rows, payload);
    if found.Some? then
      rows[found.value := Row(rows[found.value].id, Stamped(rows[found.value].fields + payload.fields, now))]
    else
      rows + [Row(counter + 1, Stamped(payload.fields["created_at" := now], now))]
  }

  function Saved(db: Db, name: string, payload: Payload, now: string): Db {
    var rows, counter := Rows(db, name), Counter(db, name);
    Db(db.counters[name := if Found(rows, payload).Some? then counter else counter + 1],
       db.tables[name := SavedRows(rows, counter, payload, now)])
  }

  function Deleted(db: Db, name: string, id: int): Db {
    db.(tables := db.tables[name := Without(Rows(db, name), id)])
  }

  function Cleared(db: Db, name: string): Db {
    db.(tables := db.tables[name := []])
  }

  /** The store over a persistent browser storage. */
  class WebLocalDatabase {
    var counters: map<string, nat>
    var tables: map<string, seq<Row>>

    ghost function View(): Db
      reads this
    {
      Db(counters, tables)
    }

    constructor (initial: Db)
      ensures View() == initial
    {
      counters, tables := initial.counters, initial.tables;
    }

    /** Reading a table creates it. */
    method Table(name: string) returns (rows: seq<Row>)
      modifies this`tables
      ensures rows == Rows(old(View()), name)
      ensures View() == old(View()).(tables := old(tables)[name := rows])
    {
      if name !in tables {
        tables := tables[name := []];
      }
      rows := tables[name];
    }

    method Get(name: string, id: int) returns (row: Option<Row>)
      modifies this`tables
      ensures row.Some? ==> row.value in Rows(old(View()), name) && row.value.id == id
      ensures row.None? ==> forall r | r in Rows(old(View()), name) :: r.id != id
      ensures View() == old(View()).(tables := old(tables)[name := Rows(old(View()), name)])
    {
      var rows := Table(name);
      match IndexOfId(rows, id)
      case None => row := None;
      case Some(k) => row := Some(rows[k]);
    }

    method Save(name: string, payload: Payload, now: string) returns (row: Row)
      modifies this
      ensures View() == Saved(old(View()), name, payload, now)
      ensures row in tables[name]
    {
      var rows := if name in tables then tables[name] else [];
      var counter := if name in counters && counters[name] != 0 then counters[name] else MaxId(rows);
      var found := None;
      if payload.id.Some? {
        found := IndexOfId(rows, payload.id.value);
      }
      if found.Some? {
        row := Row(payload.id.value, Stamped(rows[found.value].fields + payload.fields, now));
        rows := rows[found.value := row];
        assert rows[found.value] == row;
      } else {
        counter := counter + 1;
        row := Row(counter, Stamped(payload.fields["created_at" := now], now));
        rows := rows + [row];
        assert rows[|rows| - 1] == row;
      }
      counters, tables := counters[name := counter], tables[name := rows];
    }

    method Delete(name: string, id: int) returns (removed: bool)
      modifies this`tables
      ensures View() == Deleted(old(View()), name, id)
      ensures removed <==> exists i | 0 <= i < |Rows(old(View()), name)| :: Rows(old(View()), name)[i].id == id
    {
      if name !in tables {
        tables := tables[name := []];
      }
      var before := |tables[name]|;
      WithoutLength(tables[name], id);
      tables := tables[name := Without(tables[name], id)];
      removed := |tables[name]| != before;
    }

    method Clear(name: string)
      modifies this`tables
      ensures View() == Cleared(old(View()), name)
    {
      tables := tables[name := []];
    }
  }

  // Lemmas about rows

  ghost predicate DistinctIds(rows: seq<Row>) {
    forall i, j | 0 <= i < j < |rows| :: rows[i].id != rows[j].id
  }

  ghost predicate HasId(rows: seq<Row>, id: int) {
    exists i | 0 <= i < |rows| :: rows[i].id == id
  }

  lemma {:induction false} WithoutLength(rows: seq<Row>, id: int)
    ensures |Without(rows, id)| <= |rows|
    ensures |Without(rows, id)| != |rows| <==> HasId(rows, id)
  {
    if rows != [] {
      WithoutLength(rows[1..], id);
      if HasId(rows[1..], id) {
        var i :| 0 <= i < |rows| - 1 && rows[1..][i].id == id;
        assert rows[i + 1].id == id;
      }
      if HasId(rows, id) && rows[0].id != id {
        var i :| 0 <= i < |rows| && rows[i].id == id;
        assert rows[1..][i - 1].id == id;
      }
    }
  }

  lemma {:induction false} WithoutMembers(rows: seq<Row>, id: int, r: Row)
    ensures r in Without(rows, id) <==> r in rows && r.id != id
  {
    if rows != [] {
      WithoutMembers(rows[1..], id, r);
    }
  }

  lemma {:induction false} WithoutDistinct(rows: seq<Row>, id: int)
    requires DistinctIds(rows)
    ensures DistinctIds(Without(rows, id))
  {
    if rows != [] {
      var rest := Without(rows[1..], id);
      WithoutDistinct(rows[1..], id);
      if rows[0].id != id {
        forall j | 0 <= j < |rest| ensures rest[j].id != rows[0].id {
          WithoutMembers(rows[1..], id, rest[j]);
          assert rest[j] in rest;
          var k :| 0 <= k < |rows| - 1 && rows[1..][k] == rest[j];
          assert rows[k + 1] == rest[j];
        }
      }
    }
  }

  // The abstract store: each table is a map from id to fields

  ghost function AsMap(rows: seq<Row>): (m: map<int, Fields>)
    requires DistinctIds(rows)
    ensures forall id :: id in m <==> HasId(rows, id)
    ensures forall i | 0 <= i < |rows| :: rows[i].id in m && m[rows[i].id] == rows[i].fields
  {
    map i | 0 <= i < |rows| :: rows[i].id := rows[i].fields
  }

  lemma MapExtensional(rows: seq<Row>, m: map<int, Fields>)
    requires DistinctIds(rows)
    requires forall id | id in m :: HasId(rows, id)
    requires forall i | 0 <= i < |rows| :: rows[i].id in m && m[rows[i].id] == rows[i].fields
    ensures AsMap(rows) == m
  {
    forall id | id in m ensures id in AsMap(rows) && AsMap(rows)[id] == m[id] {
      var i :| 0 <= i < |rows| && rows[i].id == id;
    }
  }

  // Runs

  datatype Op =
    | Save(name: string, payload: Payload, now: string)
    | Delete(name: string, id: int)
    | Clear(name: string)

  function Apply(db: Db, op: Op): Db {
    match op
    case Save(name, payload, now) => Saved(db, name, payload, now)
    case Delete(name, id) => Deleted(db, name, id)
    case Clear(name) => Cleared(db, name)
  }

  function After(db: Db, run: seq<Op>): Db {
    if run == [] then db else Apply(After(db, run[..|run| - 1]), run[|run| - 1])
  }

  const DEMO: Fields := map["nome" := "Administrador"]

  /** Six tables come with a counter, six without; two of the latter already hold a row. */
  const INITIAL: Db :=
    Db(map["companies" := 1, "users" := 1, "profiles" := 1, "app_logs" := 0, "sync_queue" := 0, "integrations" := 0],
       map["companies" := [Row(1, DEMO)], "users" := [Row(1, DEMO)], "profiles" := [Row(1, DEMO)],
           "app_logs" := [], "sync_queue" := [], "integrations" := [],
           "departamentos" := [Row(1, DEMO)], "funcoes" := [Row(1, DEMO)],
           "centro_custos" := [], "clientes" := [], "fornecedores" := [], "produtos" := []])

  predicate CounterSet(db: Db, name: string) {
    name in db.counters && db.counters[name] != 0
  }

  ghost predicate TableInv(db: Db, name: string) {
    && DistinctIds(Rows(db, name))
    && (forall i | 0 <= i < |Rows(db, name)| :: Rows(db, name)[i].id >= 1)
    && (CounterSet(db, name) ==> forall i | 0 <= i < |Rows(db, name)| :: Rows(db, name)[i].id <= db.counters[name])
  }

  lemma SavedRowsKeepIds(rows: seq<Row>, counter: nat, payload: Payload, now: string)
    requires DistinctIds(rows) && forall i | 0 <= i < |rows| :: 1 <= rows[i].id <= counter
    ensures DistinctIds(SavedRows(rows, counter, payload, now))
    ensures var bound := if Found(rows, payload).Some? then counter else counter + 1;
            forall i | 0 <= i < |SavedRows(rows, counter, payload, now)| ::
              1 <= SavedRows(rows, counter, payload, now)[i].id <= bound
  {
  }

  lemma WithoutIsPart(rows: seq<Row>, id: int)
    ensures forall i | 0 <= i < |Without(rows, id)| :: Without(rows, id)[i] in rows
  {
    forall i | 0 <= i < |Without(rows, id)| ensures Without(rows, id)[i] in rows {
      WithoutMembers(rows, id, Without(rows, id)[i]);
      assert Without(rows, id)[i] in Without(rows, id);
    }
  }

  /** A change of one table that keeps its ids distinct, positive and within its counter, if that is set. */
  ghost predicate Keeps(db: Db, db': Db, name: string) {
    && TableInv(db', name)
    && (CounterSet(db, name) ==> CounterSet(db', name) && db.counters[name] <= db'.counters[name])
  }

  lemma SaveKeeps(db: Db, name: string, payload: Payload, now: string)
    requires TableInv(db, name)
    ensures Keeps(db, Saved(db, name, payload, now), name)
  {
    var rows, counter := Rows(db, name), Counter(db, name);
    SavedRowsKeepIds(rows, counter, payload, now);
    assert Rows(Saved(db, name, payload, now), name) == SavedRows(rows, counter, payload, now);
  }

  lemma DeleteKeeps(db: Db, name: string, id: int)
    requires TableInv(db, name)
    ensures Keeps(db, Deleted(db, name, id), name)
  {
    var rows := Rows(db, name);
    WithoutDistinct(rows, id);
    WithoutIsPart(rows, id);
    assert Rows(Deleted(db, name, id), name) == Without(rows, id);
  }

  lemma InvAfterOp(db: Db, op: Op, name: string)
    requires TableInv(db, name)
    ensures TableInv(Apply(db, op), name)
    ensures CounterSet(db, name) ==>
              CounterSet(Apply(db, op), name) && db.counters[name] <= Apply(db, op).counters[name]
  {
    match op
    case Save(table, payload, now) =>
      if table == name {
        SaveKeeps(db, name, payload, now);
      }
    case Delete(table, id) =>
      if table == name {
        DeleteKeeps(db, name, id);
      }
    case Clear(_) =>
  }

  lemma {:induction false} InvHolds(run: seq<Op>, name: string)
    ensures TableInv(After(INITIAL, run), name)
  {
    if run != [] {
      InvHolds(run[..|run| - 1], name);
      InvAfterOp(After(INITIAL, run[..|run| - 1]), run[|run| - 1], name);
    }
  }

  /** Over every run from the initial database, the ids in each table stay distinct. */
  lemma IdsStayDistinct(run: seq<Op>, name: string)
    ensures DistinctIds(Rows(After(INITIAL, run), name))
  {
    InvHolds(run, name);
  }

  lemma {:induction false} CounterNeverFalls(run: seq<Op>, i: nat, name: string)
    requires i <= |run| && CounterSet(After(INITIAL, run[..i]), name)
    ensures CounterSet(After(INITIAL, run), name)
    ensures After(INITIAL, run[..i]).counters[name] <= After(INITIAL, run).counters[name]
    decreases |run|
  {
    if i == |run| {
      assert run[..i] == run;
    } else {
      var earlier := run[..|run| - 1];
      assert earlier[..i] == run[..i];
      CounterNeverFalls(earlier, i, name);
      InvHolds(earlier, name);
      InvAfterOp(After(INITIAL, earlier), run[|run| - 1], name);
    }
  }

  /** A nonzero counter bounds every id present at any point since it was set. */
  lemma CounterBoundsPastIds(run: seq<Op>, i: nat, name: string, id: int)
    requires i <= |run| && CounterSet(After(INITIAL, run[..i]), name)
    requires HasId(Rows(After(INITIAL, run[..i]), name), id)
    ensures CounterSet(After(INITIAL, run), name)
    ensures 1 <= id <= After(INITIAL, run).counters[name]
  {
    InvHolds(run[..i], name);
    CounterNeverFalls(run, i, name);
  }

  predicate Creates(db: Db, op: Op) {
    op.Save? && |Rows(Apply(db, op), op.name)| > |Rows(db, op.name)|
  }

  function CreatedId(db: Db, op: Op): int
    requires op.Save?
  {
    Counter(db, op.name) + 1
  }

  /** Hence no id seen since the counter was set is ever given to a new record. */
  lemma NoReuseOnceCounterSet(run: seq<Op>, op: Op, i: nat, id: int)
    requires i <= |run| && Creates(After(INITIAL, run), op)
    requires CounterSet(After(INITIAL, run[..i]), op.name)
    requires HasId(Rows(After(INITIAL, run[..i]), op.name), id)
    ensures CreatedId(After(INITIAL, run), op) != id
    ensures HasId(Rows(Apply(After(INITIAL, run), op), op.name), CreatedId(After(INITIAL, run), op))
  {
    CounterBoundsPastIds(run, i, op.name, id);
    var db := After(INITIAL, run);
    var rows := Rows(Apply(db, op), op.name);
    assert rows[|rows| - 1].id == CreatedId(db, op);
  }

  /** Before that an id can come back: the seeded department is deleted and its id given out again. */
  lemma ReuseBeforeCounterSet(payload: Payload, now: string)
    requires payload.id.None?
    ensures var run := [Delete("departamentos", 1)];
            && HasId(Rows(INITIAL, "departamentos"), 1)
            && !CounterSet(INITIAL, "departamentos")
            && Creates(After(INITIAL, run), Save("departamentos", payload, now))
            && CreatedId(After(INITIAL, run), Save("departamentos", payload, now)) == 1
  {
    var run := [Delete("departamentos", 1)];
    assert run[..0] == [];
    var rows := Rows(INITIAL, "departamentos");
    assert rows == [Row(1, DEMO)] && rows[0].id == 1;
    assert Without(rows, 1) == [];
    assert Rows(After(INITIAL, run), "departamentos") == [];
  }

  // Exactly when an id comes back

  /** Some continuation gives the id to a new record of the table. */
  ghost predicate Reusable(db: Db, name: string, id: int) {
    exists more: seq<Op>, op: Op :: op.name == name && Creates(After(db, more), op) && CreatedId(After(db, more), op) == id
  }

  const ANYTHING: Payload := Payload(None, map[])

  /** The table is emptied and refilled with n new records. */
  function Refill(name: string, n: nat): seq<Op> {
    if n == 0 then [Clear(name)] else Refill(name, n - 1) + [Save(name, ANYTHING, "")]
  }

  lemma {:induction false} RefillCounts(db: Db, name: string, n: nat)
    requires !CounterSet(db, name)
    ensures Counter(After(db, Refill(name, n)), name) == n
  {
    var run := Refill(name, n);
    if n == 0 {
      assert run[..0] == [];
      assert Rows(After(db, run), name) == [];
    } else {
      assert run[..|run| - 1] == Refill(name, n - 1);
      RefillCounts(db, name, n - 1);
    }
  }

  lemma {:induction false} CounterKept(db: Db, more: seq<Op>, name: string)
    requires TableInv(db, name) && CounterSet(db, name)
    ensures TableInv(After(db, more), name) && CounterSet(After(db, more), name)
    ensures db.counters[name] <= After(db, more).counters[name]
    decreases |more|
  {
    if more != [] {
      CounterKept(db, more[..|more| - 1], name);
      InvAfterOp(After(db, more[..|more| - 1]), more[|more| - 1], name);
    }
  }

  /** Tables that may hold rows before their counter is set. */
  const UNCOUNTED: set<string> := {"departamentos", "funcoes"}

  lemma {:induction false} RowsSetCounter(run: seq<Op>, name: string)
    requires name !in UNCOUNTED
    ensures Rows(After(INITIAL, run), name) != [] ==> CounterSet(After(INITIAL, run), name)
  {
    if run != [] {
      var earlier, op := run[..|run| - 1], run[|run| - 1];
      RowsSetCounter(earlier, name);
      InvHolds(earlier, name);
      if op.name != name {
        OtherTablesUntouched(After(INITIAL, earlier), op, name);
      }
    }
  }

  lemma BoundedIsNotReusable(db: Db, name: string, id: int)
    requires TableInv(db, name) && CounterSet(db, name) && HasId(Rows(db, name), id)
    ensures !Reusable(db, name, id)
  {
    forall more: seq<Op>, op: Op | op.name == name && Creates(After(db, more), op) ensures CreatedId(After(db, more), op) != id {
      CounterKept(db, more, name);
    }
  }

  lemma UnboundedIsReusable(db: Db, name: string, id: int)
    requires !CounterSet(db, name) && id >= 1
    ensures Reusable(db, name, id)
  {
    var more, op := Refill(name, id - 1), Save(name, ANYTHING, "");
    RefillCounts(db, name, id - 1);
    SaveCreates(After(db, more), name);
    assert Creates(After(db, more), op) && CreatedId(After(db, more), op) == id;
  }

  lemma SaveCreates(db: Db, name: string)
    ensures Creates(db, Save(name, ANYTHING, ""))
  {
  }

  /**
   * In every reachable state, the id of a present record can be given out again by some continuation exactly
   * when the table's counter is not set, which happens in the two seeded tables without a counter only.
   */
  lemma ReusableIffCounterUnset(run: seq<Op>, name: string, id: int)
    requires HasId(Rows(After(INITIAL, run), name), id)
    ensures Reusable(After(INITIAL, run), name, id) <==> !CounterSet(After(INITIAL, run), name)
    ensures !CounterSet(After(INITIAL, run), name) ==> name in UNCOUNTED
  {
    var db := After(INITIAL, run);
    InvHolds(run, name);
    if CounterSet(db, name) {
      BoundedIsNotReusable(db, name, id);
    } else {
      if name !in UNCOUNTED {
        RowsSetCounter(run, name);
      }
      UnboundedIsReusable(db, name, id);
    }
  }

  /** Both tables start so: their seeded record's id can be given out again. */
  lemma SeededIdsAreReusable(name: string)
    requires name in UNCOUNTED
    ensures HasId(Rows(INITIAL, name), 1) && !CounterSet(INITIAL, name) && Reusable(INITIAL, name, 1)
  {
    assert Rows(INITIAL, name)[0].id == 1;
    ReusableIffCounterUnset([], name, 1);
  }

  // Refinement

  lemma UpdateRefinesMap(rows: seq<Row>, k: nat, fields: Fields)
    requires DistinctIds(rows) && k < |rows|
    ensures DistinctIds(rows[k := Row(rows[k].id, fields)])
    ensures AsMap(rows[k := Row(rows[k].id, fields)]) == AsMap(rows)[rows[k].id := fields]
  {
    var after, m := rows[k := Row(rows[k].id, fields)], AsMap(rows)[rows[k].id := fields];
    forall id | id in m ensures HasId(after, id) {
      var i :| 0 <= i < |rows| && rows[i].id == id;
      assert after[i].id == id;
    }
    MapExtensional(after, m);
  }

  lemma InsertRefinesMap(rows: seq<Row>, row: Row)
    requires DistinctIds(rows) && !HasId(rows, row.id)
    ensures DistinctIds(rows + [row])
    ensures AsMap(rows + [row]) == AsMap(rows)[row.id := row.fields]
  {
    var after, m := rows + [row], AsMap(rows)[row.id := row.fields];
    assert after[|rows|] == row;
    forall id | id in m ensures HasId(after, id) {
      if id != row.id {
        var i :| 0 <= i < |rows| && rows[i].id == id;
        assert after[i].id == id;
      }
    }
    MapExtensional(after, m);
  }

  lemma SavedRowsRefineMap(rows: seq<Row>, counter: nat, payload: Payload, now: string)
    requires DistinctIds(rows) && forall i | 0 <= i < |rows| :: rows[i].id <= counter
    ensures DistinctIds(SavedRows(rows, counter, payload, now))
    ensures var before, after := AsMap(rows), AsMap(SavedRows(rows, counter, payload, now));
            if payload.id.Some? && payload.id.value in before
            then after == before[payload.id.value := Stamped(before[payload.id.value] + payload.fields, now)]
            else counter + 1 !in before
                 && after == before[counter + 1 := Stamped(payload.fields["created_at" := now], now)]
  {
    var found := Found(rows, payload);
    if found.Some? {
      var k := found.value;
      assert HasId(rows, rows[k].id);
      UpdateRefinesMap(rows, k, Stamped(rows[k].fields + payload.fields, now));
    } else {
      InsertRefinesMap(rows, Row(counter + 1, Stamped(payload.fields["created_at" := now], now)));
    }
  }

  /** An update merges the fields of the addressed record; a creation adds a record under a fresh id. */
  lemma SaveRefinesMap(db: Db, name: string, payload: Payload, now: string)
    requires TableInv(db, name)
    ensures DistinctIds(Rows(Saved(db, name, payload, now), name))
    ensures var before, after := AsMap(Rows(db, name)), AsMap(Rows(Saved(db, name, payload, now), name));
            if payload.id.Some? && payload.id.value in before
            then after == before[payload.id.value := Stamped(before[payload.id.value] + payload.fields, now)]
            else Counter(db, name) + 1 !in before
                 && after == before[Counter(db, name) + 1 := Stamped(payload.fields["created_at" := now], now)]
  {
    SavedRowsRefineMap(Rows(db, name), Counter(db, name), payload, now);
  }

  lemma WithoutIds(rows: seq<Row>, id: int, k: int)
    ensures HasId(Without(rows, id), k) <==> HasId(rows, k) && k != id
  {
    var kept := Without(rows, id);
    if HasId(rows, k) && k != id {
      var i :| 0 <= i < |rows| && rows[i].id == k;
      WithoutMembers(rows, id, rows[i]);
      var j :| 0 <= j < |kept| && kept[j] == rows[i];
    }
    if HasId(kept, k) {
      var j :| 0 <= j < |kept| && kept[j].id == k;
      WithoutMembers(rows, id, kept[j]);
      var i :| 0 <= i < |rows| && rows[i] == kept[j];
    }
  }

  lemma DeleteRefinesMap(db: Db, name: string, id: int)
    requires TableInv(db, name)
    ensures DistinctIds(Rows(Deleted(db, name, id), name))
    ensures AsMap(Rows(Deleted(db, name, id), name)) == AsMap(Rows(db, name)) - {id}
  {
    var rows, kept := Rows(db, name), Without(Rows(db, name), id);
    WithoutDistinct(rows, id);
    forall k ensures HasId(kept, k) <==> HasId(rows, k) && k != id {
      WithoutIds(rows, id, k);
    }
    var m := AsMap(rows) - {id};
    forall j | 0 <= j < |kept| ensures kept[j].id in m && m[kept[j].id] == kept[j].fields {
      WithoutMembers(rows, id, kept[j]);
      assert kept[j] in kept && kept[j].id != id;
      var i :| 0 <= i < |rows| && rows[i] == kept[j];
      assert rows[i].id in AsMap(rows);
    }
    MapExtensional(kept, m);
  }

  /** An operation on one table leaves every other table as it is. */
  lemma OtherTablesUntouched(db: Db, op: Op, other: string)
    requires op.name != other
    ensures Rows(Apply(db, op), other) == Rows(db, other)
    ensures other in Apply(db, op).counters <==> other in db.counters
    ensures other in db.counters ==> Apply(db, op).counters[other] == db.counters[other]
  {
  }
}

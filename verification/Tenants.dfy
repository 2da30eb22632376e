/**
 * The tenant repository: every read filtered and every write stamped by one tenant.
 *
 * Isolation is stated twice: a tenant's operations leave the rows of others as they are, and what a tenant is told does
 * not depend on those rows. The second has one exception, since ids are unique across tenants, and the exception is
 * stated exactly.
 */
module Tenants {
  import opened Options
  import opened Ordering

  type Id = nat
  type Tenant = nat

  /** A row of any table; platform rows have no tenant. */
  datatype Row = Row(id: Id, tenant: Option<Tenant>, data: string)

  /** Rows in storage order, by table. */
  type Database = map<string, seq<Row>>

  datatype Kind = Owned | Optional | Platform

  function RowsIn(db: Database, table: string): seq<Row> {
    if table in db then db[table] else []
  }

  /** The rows a condition selects, in storage order. */
  function Select(rows: seq<Row>, holds: Row -> bool): seq<Row> {
    if rows == [] then []
    else
      var n := |rows| - 1;
      if holds(rows[n]) then Select(rows[..n], holds) + [rows[n]] else Select(rows[..n], holds)
  }

  function Mine(tenant: Tenant): Row -> bool {
    (r: Row) => r.tenant == Some(tenant)
  }

  function NotMine(tenant: Tenant): Row -> bool {
    (r: Row) => r.tenant != Some(tenant)
  }

  function HasId(id: Id): Row -> bool {
    (r: Row) => r.id == id
  }

  /** The complement of a delete's filter. */
  function Survives(tenant: Tenant, id: Id): Row -> bool {
    (r: Row) => !(r.id == id && r.tenant == Some(tenant))
  }

  function Own(rows: seq<Row>, tenant: Tenant): seq<Row> {
    Select(rows, Mine(tenant))
  }

  function Foreign(rows: seq<Row>, tenant: Tenant): seq<Row> {
    Select(rows, NotMine(tenant))
  }

  function WithId(rows: seq<Row>, id: Id): seq<Row> {
    Select(rows, HasId(id))
  }

  predicate Holds(rows: seq<Row>, id: Id) {
    exists i :: 0 <= i < |rows| && rows[i].id == id
  }

  // ---- Operations ----

  datatype Op =
    | Get(table: string, id: Id)
    | List(table: string, limit: nat, offset: nat, order: Option<(Row, Row) -> bool>)
    | Count(table: string)
    | Exists(table: string, id: Id)
    | Add(table: string, row: Row)
    | Delete(table: string, id: Id)

  datatype Result =
    | Found(found: Option<Row>)
    | Page(rows: seq<Row>)
    | Number(n: nat)
    | Answer(yes: bool)
    | Added(row: Row)
    | IsolationError
    | Conflict

  function First(rows: seq<Row>): Option<Row> {
    if rows == [] then None else Some(rows[0])
  }

  function Cut(rows: seq<Row>, limit: nat, offset: nat): seq<Row> {
    var rest := if offset <= |rows| then rows[offset..] else [];
    if limit <= |rest| then rest[..limit] else rest
  }

  /** A page of the tenant's rows. */
  function PageOf(own: seq<Row>, limit: nat, offset: nat, order: Option<(Row, Row) -> bool>): seq<Row> {
    Cut(if order.Some? then StableSort(order.value, own) else own, limit, offset)
  }

  /** What an operation answers, from the tenant's own rows of the table and whether the id to add is taken. */
  function Answered(tenant: Tenant, op: Op, own: seq<Row>, taken: bool): Result {
    match op
    case Get(_, id) => Found(First(WithId(own, id)))
    case List(_, limit, offset, order) => Page(PageOf(own, limit, offset, order))
    case Count(_) => Number(|own|)
    case Exists(_, id) => Answer(WithId(own, id) != [])
    case Add(_, row) =>
      if row.tenant.Some? && row.tenant != Some(tenant) then IsolationError
      else if taken then Conflict
      else Added(row.(tenant := Some(tenant)))
    case Delete(_, id) => Answer(WithId(own, id) != [])
  }

  /** What an operation leaves of a table. A primary key is unique in its table, whoever owns the row. */
  function Left(tenant: Tenant, op: Op, rows: seq<Row>): seq<Row> {
    match op
    case Add(_, row) =>
      if (row.tenant.Some? && row.tenant != Some(tenant)) || Holds(rows, row.id) then rows
      else rows + [row.(tenant := Some(tenant))]
    case Delete(_, id) => Select(rows, Survives(tenant, id))
    case _ => rows
  }

  predicate Taken(op: Op, rows: seq<Row>) {
    op.Add? && Holds(rows, op.row.id)
  }

  function ResultOf(kinds: string -> Kind, db: Database, tenant: Tenant, op: Op): Result {
    if !kinds(op.table).Owned? then IsolationError
    else Answered(tenant, op, Own(RowsIn(db, op.table), tenant), Taken(op, RowsIn(db, op.table)))
  }

  function After(kinds: string -> Kind, db: Database, tenant: Tenant, op: Op): Database {
    if !kinds(op.table).Owned? then db else db[op.table := Left(tenant, op, RowsIn(db, op.table))]
  }

  // ---- Filtering ----

  lemma SelectAppends(rows: seq<Row>, x: Row, holds: Row -> bool)
    ensures Select(rows + [x], holds) == if holds(x) then Select(rows, holds) + [x] else Select(rows, holds)
  {
    assert (rows + [x])[..|rows|] == rows;
  }

  lemma {:induction false} SelectMembers(rows: seq<Row>, holds: Row -> bool)
    ensures forall r :: r in Select(rows, holds) <==> r in rows && holds(r)
  {
    if rows == [] {
    } else {
      var n := |rows| - 1;
      SelectMembers(rows[..n], holds);
      assert rows == rows[..n] + [rows[n]];
    }
  }

  /** The selection is the selected rows, each as often as it is stored and in storage order. */
  lemma {:induction false} SelectKeepsOrder(rows: seq<Row>, holds: Row -> bool) returns (at: seq<nat>)
    ensures |at| == |Select(rows, holds)|
    ensures forall k :: 0 <= k < |at| ==> at[k] < |rows| && Select(rows, holds)[k] == rows[at[k]] && holds(rows[at[k]])
    ensures forall j, k :: 0 <= j < k < |at| ==> at[j] < at[k]
    ensures forall i :: 0 <= i < |rows| && holds(rows[i]) ==> i in at
  {
    if rows == [] {
      at := [];
    } else {
      var n := |rows| - 1;
      at := SelectKeepsOrder(rows[..n], holds);
      if holds(rows[n]) { at := at + [n]; }
      assert forall i :: 0 <= i < n ==> rows[..n][i] == rows[i];
      assert holds(rows[n]) ==> at[|at| - 1] == n;
    }
  }

  /** Removing rows that a condition does not select does not change the selection. */
  lemma {:induction false} SelectAfterRemoval(rows: seq<Row>, keep: Row -> bool, holds: Row -> bool)
    requires forall r :: r in rows && holds(r) ==> keep(r)
    ensures Select(Select(rows, keep), holds) == Select(rows, holds)
  {
    if rows == [] {
    } else {
      var n := |rows| - 1;
      assert rows == rows[..n] + [rows[n]];
      SelectAfterRemoval(rows[..n], keep, holds);
      SelectAppends(Select(rows[..n], keep), rows[n], holds);
    }
  }

  /** Two conditions can be applied in either order. */
  lemma {:induction false} SelectsCommute(rows: seq<Row>, a: Row -> bool, b: Row -> bool)
    ensures Select(Select(rows, a), b) == Select(Select(rows, b), a)
  {
    if rows == [] {
    } else {
      var n := |rows| - 1;
      SelectsCommute(rows[..n], a, b);
      SelectAppends(Select(rows[..n], a), rows[n], b);
      SelectAppends(Select(rows[..n], b), rows[n], a);
    }
  }

  // ---- One operation ----

  /** No operation touches a row that is not the tenant's. */
  lemma OthersAreUntouched(kinds: string -> Kind, db: Database, tenant: Tenant, op: Op, table: string)
    ensures Foreign(RowsIn(After(kinds, db, tenant, op), table), tenant) == Foreign(RowsIn(db, table), tenant)
  {
    var rows := RowsIn(db, op.table);
    if op.Add? { SelectAppends(rows, op.row.(tenant := Some(tenant)), NotMine(tenant)); }
    if op.Delete? {
      SelectAfterRemoval(rows, Survives(tenant, op.id), NotMine(tenant));
    }
  }

  /** The tenant's own rows afterwards depend on its own rows and on whether an added id was taken. */
  function OwnLeft(tenant: Tenant, op: Op, own: seq<Row>, taken: bool): seq<Row> {
    match op
    case Add(_, row) =>
      if (row.tenant.Some? && row.tenant != Some(tenant)) || taken then own else own + [row.(tenant := Some(tenant))]
    case Delete(_, id) => Select(own, Survives(tenant, id))
    case _ => own
  }

  lemma OwnAfter(tenant: Tenant, op: Op, rows: seq<Row>)
    ensures Own(Left(tenant, op, rows), tenant) == OwnLeft(tenant, op, Own(rows, tenant), Taken(op, rows))
  {
    if op.Add? { SelectAppends(rows, op.row.(tenant := Some(tenant)), Mine(tenant)); }
    if op.Delete? {
      SelectsCommute(rows, Survives(tenant, op.id), Mine(tenant));
    }
  }

  /**
   * An answer and the tenant's own rows depend on nothing but the tenant's own rows, except that adding a row says
   * whether some tenant holds its id.
   */
  lemma OnlyOwnRowsMatter(kinds: string -> Kind, a: Database, b: Database, tenant: Tenant, op: Op)
    requires Own(RowsIn(a, op.table), tenant) == Own(RowsIn(b, op.table), tenant)
    requires Taken(op, RowsIn(a, op.table)) == Taken(op, RowsIn(b, op.table))
    ensures ResultOf(kinds, a, tenant, op) == ResultOf(kinds, b, tenant, op)
    ensures Own(RowsIn(After(kinds, a, tenant, op), op.table), tenant)
         == Own(RowsIn(After(kinds, b, tenant, op), op.table), tenant)
  {
    OwnAfter(tenant, op, RowsIn(a, op.table));
    OwnAfter(tenant, op, RowsIn(b, op.table));
  }

  /**
   * Adding is the one exception: two databases alike to the tenant answer alike exactly when both or neither hold the
   * id.
   */
  lemma AddTellsWhetherTheIdIsTaken(kinds: string -> Kind, a: Database, b: Database, tenant: Tenant, op: Op)
    requires op.Add? && kinds(op.table).Owned? && op.row.tenant in {None, Some(tenant)}
    ensures ResultOf(kinds, a, tenant, op) == ResultOf(kinds, b, tenant, op)
       <==> (Holds(RowsIn(a, op.table), op.row.id) <==> Holds(RowsIn(b, op.table), op.row.id))
  {
  }

  lemma CutMembers(rows: seq<Row>, limit: nat, offset: nat)
    ensures forall r :: r in Cut(rows, limit, offset) ==> r in rows
  {
  }

  /** A row found by id has that id, and rows found or listed are the tenant's rows of that table. */
  lemma ReadsShowOwnRows(kinds: string -> Kind, db: Database, tenant: Tenant, op: Op)
    ensures match ResultOf(kinds, db, tenant, op)
      case Found(Some(r)) => r in RowsIn(db, op.table) && r.tenant == Some(tenant) && op.Get? && r.id == op.id
      case Page(rows) => forall r :: r in rows ==> r in RowsIn(db, op.table) && r.tenant == Some(tenant)
      case _ => true
  {
    var rows := RowsIn(db, op.table);
    var own := Own(rows, tenant);
    SelectMembers(rows, Mine(tenant));
    match op
    case Get(_, id) =>
      SelectMembers(own, HasId(id));
      assert WithId(own, id) != [] ==> WithId(own, id)[0] in WithId(own, id);
    case List(_, limit, offset, order) =>
      var all := if order.Some? then StableSort(order.value, own) else own;
      SameMultisetSameMembers(all, own);
      CutMembers(all, limit, offset);
    case _ =>
  }

  lemma CutTiles(rows: seq<Row>, first: nat, second: nat, offset: nat)
    ensures Cut(rows, first, offset) + Cut(rows, second, offset + first) == Cut(rows, first + second, offset)
    ensures Cut(rows, |rows|, 0) == rows
  {
    if offset + first <= |rows| {
      var rest := rows[offset..];
      assert rest[first..] == rows[offset + first..];
      if first + second <= |rest| { assert rest[..first] + rest[first..][..second] == rest[..first + second]; }
      else { assert rest[..first] + rest[first..] == rest; }
    }
  }

  /** Consecutive pages tile the tenant's rows, in order: none is shown twice and none is skipped. */
  lemma PagesTile(own: seq<Row>, first: nat, second: nat, offset: nat, order: Option<(Row, Row) -> bool>)
    ensures PageOf(own, first, offset, order) + PageOf(own, second, offset + first, order)
         == PageOf(own, first + second, offset, order)
    ensures multiset(PageOf(own, |own|, 0, order)) == multiset(own)
    ensures order.Some? && TotalPreorder(order.value) ==> Ordered(order.value, PageOf(own, |own|, 0, order))
  {
    CutTiles(if order.Some? then StableSort(order.value, own) else own, first, second, offset);
    if order.Some? && TotalPreorder(order.value) { StableSortOrdered(order.value, own); }
  }

  // ---- What a write does to the reads that follow ----

  /**
   * Deleting takes exactly the tenant's rows of that id out of the table: none is left, any selection they are not part
   * of is as it was, no other table changes, and the id is then not found.
   */
  lemma DeletedIsGone(
    kinds: string -> Kind, db: Database, tenant: Tenant, table: string, id: Id, other: string, holds: Row -> bool)
    requires kinds(table).Owned? && other != table
    requires !exists r :: holds(r) && r.id == id && r.tenant == Some(tenant)
    ensures var db1 := After(kinds, db, tenant, Delete(table, id));
      && (forall r :: r in RowsIn(db1, table) ==> !(r.id == id && r.tenant == Some(tenant)))
      && Select(RowsIn(db1, table), holds) == Select(RowsIn(db, table), holds)
      && RowsIn(db1, other) == RowsIn(db, other)
      && ResultOf(kinds, db1, tenant, Get(table, id)) == Found(None)
      && ResultOf(kinds, db1, tenant, Exists(table, id)) == Answer(false)
  {
    var rows := RowsIn(db, table);
    var db1 := After(kinds, db, tenant, Delete(table, id));
    SelectMembers(rows, Survives(tenant, id));
    SelectAfterRemoval(rows, Survives(tenant, id), holds);
    ForeignRowsLookAbsent(kinds, db1, tenant, table, id);
  }

  /** A row that was added is found under its id, with the tenant's stamp, until the tenant deletes it. */
  lemma AddedIsFound(kinds: string -> Kind, db: Database, tenant: Tenant, table: string, row: Row)
    requires ResultOf(kinds, db, tenant, Add(table, row)).Added?
    ensures var db1 := After(kinds, db, tenant, Add(table, row));
      && RowsIn(db1, table) == RowsIn(db, table) + [Row(row.id, Some(tenant), row.data)]
      && ResultOf(kinds, db1, tenant, Get(table, row.id)) == Found(Some(Row(row.id, Some(tenant), row.data)))
      && ResultOf(kinds, After(kinds, db1, tenant, Delete(table, row.id)), tenant, Get(table, row.id)) == Found(None)
  {
    var rows := RowsIn(db, table);
    var db1 := After(kinds, db, tenant, Add(table, row));
    var stamped := row.(tenant := Some(tenant));
    SelectMembers(rows, Mine(tenant));
    SelectMembers(Own(rows, tenant), HasId(row.id));
    var found := WithId(Own(rows, tenant), row.id);
    assert found != [] ==> found[0] in found;
    SelectAppends(rows, stamped, Mine(tenant));
    SelectAppends(Own(rows, tenant), stamped, HasId(row.id));
    DeletedIsGone(kinds, db1, tenant, table, row.id, table + "'", (r: Row) => false);
  }

  // ---- Many tenants ----

  datatype Request = Request(tenant: Tenant, op: Op)

  function RunAll(kinds: string -> Kind, db: Database, requests: seq<Request>): Database
    decreases requests
  {
    if requests == [] then db else RunAll(kinds, After(kinds, db, requests[0].tenant, requests[0].op), requests[1..])
  }

  /** What one tenant is told over a run. */
  function Told(kinds: string -> Kind, db: Database, requests: seq<Request>, tenant: Tenant): seq<Result>
    decreases requests
  {
    if requests == [] then []
    else
      var r := requests[0];
      (if r.tenant == tenant then [ResultOf(kinds, db, tenant, r.op)] else [])
      + Told(kinds, After(kinds, db, r.tenant, r.op), requests[1..], tenant)
  }

  /** One request more changes the database as it says, and is answered to its tenant alone. */
  lemma {:induction false} RequestsAreServedInTurn(
    kinds: string -> Kind, db: Database, requests: seq<Request>, last: Request, tenant: Tenant)
    ensures var before := RunAll(kinds, db, requests);
      && RunAll(kinds, db, requests + [last]) == After(kinds, before, last.tenant, last.op)
      && Told(kinds, db, requests + [last], tenant)
         == Told(kinds, db, requests, tenant)
            + if last.tenant == tenant then [ResultOf(kinds, before, tenant, last.op)] else []
    decreases requests
  {
    if requests == [] {
      assert [last][1..] == [];
    } else {
      var r := requests[0];
      assert (requests + [last])[0] == r && (requests + [last])[1..] == requests[1..] + [last];
      RequestsAreServedInTurn(kinds, After(kinds, db, r.tenant, r.op), requests[1..], last, tenant);
    }
  }

  /** The run without the other tenants' requests. */
  function Alone(requests: seq<Request>, tenant: Tenant): seq<Request> {
    if requests == [] then []
    else (if requests[0].tenant == tenant then [requests[0]] else []) + Alone(requests[1..], tenant)
  }

  ghost predicate Alike(a: Database, b: Database, tenant: Tenant) {
    forall table :: Own(RowsIn(a, table), tenant) == Own(RowsIn(b, table), tenant)
  }

  /** No request of the tenant adds a row under an id the table holds at that moment. */
  ghost predicate AddsFresh(kinds: string -> Kind, db: Database, requests: seq<Request>, tenant: Tenant)
    decreases requests
  {
    requests != [] ==>
      && (requests[0].tenant == tenant ==> !Taken(requests[0].op, RowsIn(db, requests[0].op.table)))
      && AddsFresh(kinds, After(kinds, db, requests[0].tenant, requests[0].op), requests[1..], tenant)
  }

  lemma AlikeAfterOwn(kinds: string -> Kind, a: Database, b: Database, tenant: Tenant, op: Op)
    requires Alike(a, b, tenant) && Taken(op, RowsIn(a, op.table)) == Taken(op, RowsIn(b, op.table))
    ensures Alike(After(kinds, a, tenant, op), After(kinds, b, tenant, op), tenant)
  {
    OnlyOwnRowsMatter(kinds, a, b, tenant, op);
    var a1, b1 := After(kinds, a, tenant, op), After(kinds, b, tenant, op);
    forall table ensures Own(RowsIn(a1, table), tenant) == Own(RowsIn(b1, table), tenant) {
      if table != op.table { assert RowsIn(a1, table) == RowsIn(a, table) && RowsIn(b1, table) == RowsIn(b, table); }
    }
  }

  lemma AlikeAfterOther(kinds: string -> Kind, a: Database, b: Database, tenant: Tenant, other: Tenant, op: Op)
    requires Alike(a, b, tenant) && other != tenant
    ensures Alike(After(kinds, a, other, op), b, tenant)
  {
    var rows := RowsIn(a, op.table);
    if op.Add? { SelectAppends(rows, op.row.(tenant := Some(other)), Mine(tenant)); }
    if op.Delete? { SelectAfterRemoval(rows, Survives(other, op.id), Mine(tenant)); }
  }

  /**
   * Whatever other tenants do, and whatever rows they have, a tenant that adds only under free ids is told exactly what
   * it would be told alone.
   */
  lemma {:induction false} TenantsDoNotInterfere(
    kinds: string -> Kind, a: Database, b: Database, requests: seq<Request>, tenant: Tenant)
    requires Alike(a, b, tenant)
    requires AddsFresh(kinds, a, requests, tenant) && AddsFresh(kinds, b, Alone(requests, tenant), tenant)
    ensures Told(kinds, a, requests, tenant) == Told(kinds, b, Alone(requests, tenant), tenant)
    ensures Alike(RunAll(kinds, a, requests), RunAll(kinds, b, Alone(requests, tenant)), tenant)
    decreases requests
  {
    if requests == [] {
    } else {
      var r := requests[0];
      if r.tenant == tenant {
        assert Alone(requests, tenant)[0] == r && Alone(requests, tenant)[1..] == Alone(requests[1..], tenant);
        OnlyOwnRowsMatter(kinds, a, b, tenant, r.op);
        AlikeAfterOwn(kinds, a, b, tenant, r.op);
        TenantsDoNotInterfere(
          kinds, After(kinds, a, tenant, r.op), After(kinds, b, tenant, r.op), requests[1..], tenant);
      } else {
        assert Alone(requests, tenant) == Alone(requests[1..], tenant);
        AlikeAfterOther(kinds, a, b, tenant, r.tenant, r.op);
        TenantsDoNotInterfere(kinds, After(kinds, a, r.tenant, r.op), b, requests[1..], tenant);
      }
    }
  }

  /** Another tenant's row cannot be told from one that does not exist. */
  lemma ForeignRowsLookAbsent(kinds: string -> Kind, db: Database, tenant: Tenant, table: string, id: Id)
    requires kinds(table).Owned?
    ensures ResultOf(kinds, db, tenant, Get(table, id)) == Found(None)
       <==> forall r :: r in RowsIn(db, table) && r.id == id ==> r.tenant != Some(tenant)
    ensures ResultOf(kinds, db, tenant, Delete(table, id)) == Answer(false)
       <==> ResultOf(kinds, db, tenant, Get(table, id)) == Found(None)
  {
    SelectMembers(RowsIn(db, table), Mine(tenant));
    SelectMembers(Own(RowsIn(db, table), tenant), HasId(id));
    var mine := WithId(Own(RowsIn(db, table), tenant), id);
    assert mine != [] ==> mine[0] in mine;
  }

  // ---- The repository ----

  class Session {
    var db: Database

    constructor (db: Database)
      ensures this.db == db
    {
      this.db := db;
    }
  }

  class TenantRepository {
    const session: Session
    const tenant: Tenant
    const kinds: string -> Kind

    constructor (session: Session, tenant: Tenant, kinds: string -> Kind)
      ensures this.session == session && this.tenant == tenant && this.kinds == kinds
    {
      this.session, this.tenant, this.kinds := session, tenant, kinds;
    }

    /** The filtered select every read starts from. */
    function Scoped(table: string): seq<Row>
      reads session
    {
      Own(RowsIn(session.db, table), tenant)
    }

    method Get(table: string, id: Id) returns (r: Result)
      ensures r == ResultOf(kinds, session.db, tenant, Op.Get(table, id))
    {
      if !kinds(table).Owned? {
        return IsolationError;
      }
      return Found(First(WithId(Scoped(table), id)));
    }

    method List(table: string, limit: nat, offset: nat, order: Option<(Row, Row) -> bool>) returns (r: Result)
      ensures r == ResultOf(kinds, session.db, tenant, Op.List(table, limit, offset, order))
    {
      if !kinds(table).Owned? {
        return IsolationError;
      }
      var statement := Scoped(table);
      if order.Some? {
        statement := StableSort(order.value, statement);
      }
      return Page(Cut(statement, limit, offset));
    }

    method Count(table: string) returns (r: Result)
      ensures r == ResultOf(kinds, session.db, tenant, Op.Count(table))
    {
      if !kinds(table).Owned? {
        return IsolationError;
      }
      return Number(|Scoped(table)|);
    }

    method Exists(table: string, id: Id) returns (r: Result)
      ensures r == ResultOf(kinds, session.db, tenant, Op.Exists(table, id))
    {
      var found := Get(table, id);
      return if found.IsolationError? then IsolationError else Answer(found.found.Some?);
    }

    /** Stamps the tenant; a row of another tenant is refused rather than rewritten. */
    method Add(table: string, row: Row) returns (r: Result)
      modifies session
      ensures r == old(ResultOf(kinds, session.db, tenant, Op.Add(table, row)))
      ensures r.Added? ==> session.db == After(kinds, old(session.db), tenant, Op.Add(table, row))
      ensures !r.Added? ==> session.db == old(session.db)
    {
      if !kinds(table).Owned? || (row.tenant.Some? && row.tenant.value != tenant) {
        return IsolationError;
      }
      if exists i :: 0 <= i < |RowsIn(session.db, table)| && RowsIn(session.db, table)[i].id == row.id {
        return Conflict;
      }
      var stamped := row.(tenant := Some(tenant));
      session.db := session.db[table := RowsIn(session.db, table) + [stamped]];
      return Added(stamped);
    }

    /** One filtered delete. */
    method Delete(table: string, id: Id) returns (r: Result)
      modifies session
      ensures r == old(ResultOf(kinds, session.db, tenant, Op.Delete(table, id)))
      ensures session.db == After(kinds, old(session.db), tenant, Op.Delete(table, id))
    {
      if !kinds(table).Owned? {
        return IsolationError;
      }
      var rows := RowsIn(session.db, table);
      r := Answer(WithId(Scoped(table), id) != []);
      session.db := session.db[table := Select(rows, Survives(tenant, id))];
    }
  }
}

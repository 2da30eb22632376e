/** Two tasks of one row that each read it before the other commits. */
module MirrorPairs {
  // When both ask LiveKit for a new id, the first to commit makes its id the row's alone; the second, which has read
  // the row before that, commits its own over it without knowing, and the first id is named by nobody any more. When
  // at most one asks for a new id, whatever the row named before is gone by the time it is replaced.

  import opened Options
  import opened SipResources
  import opened MirrorJobs
  import opened MirrorTasks
  import opened MirrorOwnership
  import opened MirrorOrphans
  import opened MirrorCrashes

  predicate Over<C>(at: Progress<C>) {
    at.Saved? || at.Finished?
  }

  /** How far one of the two has come from the row they both read or will read; `creates` if it asks for a new id. */
  predicate OnItsWay<C(==)>(at: Progress<C>, row: Row<C>, creates: bool, held: set<string>, known: set<string>) {
    match at
    case Loaded(loaded) => loaded == row
    case Ready(loaded, mine, _) => loaded == row && mine == Pending(row)
    case Cleared(loaded, mine, _) => creates && loaded == row && mine == WithoutId(Pending(row)) && IdsOf(row) !! held
    case Pushed(loaded, mine, _) =>
      && loaded == row
      && (if creates then IdsOf(mine) !! known && IdsOf(mine) != {} && IdsOf(row) !! held
          else mine.sync.resourceId == row.sync.resourceId)
    case _ => true
  }

  /** The row's id is new, LiveKit holds it, and no other row and no task at all names it. */
  ghost predicate Sole<C>(
    rows: map<RowId, Row<C>>, tasks: seq<Task<C>>, held: set<string>, known: set<string>, k: RowId)
    requires k in rows
  {
    && Truthy(rows[k].sync.resourceId)
    && var id := rows[k].sync.resourceId.value;
       && id in held && id !in known
       && (forall u :: u in rows && u != k ==> id !in IdsOf(rows[u]))
       && (forall u :: 0 <= u < |tasks| ==> id !in Names(tasks[u].at))
  }

  datatype Two<C> = Two(i: nat, j: nat, row: Row<C>, iCreates: bool, jCreates: bool) {
    function Swapped(): Two<C> {
      Two(j, i, row, jCreates, iCreates)
    }
  }

  /** `known` are the ids handed out before the two began. */
  ghost predicate Paired<C>(
    rows: map<RowId, Row<C>>, tasks: seq<Task<C>>, held: set<string>, known: set<string>, p: Two<C>)
  {
    && p.i < |tasks| && p.j < |tasks| && p.i != p.j && p.row.id in rows && IdsOf(p.row) <= known
    && tasks[p.i].id == tasks[p.j].id == p.row.id
    && OnItsWay(tasks[p.i].at, p.row, p.iCreates, held, known)
    && OnItsWay(tasks[p.j].at, p.row, p.jCreates, held, known)
    && (tasks[p.i].at.Waiting? || tasks[p.j].at.Waiting? ==> rows[p.row.id] == p.row)
    && (!(p.iCreates && Over(tasks[p.i].at)) && !(p.jCreates && Over(tasks[p.j].at)) ==>
          IdsOf(rows[p.row.id]) == IdsOf(p.row))
    && (p.iCreates && p.jCreates && Over(tasks[p.i].at) != Over(tasks[p.j].at) ==>
          Sole(rows, tasks, held, known, p.row.id))
  }

  lemma PairSwaps<C>(rows: map<RowId, Row<C>>, tasks: seq<Task<C>>, held: set<string>, known: set<string>, p: Two<C>)
    requires Paired(rows, tasks, held, known, p)
    ensures Paired(rows, tasks, held, known, p.Swapped())
  {
  }

  lemma SoleStays<C>(
    rows: map<RowId, Row<C>>, rows': map<RowId, Row<C>>, tasks: seq<Task<C>>, u: nat, task': Task<C>,
    held: set<string>, held': set<string>, known: set<string>, newId: string, k: RowId)
    requires k in rows && Sole(rows, tasks, held, known, k) && newId !in held && u < |tasks|
    requires SideSteps(rows, rows', tasks[u], task', held, held', newId)
    requires rows'[k] == rows[k] && (tasks[u].id == k ==> Names(task'.at) <= Names(tasks[u].at) + {newId})
    ensures Sole(rows', tasks[u := task'], held', known, k)
  {
    var id, after := rows[k].sync.resourceId.value, tasks[u := task'];
    assert id in IdsOf(rows[k]);
    if tasks[u].id in rows && tasks[u].id != k { assert id !in IdsOf(rows[tasks[u].id]); }
    assert id !in Names(task'.at);
    forall v | 0 <= v < |after| ensures id !in Names(after[v].at) {
      if v != u { assert after[v] == tasks[v]; }
    }
  }

  /** A step of a task of another row. */
  lemma OthersKeepPair<C>(
    rows: map<RowId, Row<C>>, rows': map<RowId, Row<C>>, tasks: seq<Task<C>>, u: nat, task': Task<C>,
    held: set<string>, held': set<string>, known: set<string>, newId: string, p: Two<C>)
    requires Paired(rows, tasks, held, known, p) && newId !in held + known && held' <= held + {newId}
    requires u < |tasks| && tasks[u].id != p.row.id
    requires SideSteps(rows, rows', tasks[u], task', held, held', newId)
    ensures Paired(rows', tasks[u := task'], held', known, p)
  {
    var after := tasks[u := task'];
    assert after[p.i] == tasks[p.i] && after[p.j] == tasks[p.j];
    if p.iCreates && p.jCreates && Over(tasks[p.i].at) != Over(tasks[p.j].at) {
      SoleStays(rows, rows', tasks, u, task', held, held', known, newId, p.row.id);
    }
  }

  /** Tasks enqueued, and tasks of others that crash. */
  lemma EndingKeepsPair<C>(
    rows: map<RowId, Row<C>>, tasks: seq<Task<C>>, after: seq<Task<C>>, held: set<string>, known: set<string>,
    p: Two<C>)
    requires Paired(rows, tasks, held, known, p) && |after| >= |tasks|
    requires forall u :: 0 <= u < |after| ==>
      || after[u].at.Waiting? || after[u].at.Finished?
      || (u < |tasks| && after[u] == tasks[u])
    requires after[p.i] == tasks[p.i] && after[p.j] == tasks[p.j]
    ensures Paired(rows, after, held, known, p)
  {
  }

  /** What a step of one of the two does besides: it commits its new id, or its row's, or leaves the rows alone. */
  ghost predicate Commits<C>(rows: map<RowId, Row<C>>, rows': map<RowId, Row<C>>, task: Task<C>, task': Task<C>,
                             creates: bool)
    requires task.id in rows && task.id in rows'
  {
    if task.at.Pushed? then
      && Over(task'.at)
      && IdsOf(rows'[task.id]) == if creates then IdsOf(task.at.mine) else IdsOf(rows[task.id])
    else rows' == rows && (Over(task'.at) <==> Over(task.at)) && !task'.at.Waiting?
  }

  /** A step of the first of the two. */
  lemma OwnStepKeepsPair<C>(
    rows: map<RowId, Row<C>>, rows': map<RowId, Row<C>>, tasks: seq<Task<C>>, task': Task<C>, held: set<string>,
    held': set<string>, known: set<string>, newId: string, p: Two<C>)
    requires Paired(rows, tasks, held, known, p) && newId !in held + known && held' <= held + {newId}
    requires SideOwned(rows, tasks, held, {}) && SideSteps(rows, rows', tasks[p.i], task', held, held', newId)
    requires tasks[p.i].at.Pushed? ==> !tasks[p.j].at.Waiting? && held' == held
    requires task'.id == p.row.id && OnItsWay(task'.at, p.row, p.iCreates, held', known)
    requires Commits(rows, rows', tasks[p.i], task', p.iCreates)
    ensures Paired(rows', tasks[p.i := task'], held', known, p)
  {
    var task, after := tasks[p.i], tasks[p.i := task'];
    assert after[p.j] == tasks[p.j];
    if p.iCreates && p.jCreates && Over(task'.at) != Over(tasks[p.j].at) {
      if task.at.Pushed? {
        CommitIsSole(rows, rows', tasks, task', held, held', known, newId, p);
      } else {
        SoleStays(rows, rows', tasks, p.i, task', held, held', known, newId, p.row.id);
      }
    }
  }

  /** What the first to commit has made is then the row's alone. */
  lemma CommitIsSole<C>(
    rows: map<RowId, Row<C>>, rows': map<RowId, Row<C>>, tasks: seq<Task<C>>, task': Task<C>, held: set<string>,
    held': set<string>, known: set<string>, newId: string, p: Two<C>)
    requires Paired(rows, tasks, held, known, p) && newId !in held
    requires SideOwned(rows, tasks, held, {}) && SideSteps(rows, rows', tasks[p.i], task', held, held', newId)
    requires tasks[p.i].at.Pushed? && p.iCreates && Commits(rows, rows', tasks[p.i], task', p.iCreates) && held' == held
    ensures Sole(rows', tasks[p.i := task'], held', known, p.row.id)
  {
    var task, after := tasks[p.i], tasks[p.i := task'];
    var id :| id in IdsOf(task.at.mine);
    assert id in WillName(task.at) && OnlyTasks(rows, tasks, held, {}, p.i, id);
    assert id in IdsOf(rows'[p.row.id]);
    forall v | 0 <= v < |after| ensures id !in Names(after[v].at) {
      if v != p.i { assert after[v] == tasks[v]; }
    }
  }

  /** When both create, the second to commit leaves behind what the first one made, and nobody takes it up again. */
  lemma SecondCommitAbandons<C>(
    rows: map<RowId, Row<C>>, rows': map<RowId, Row<C>>, tasks: seq<Task<C>>, task': Task<C>, held: set<string>,
    held': set<string>, known: set<string>, newId: string, p: Two<C>) returns (id: string)
    requires Paired(rows, tasks, held, known, p) && p.iCreates && p.jCreates && newId !in held
    requires tasks[p.i].at.Pushed? && Over(tasks[p.j].at)
    requires SideSteps(rows, rows', tasks[p.i], task', held, held', newId)
    requires Commits(rows, rows', tasks[p.i], task', p.iCreates)
    ensures id in held && id !in known && Abandons(rows, tasks, p.i, id)
    ensures Lost(rows', tasks[p.i := task'], held', id)
  {
    id := rows[p.row.id].sync.resourceId.value;
    var after := tasks[p.i := task'];
    assert id in IdsOf(rows[p.row.id]) && id !in Names(tasks[p.i].at);
    forall u | 0 <= u < |tasks| ensures id !in WillName(tasks[u].at) {
      assert WillName(tasks[u].at) <= Names(tasks[u].at);
    }
    forall v | 0 <= v < |after| ensures id !in Names(after[v].at) {
      if v != p.i { assert after[v] == tasks[v]; }
    }
  }

  /** Unless both create, neither leaves anything behind. */
  lemma OneCreatesAbandonsNothing<C>(
    rows: map<RowId, Row<C>>, tasks: seq<Task<C>>, held: set<string>, known: set<string>, p: Two<C>, id: string)
    requires Paired(rows, tasks, held, known, p) && !(p.iCreates && p.jCreates)
    ensures !(id in held && Abandons(rows, tasks, p.i, id))
  {
  }
}

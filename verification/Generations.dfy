/**
 * The generation board: every actionable change takes the next generation and
 * freezes membership and every projection under it. Reports are read from the
 * frozen rows only.
 */
module Generations {
  import opened Common
  import opened Report

  datatype Priority = Normal | Urgent

  datatype GenTask = GenTask(gen: nat, task: TaskId)

  datatype Change = Change(task: TaskId, reason: Reason, priority: Priority, preserve: bool)

  /**
   * projections: task_projections; latest: the latest_generation metadata;
   * generations: pending_generations; changed: pending_generation_tasks;
   * members and snaps: the two per-generation snapshot tables.
   */
  datatype Board = Board(
    projections: map<TaskId, Projection>, latest: nat, generations: map<nat, Priority>,
    changed: map<GenTask, Reason>, members: set<GenTask>, snaps: map<GenTask, Projection>)

  const EMPTY := Board(map[], 0, map[], map[], {}, map[])

  function Frozen(ps: map<TaskId, Projection>, g: nat): map<GenTask, Projection> {
    map t | t in ps.Keys :: GenTask(g, t) := ps[t]
  }

  function FrozenKeys(ps: map<TaskId, Projection>, g: nat): set<GenTask> {
    set t | t in ps.Keys :: GenTask(g, t)
  }

  function Touch(p: Projection, g: nat, c: Change): Projection {
    if c.preserve then p.(generation := g) else p.(generation := g, reason := c.reason)
  }

  /** A bump fails on a primary-key conflict or a task without a projection. */
  predicate CanBump(b: Board, c: Change) {
    var g := b.latest + 1;
    && c.task in b.projections
    && g !in b.generations && GenTask(g, c.task) !in b.changed
    && FrozenKeys(b.projections, g) !! b.members && FrozenKeys(b.projections, g) !! b.snaps.Keys
  }

  /** The board with generation latest + 1 taken: its rows, the touched projection, and the frozen tables. */
  function NextBoard(b: Board, c: Change): Board
    requires c.task in b.projections
  {
    var g := b.latest + 1;
    var ps := b.projections[c.task := Touch(b.projections[c.task], g, c)];
    Board(ps, g, b.generations[g := c.priority], b.changed[GenTask(g, c.task) := c.reason],
          b.members + FrozenKeys(ps, g), b.snaps + Frozen(ps, g))
  }

  /** One actionable change takes the next generation; None when the transaction aborts. */
  function Bump(b: Board, c: Change): Option<Board> { if CanBump(b, c) then Some(NextBoard(b, c)) else None }

  /** A projection upsert leaves the row's generation alone. */
  function Upsert(b: Board, task: TaskId, p: Projection): Board {
    var g := if task in b.projections then b.projections[task].generation else 0;
    b.(projections := b.projections[task := p.(generation := g)])
  }

  // ---- reports ----------------------------------------------------------------

  predicate Superseded(b: Board, k: GenTask, through: nat) {
    exists l :: l in b.snaps && l.task == k.task && k.gen < l.gen <= through
  }

  /** The latest frozen row of every task up to a generation. */
  function LatestPerTask(b: Board, through: nat): set<GenTask> {
    set k | k in b.snaps && k.gen <= through && !Superseded(b, k, through)
  }

  /** The tasks some generation in (after, through] actually touched. */
  function WindowTasks(b: Board, after: nat, through: nat): set<TaskId> {
    set k | k in b.changed && after < k.gen <= through :: k.task
  }

  function Selected(b: Board, through: nat, after: Option<nat>): set<GenTask> {
    match after
    case None => LatestPerTask(b, through)
    case Some(a) =>
      var touched := WindowTasks(b, a, through);
      set k | k in LatestPerTask(b, through) && k.task in touched
  }

  predicate Before(k: GenTask, l: GenTask) { k.gen < l.gen || (k.gen == l.gen && k.task <= l.task) }

  predicate IsFirst(k: GenTask, s: set<GenTask>) { k in s && forall l :: l in s ==> Before(k, l) }

  lemma {:induction false} FirstExists(s: set<GenTask>)
    requires s != {}
    ensures exists k :: IsFirst(k, s)
  {
    var z :| z in s;
    if s == {z} {
      assert IsFirst(z, s);
    } else {
      FirstExists(s - {z});
      var m :| IsFirst(m, s - {z});
      var k := if Before(z, m) then z else m;
      forall l | l in s ensures Before(k, l) { assert l == z || l in s - {z}; }
      assert IsFirst(k, s);
    }
  }

  /** ORDER BY generation, task_id. */
  function InOrder(s: set<GenTask>): (r: seq<GenTask>)
    ensures forall k :: k in r <==> k in s
  {
    if s == {} then []
    else
      FirstExists(s);
      var k :| IsFirst(k, s);
      [k] + InOrder(s - {k})
  }

  function RowAt(b: Board, k: GenTask): Row
    requires k in b.snaps
  {
    var p := b.snaps[k];
    Row(k.task, k.gen, p.availability, p.reportState, p.verdict, p.reason, p.detail)
  }

  function Rows(b: Board, keys: seq<GenTask>): (r: seq<Row>)
    requires forall k :: k in keys ==> k in b.snaps
    ensures |r| == |keys| && forall i :: 0 <= i < |r| ==> r[i] == RowAt(b, keys[i])
  {
    if keys == [] then [] else [RowAt(b, keys[0])] + Rows(b, keys[1..])
  }

  /** Latest-per-task rows through a generation, optionally only of tasks touched after another. */
  function SnapshotRows(b: Board, through: nat, after: Option<nat>): seq<Row> {
    Rows(b, InOrder(Selected(b, through, after)))
  }

  /** How many distinct tasks have been frozen up to a generation. */
  function TrackedCount(b: Board, through: nat): nat {
    |set k | k in b.snaps && k.gen <= through :: k.task|
  }

  // ---- the invariant ----------------------------------------------------------

  ghost predicate TupleLegal(p: Projection) {
    && (p.reportState, p.verdict, p.reason) in REPORT_TUPLES
    && p.detail.report.state == p.reportState && p.detail.report.verdict == p.verdict
  }

  /** Some task was bumped to generation g. */
  predicate Bumped(b: Board, g: nat) { exists k :: k in b.changed && k.gen == g }

  ghost predicate ProjectionLegal(p: Projection, bound: nat) { TupleLegal(p) && p.generation <= bound }

  /** Generations are 1..latest, and each one records exactly the one task it touched. */
  ghost predicate NumberInv(b: Board) {
    && (forall g :: g in b.generations <==> 1 <= g <= b.latest)
    && (forall g :: 1 <= g <= b.latest ==> Bumped(b, g))
    && (forall k, l :: k in b.changed && l in b.changed && k.gen == l.gen ==> k == l)
    && (forall k :: k in b.changed ==> 1 <= k.gen <= b.latest && k in b.snaps)
  }

  /** A frozen task stays frozen in every later generation, and keeps its projection. */
  ghost predicate FrozenInv(b: Board) {
    && (forall k :: k in b.snaps ==> 1 <= k.gen <= b.latest && k.task in b.projections)
    && (forall k: GenTask, l: GenTask :: k in b.snaps && k.gen <= l.gen <= b.latest && k.task == l.task ==> l in b.snaps)
    && b.members == b.snaps.Keys
  }

  ghost predicate LegalInv(b: Board) {
    && (forall t :: t in b.projections ==> ProjectionLegal(b.projections[t], b.latest))
    && (forall k :: k in b.snaps ==> ProjectionLegal(b.snaps[k], k.gen))
  }

  ghost predicate BoardInv(b: Board) { NumberInv(b) && FrozenInv(b) && LegalInv(b) }

  /** The change keeps the touched projection inside the frozen matrix. */
  predicate ChangeLegal(b: Board, c: Change) {
    c.task in b.projections
    && (c.preserve || c.reason == b.projections[c.task].reason)
  }

  /** No primary key of the board ever collides: a bump needs only a projection to touch. */
  lemma BumpNeverCollides(b: Board, c: Change)
    requires BoardInv(b)
    ensures Bump(b, c).Some? <==> c.task in b.projections
  {
    var g := b.latest + 1;
    forall k | k in FrozenKeys(b.projections, g) ensures k !in b.snaps {
      assert k.gen == g;
    }
  }

  /** What one bump changes, table by table. */
  ghost predicate Bumps(b: Board, c: Change, n: Board) {
    && c.task in b.projections
    && n.latest == b.latest + 1
    && n.projections == b.projections[c.task := Touch(b.projections[c.task], n.latest, c)]
    && n.generations == b.generations[n.latest := c.priority]
    && n.changed == b.changed[GenTask(n.latest, c.task) := c.reason]
    && (forall k: GenTask :: k.gen != n.latest ==> (k in n.snaps <==> k in b.snaps))
    && (forall k: GenTask :: k.gen != n.latest && k in b.snaps ==> n.snaps[k] == b.snaps[k])
    && (forall k: GenTask :: k.gen == n.latest && k.task in n.projections ==> k in n.snaps && n.snaps[k] == n.projections[k.task])
    && (forall k: GenTask :: k.gen == n.latest && k in n.snaps ==> k.task in n.projections)
    && (b.members == b.snaps.Keys ==> n.members == n.snaps.Keys)
  }

  lemma FrozenFacts(ps: map<TaskId, Projection>, g: nat)
    ensures forall k: GenTask :: k in Frozen(ps, g) <==> k.gen == g && k.task in ps
    ensures forall k: GenTask :: k in Frozen(ps, g) ==> Frozen(ps, g)[k] == ps[k.task]
    ensures Frozen(ps, g).Keys == FrozenKeys(ps, g)
  {
    assert forall k: GenTask :: k in Frozen(ps, g) <==> k.gen == g && k.task in ps;
  }

  lemma BumpFacts(b: Board, c: Change)
    requires Bump(b, c).Some?
    requires FrozenInv(b)
    ensures Bumps(b, c, Bump(b, c).value)
  {
    var n := Bump(b, c).value;
    FrozenFacts(n.projections, n.latest);
  }

  lemma NumberStep(b: Board, c: Change, n: Board)
    requires NumberInv(b) && Bumps(b, c, n)
    ensures NumberInv(n)
  {
    assert GenTask(n.latest, c.task) in n.changed && GenTask(n.latest, c.task) in n.snaps;
    forall g | 1 <= g <= n.latest ensures Bumped(n, g) {
      if g <= b.latest {
        assert Bumped(b, g);
        var k :| k in b.changed && k.gen == g;
        assert k in n.changed;
      }
    }
  }

  lemma FrozenStep(b: Board, c: Change, n: Board)
    requires FrozenInv(b) && Bumps(b, c, n)
    ensures FrozenInv(n)
  {
  }

  lemma LegalStep(b: Board, c: Change, n: Board)
    requires LegalInv(b) && FrozenInv(b) && Bumps(b, c, n) && ChangeLegal(b, c)
    ensures LegalInv(n)
  {
    forall t | t in n.projections ensures ProjectionLegal(n.projections[t], n.latest) {
      assert ProjectionLegal(b.projections[t], b.latest);
    }
    forall k | k in n.snaps ensures ProjectionLegal(n.snaps[k], k.gen) {
      if k.gen != n.latest {
        assert n.snaps[k] == b.snaps[k];
      } else {
        assert ProjectionLegal(n.projections[k.task], n.latest);
      }
    }
  }

  lemma BumpKeepsInv(b: Board, c: Change)
    requires BoardInv(b) && ChangeLegal(b, c) && Bump(b, c).Some?
    ensures BoardInv(Bump(b, c).value)
  {
    var n := Bump(b, c).value;
    BumpFacts(b, c);
    NumberStep(b, c, n);
    FrozenStep(b, c, n);
    LegalStep(b, c, n);
  }

  lemma UpsertKeepsInv(b: Board, task: TaskId, p: Projection)
    requires BoardInv(b) && TupleLegal(p)
    ensures BoardInv(Upsert(b, task, p))
  {
    var n := Upsert(b, task, p);
    assert ProjectionLegal(n.projections[task], n.latest);
    forall g | 1 <= g <= n.latest ensures Bumped(n, g) { assert Bumped(b, g); }
  }

  /** The next board extends the former one: nothing frozen or recorded ever changes. */
  ghost predicate Extends(b: Board, n: Board) {
    && b.latest <= n.latest
    && (forall k: GenTask :: k.gen <= b.latest ==> (k in n.snaps <==> k in b.snaps))
    && (forall k :: k in b.snaps ==> k in n.snaps && n.snaps[k] == b.snaps[k])
    && (forall k: GenTask :: k.gen <= b.latest ==> (k in n.changed <==> k in b.changed))
    && (forall g :: g in b.generations ==> g in n.generations && n.generations[g] == b.generations[g])
    && b.projections.Keys <= n.projections.Keys
  }

  lemma ExtendsStep(b: Board, c: Change, n: Board)
    requires BoardInv(b) && Bumps(b, c, n)
    ensures Extends(b, n)
  {
  }

  lemma BumpExtends(b: Board, c: Change)
    requires BoardInv(b) && Bump(b, c).Some?
    ensures Extends(b, Bump(b, c).value)
  {
    BumpFacts(b, c);
    ExtendsStep(b, c, Bump(b, c).value);
  }

  lemma ExtendsTransitive(a: Board, b: Board, c: Board)
    requires Extends(a, b) && Extends(b, c)
    ensures Extends(a, c)
  {
  }

  // ---- what the reports say ---------------------------------------------------

  function Keyed(g: nat, tasks: set<TaskId>): set<GenTask> { set t | t in tasks :: GenTask(g, t) }

  function Tag(g: nat, tasks: seq<TaskId>): (r: seq<GenTask>)
    ensures |r| == |tasks| && forall i :: 0 <= i < |r| ==> r[i] == GenTask(g, tasks[i])
  {
    seq(|tasks|, i requires 0 <= i < |tasks| => GenTask(g, tasks[i]))
  }

  /** The tasks frozen at a generation. */
  function TasksAt(b: Board, g: nat): (r: set<TaskId>)
    ensures forall t :: t in r <==> GenTask(g, t) in b.snaps
  {
    set k | k in b.snaps && k.gen == g :: k.task
  }

  /** The rows of the given tasks exactly as frozen at g, in task order. */
  function RowsAt(b: Board, g: nat, tasks: set<TaskId>): seq<Row>
    requires tasks <= TasksAt(b, g)
  {
    SortedMembers(tasks);
    var keys := Tag(g, Sorted(tasks));
    assert forall i :: 0 <= i < |keys| ==> keys[i].task in tasks && keys[i] in b.snaps;
    Rows(b, keys)
  }

  lemma {:induction false} OrderWithinGeneration(g: nat, tasks: set<TaskId>)
    ensures InOrder(Keyed(g, tasks)) == Tag(g, Sorted(tasks))
  {
    if tasks == {} {
      assert Keyed(g, tasks) == {};
    } else {
      var least := Least(tasks);
      var keys := Keyed(g, tasks);
      assert GenTask(g, least) in keys;
      FirstExists(keys);
      forall k | IsFirst(k, keys) ensures k == GenTask(g, least) {
        assert Before(k, GenTask(g, least)) && k.task in tasks;
      }
      assert keys - {GenTask(g, least)} == Keyed(g, tasks - {least});
      OrderWithinGeneration(g, tasks - {least});
    }
  }

  /** Since no task ever leaves, the latest row of every task is the one frozen at the cursor itself. */
  lemma LatestIsAtCursor(b: Board, through: nat)
    requires BoardInv(b) && through <= b.latest
    ensures LatestPerTask(b, through) == Keyed(through, TasksAt(b, through))
  {
    forall k | k in LatestPerTask(b, through) ensures k.gen == through {
      assert GenTask(through, k.task) in b.snaps;
    }
    forall k | k in Keyed(through, TasksAt(b, through)) ensures k in LatestPerTask(b, through) {
      var l :| l in b.snaps && l.gen == through && l.task == k.task;
      assert l == k;
    }
    forall k | k in LatestPerTask(b, through) ensures k in Keyed(through, TasksAt(b, through)) {
      assert k.task in TasksAt(b, through);
    }
  }

  lemma TouchedAreFrozen(b: Board, after: nat, through: nat)
    requires BoardInv(b) && through <= b.latest
    ensures WindowTasks(b, after, through) <= TasksAt(b, through)
    ensures after < through ==> WindowTasks(b, after, through) != {}
  {
    forall t | t in WindowTasks(b, after, through) ensures t in TasksAt(b, through) {
      var k :| k in b.changed && after < k.gen <= through && k.task == t;
      assert GenTask(through, t) in b.snaps;
    }
    if after < through {
      assert Bumped(b, through);
      var k :| k in b.changed && k.gen == through;
      assert k.task in WindowTasks(b, after, through);
    }
  }

  /** The full report is exactly the rows frozen at the cursor. */
  lemma FullReport(b: Board, through: nat)
    requires BoardInv(b) && through <= b.latest
    ensures SnapshotRows(b, through, None) == RowsAt(b, through, TasksAt(b, through))
  {
    LatestIsAtCursor(b, through);
    OrderWithinGeneration(through, TasksAt(b, through));
  }

  /** The delta report is exactly the tasks touched in the window, each as frozen at its end. */
  lemma DeltaReport(b: Board, after: nat, through: nat)
    requires BoardInv(b) && through <= b.latest
    ensures WindowTasks(b, after, through) <= TasksAt(b, through)
    ensures SnapshotRows(b, through, Some(after)) == RowsAt(b, through, WindowTasks(b, after, through))
    ensures after < through ==> SnapshotRows(b, through, Some(after)) != []
  {
    var touched := WindowTasks(b, after, through);
    TouchedAreFrozen(b, after, through);
    LatestIsAtCursor(b, through);
    assert Selected(b, through, Some(after)) == Keyed(through, touched);
    OrderWithinGeneration(through, touched);
    SortedMembers(touched);
  }

  lemma RowsAtLegal(b: Board, g: nat, tasks: set<TaskId>)
    requires BoardInv(b) && tasks <= TasksAt(b, g)
    ensures RepliesLegal(RowsAt(b, g, tasks), g)
    ensures |RowsAt(b, g, tasks)| == |tasks|
  {
    SortedMembers(tasks);
    SortedAscends(tasks);
    var rows, sorted := RowsAt(b, g, tasks), Sorted(tasks);
    forall i | 0 <= i < |rows| ensures RowLegal(rows[i]) && rows[i].generation <= g && rows[i].task == sorted[i] {
      var k := GenTask(g, sorted[i]);
      assert rows[i] == RowAt(b, k) && k in b.snaps && ProjectionLegal(b.snaps[k], k.gen);
    }
  }

  /** Each report of a reply shows one task exactly as its row was frozen, and every task asked for has one. */
  lemma ReportsShowFrozen(b: Board, g: nat, tasks: set<TaskId>)
    requires tasks <= TasksAt(b, g)
    ensures var rows := RowsAt(b, g, tasks);
            && (forall i :: 0 <= i < |rows| ==> rows[i].task in tasks && ShowsFrozen(b, g, rows[i]))
            && (forall t :: t in tasks ==> exists i :: 0 <= i < |rows| && rows[i].task == t)
            && (forall i, j :: 0 <= i < j < |rows| ==> rows[i].task < rows[j].task)
  {
    SortedMembers(tasks);
    SortedAscends(tasks);
    var rows, sorted := RowsAt(b, g, tasks), Sorted(tasks);
    forall i | 0 <= i < |rows| ensures rows[i].task == sorted[i] && ShowsFrozen(b, g, rows[i]) {
      assert rows[i] == RowAt(b, GenTask(g, sorted[i])) && sorted[i] in tasks;
    }
    forall t | t in tasks ensures exists i :: 0 <= i < |rows| && rows[i].task == t {
      var i :| 0 <= i < |sorted| && sorted[i] == t;
      assert rows[i].task == t;
    }
  }

  /** Every column of the report is that of the frozen projection. */
  predicate ShowsFrozen(b: Board, g: nat, r: Row) {
    var k := GenTask(g, r.task);
    && k in b.snaps && r.generation == g
    && r.availability == b.snaps[k].availability && r.reportState == b.snaps[k].reportState
    && r.verdict == b.snaps[k].verdict && r.reason == b.snaps[k].reason && r.detail == b.snaps[k].detail
  }

  lemma TrackedIsFrozen(b: Board, through: nat)
    requires BoardInv(b) && through <= b.latest
    ensures TrackedCount(b, through) == |TasksAt(b, through)|
  {
    var all := set k | k in b.snaps && k.gen <= through :: k.task;
    forall t | t in all ensures t in TasksAt(b, through) {
      var k :| k in b.snaps && k.gen <= through && k.task == t;
      assert GenTask(through, t) in b.snaps;
    }
    forall t | t in TasksAt(b, through) ensures t in all {
      var k :| k in b.snaps && k.gen == through && k.task == t;
    }
    assert all == TasksAt(b, through);
  }

  lemma {:induction false} RowsAgree(b: Board, n: Board, keys: seq<GenTask>)
    requires forall k :: k in keys ==> k in b.snaps && k in n.snaps && n.snaps[k] == b.snaps[k]
    ensures Rows(n, keys) == Rows(b, keys)
  {
  }

  /** N+1 never leaks into N: a report through a reached generation is the same for ever after. */
  lemma ReportsAreImmutable(b: Board, n: Board, through: nat, after: Option<nat>)
    requires Extends(b, n) && through <= b.latest
    ensures SnapshotRows(n, through, after) == SnapshotRows(b, through, after)
    ensures TrackedCount(n, through) == TrackedCount(b, through)
  {
    forall k | k in b.snaps && k.gen <= through ensures Superseded(b, k, through) <==> Superseded(n, k, through) {
      if Superseded(n, k, through) {
        var l :| l in n.snaps && l.task == k.task && k.gen < l.gen <= through;
        assert l in b.snaps;
      }
    }
    assert LatestPerTask(n, through) == LatestPerTask(b, through);
    if after.Some? {
      assert WindowTasks(n, after.value, through) == WindowTasks(b, after.value, through);
    }
    assert Selected(n, through, after) == Selected(b, through, after);
    RowsAgree(b, n, InOrder(Selected(b, through, after)));
    assert (set k | k in n.snaps && k.gen <= through :: k.task) == (set k | k in b.snaps && k.gen <= through :: k.task);
  }
}

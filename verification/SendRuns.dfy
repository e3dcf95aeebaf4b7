/** Any number of observers delivering follow-ups over one queue, with daemon crashes. */
module SendRuns {
  import opened Common
  import opened Report
  import opened PendingSends

  type ProcessId = string

  /** What an observer does with the row it claimed. */
  datatype Stage = Holding | Retiring | Answered(error: Option<string>)

  datatype Flight = Flight(row: SendRow, stage: Stage)

  /** claims: positions claimed, in order; sent: ids whose text was submitted to a pane, in order. */
  datatype Machine = Machine(rows: seq<SendRow>, flights: map<ProcessId, Flight>, claims: seq<nat>, sent: seq<string>)

  const EMPTY := Machine([], map[], [], [])

  datatype Move =
    | Enqueue(id: string, task: TaskId, payload: string, now: int, timeout: int)
    | ClaimReady(p: ProcessId, task: TaskId)
    | ClaimGone(p: ProcessId, task: TaskId)
    | Submit(p: ProcessId, answer: Option<string>)
    | Resolve(p: ProcessId)
    | Sweep(now: int, age: int)
    | Crash

  function ClaimMove(m: Machine, p: ProcessId, task: TaskId, stage: Stage): Machine {
    match PendingAt(m.rows, task)
    case None => m
    case Some(k) => m.(rows := ClaimedAt(m.rows, k), flights := m.flights[p := Flight(m.rows[k], stage)], claims := m.claims + [k])
  }

  function Outcome(stage: Stage): (SendState, Option<string>) {
    match stage
    case Answered(None) => (Delivered, None)
    case Answered(Some(error)) => (Failed, Some(error))
    case _ => (Failed, Some("pane is gone"))
  }

  function Step(m: Machine, move: Move): Machine {
    match move
    case Enqueue(id, task, payload, now, timeout) =>
      if Has(m.rows, id) then m else m.(rows := Enqueued(m.rows, id, task, payload, now, timeout))
    case ClaimReady(p, task) => if p in m.flights then m else ClaimMove(m, p, task, Holding)
    case ClaimGone(p, task) => if p in m.flights then m else ClaimMove(m, p, task, Retiring)
    case Submit(p, answer) =>
      if p in m.flights && m.flights[p].stage.Holding? then
        m.(flights := m.flights[p := Flight(m.flights[p].row, Answered(answer))], sent := m.sent + [m.flights[p].row.id])
      else m
    case Resolve(p) =>
      if p in m.flights && !m.flights[p].stage.Holding? then
        var (state, error) := Outcome(m.flights[p].stage);
        m.(rows := Resolved(m.rows, m.flights[p].row.id, state, error), flights := m.flights - {p})
      else m
    case Sweep(now, age) => m.(rows := Swept(m.rows, now, age))
    case Crash => m.(flights := map[])
  }

  function Run(m: Machine, moves: seq<Move>): Machine {
    if moves == [] then m else Step(Run(m, moves[..|moves| - 1]), moves[|moves| - 1])
  }

  // ---- the invariant ------------------------------------------------------------------

  predicate ClaimedId(m: Machine, id: string) {
    exists k :: k in m.claims && k < |m.rows| && m.rows[k].id == id
  }

  predicate SameTask(m: Machine, i: nat, j: nat) {
    i < |m.rows| && j < |m.rows| && m.rows[i].task == m.rows[j].task
  }

  /** Claimed rows are not pending, and claims of one task go up the queue. */
  ghost predicate ClaimsInv(m: Machine) {
    && (forall k :: k in m.claims ==> k < |m.rows| && !m.rows[k].state.Pending?)
    && (forall i, j :: 0 <= i < j < |m.claims| && SameTask(m, m.claims[i], m.claims[j]) ==>
          m.claims[i] < m.claims[j])
  }

  ghost predicate FlightsInv(m: Machine) {
    && (forall p :: p in m.flights ==> ClaimedId(m, m.flights[p].row.id))
    && (forall p, q :: p in m.flights && q in m.flights && p != q ==> m.flights[p].row.id != m.flights[q].row.id)
  }

  ghost predicate SentInv(m: Machine) {
    && (forall id :: id in m.sent ==> ClaimedId(m, id))
    && (forall i, j :: 0 <= i < j < |m.sent| ==> m.sent[i] != m.sent[j])
    && (forall p :: p in m.flights && m.flights[p].stage.Holding? ==> m.flights[p].row.id !in m.sent)
  }

  ghost predicate MachineInv(m: Machine) { QueueInv(m.rows) && ClaimsInv(m) && FlightsInv(m) && SentInv(m) }

  /** Rows keep their position, id, task and text, and no row goes back to pending. */
  ghost predicate Continues(a: seq<SendRow>, b: seq<SendRow>) {
    && |a| <= |b|
    && forall i :: 0 <= i < |a| ==>
         b[i].id == a[i].id && b[i].task == a[i].task && b[i].payload == a[i].payload
         && (b[i].state.Pending? ==> a[i] == b[i])
  }

  /** Rows that only continue keep the claims valid. */
  lemma ContinuesKeeps(m: Machine, rows: seq<SendRow>)
    requires MachineInv(m) && Continues(m.rows, rows) && QueueInv(rows)
    ensures MachineInv(m.(rows := rows))
  {
    var n := m.(rows := rows);
    forall id | ClaimedId(m, id) ensures ClaimedId(n, id) {
      var k :| k in m.claims && k < |m.rows| && m.rows[k].id == id;
      assert rows[k].id == id;
    }
  }

  lemma EnqueueKeeps(m: Machine, id: string, task: TaskId, payload: string, now: int, timeout: int)
    requires MachineInv(m) && !Has(m.rows, id)
    ensures var rows := Enqueued(m.rows, id, task, payload, now, timeout);
            Continues(m.rows, rows) && MachineInv(m.(rows := rows))
  {
    ContinuesKeeps(m, Enqueued(m.rows, id, task, payload, now, timeout));
  }

  lemma ClaimExtends(m: Machine, p: ProcessId, task: TaskId, stage: Stage)
    requires MachineInv(m) && PendingAt(m.rows, task).Some?
    ensures var n := ClaimMove(m, p, task, stage);
            && QueueInv(n.rows) && Continues(m.rows, n.rows) && ClaimsInv(n)
            && (forall id :: ClaimedId(n, id) <==> ClaimedId(m, id) || id == m.rows[PendingAt(m.rows, task).value].id)
  {
    var k := PendingAt(m.rows, task).value;
    var n := ClaimMove(m, p, task, stage);
    ContinuesKeeps(m, ClaimedAt(m.rows, k));
    assert n.claims[|m.claims|] == k && n.rows[k].id == m.rows[k].id;
    forall id | ClaimedId(m, id) ensures ClaimedId(n, id) {
      var j :| j in m.claims && j < |m.rows| && m.rows[j].id == id;
      assert j in n.claims && n.rows[j].id == id;
    }
    forall i, j | 0 <= i < j < |n.claims| && SameTask(n, n.claims[i], n.claims[j])
      ensures n.claims[i] < n.claims[j]
    {
      assert n.claims[i] in m.claims && SameTask(m, n.claims[i], n.claims[j]);
    }
  }

  lemma ClaimKeeps(m: Machine, p: ProcessId, task: TaskId, stage: Stage)
    requires MachineInv(m) && p !in m.flights
    ensures MachineInv(ClaimMove(m, p, task, stage)) && Continues(m.rows, ClaimMove(m, p, task, stage).rows)
  {
    if PendingAt(m.rows, task).Some? {
      var k := PendingAt(m.rows, task).value;
      ClaimExtends(m, p, task, stage);
      NotClaimed(m, k);
      TakeOff(m, ClaimMove(m, p, task, stage), p, Flight(m.rows[k], stage));
    }
  }

  /** A new flight for an id never claimed before. */
  lemma TakeOff(m: Machine, n: Machine, p: ProcessId, flight: Flight)
    requires FlightsInv(m) && SentInv(m) && p !in m.flights && !ClaimedId(m, flight.row.id)
    requires n.flights == m.flights[p := flight] && n.sent == m.sent
    requires forall id :: ClaimedId(n, id) <==> ClaimedId(m, id) || id == flight.row.id
    ensures FlightsInv(n) && SentInv(n)
  {
  }

  /** A pending row's id was never claimed. */
  lemma NotClaimed(m: Machine, k: nat)
    requires MachineInv(m) && k < |m.rows| && m.rows[k].state.Pending?
    ensures !ClaimedId(m, m.rows[k].id)
  {
  }

  lemma SubmitKeeps(m: Machine, p: ProcessId, answer: Option<string>)
    requires MachineInv(m) && p in m.flights && m.flights[p].stage.Holding?
    ensures MachineInv(Step(m, Submit(p, answer))) && Step(m, Submit(p, answer)).rows == m.rows
  {
    var n := Step(m, Submit(p, answer));
    forall id ensures ClaimedId(n, id) == ClaimedId(m, id) {}
    FlightAnswers(m, n, p, answer);
  }

  /** A held text goes out once, and its flight holds nothing afterwards. */
  lemma FlightAnswers(m: Machine, n: Machine, p: ProcessId, answer: Option<string>)
    requires FlightsInv(m) && SentInv(m) && p in m.flights && m.flights[p].stage.Holding?
    requires n.flights == m.flights[p := Flight(m.flights[p].row, Answered(answer))]
    requires n.sent == m.sent + [m.flights[p].row.id] && forall id :: ClaimedId(n, id) == ClaimedId(m, id)
    ensures FlightsInv(n) && SentInv(n)
  {
  }

  /** Landing a flight touches only the rows and the flight itself. */
  lemma LandKeeps(m: Machine, p: ProcessId)
    requires MachineInv(m) && p in m.flights
    ensures MachineInv(m.(flights := m.flights - {p}))
  {
    var n := m.(flights := m.flights - {p});
    forall id ensures ClaimedId(n, id) == ClaimedId(m, id) {}
  }

  lemma ResolveMoveKeeps(m: Machine, p: ProcessId)
    requires MachineInv(m) && p in m.flights && !m.flights[p].stage.Holding?
    ensures MachineInv(Step(m, Resolve(p))) && Continues(m.rows, Step(m, Resolve(p)).rows)
  {
    var (state, error) := Outcome(m.flights[p].stage);
    var id := m.flights[p].row.id;
    ResolveKeeps(m.rows, id, state, error);
    ContinuesKeeps(m, Resolved(m.rows, id, state, error));
    LandKeeps(m.(rows := Resolved(m.rows, id, state, error)), p);
  }

  lemma SweepKeeps(m: Machine, now: int, age: int)
    requires MachineInv(m)
    ensures MachineInv(m.(rows := Swept(m.rows, now, age))) && Continues(m.rows, Swept(m.rows, now, age))
  {
    ContinuesKeeps(m, Swept(m.rows, now, age));
  }

  lemma CrashKeeps(m: Machine)
    requires MachineInv(m)
    ensures MachineInv(m.(flights := map[]))
  {
    forall id ensures ClaimedId(m.(flights := map[]), id) == ClaimedId(m, id) {}
  }

  lemma ContinuesSame(rows: seq<SendRow>)
    ensures Continues(rows, rows)
  {
  }

  /** Steps of one observer. */
  lemma ObserverKeeps(m: Machine, move: Move)
    requires MachineInv(m) && (move.ClaimReady? || move.ClaimGone? || move.Submit? || move.Resolve?)
    ensures MachineInv(Step(m, move)) && Continues(m.rows, Step(m, move).rows)
  {
    ContinuesSame(m.rows);
    match move
    case ClaimReady(p, task) => if p !in m.flights { ClaimKeeps(m, p, task, Holding); }
    case ClaimGone(p, task) => if p !in m.flights { ClaimKeeps(m, p, task, Retiring); }
    case Submit(p, answer) => if p in m.flights && m.flights[p].stage.Holding? { SubmitKeeps(m, p, answer); }
    case Resolve(p) => if p in m.flights && !m.flights[p].stage.Holding? { ResolveMoveKeeps(m, p); }
  }

  lemma StepKeeps(m: Machine, move: Move)
    requires MachineInv(m)
    ensures MachineInv(Step(m, move)) && Continues(m.rows, Step(m, move).rows)
  {
    match move
    case Enqueue(id, task, payload, now, timeout) =>
      ContinuesSame(m.rows);
      if !Has(m.rows, id) { EnqueueKeeps(m, id, task, payload, now, timeout); }
    case Sweep(now, age) => SweepKeeps(m, now, age);
    case Crash => CrashKeeps(m); ContinuesSame(m.rows);
    case _ => ObserverKeeps(m, move);
  }

  /** Over any moves a row keeps its identity, and once it has left pending it stays out. */
  lemma {:induction false} NeverPendingAgain(m: Machine, moves: seq<Move>)
    requires MachineInv(m)
    ensures MachineInv(Run(m, moves)) && Continues(m.rows, Run(m, moves).rows)
  {
    if moves != [] {
      NeverPendingAgain(m, moves[..|moves| - 1]);
      StepKeeps(Run(m, moves[..|moves| - 1]), moves[|moves| - 1]);
    }
  }

  // ---- what observers can and cannot do ----------------------------------------------------

  /**
   * From an empty queue, whatever observers, sweeps and crashes interleave:
   * a task never has two open rows, no text is submitted twice, every submitted
   * text was claimed, and a task's rows are claimed once each, in queue order.
   */
  lemma SubmittedAtMostOnce(moves: seq<Move>)
    ensures var m := Run(EMPTY, moves);
            && (forall i, j :: 0 <= i < j < |m.rows| && m.rows[i].task == m.rows[j].task ==> !m.rows[i].state.Open())
            && (forall i, j :: 0 <= i < j < |m.sent| ==> m.sent[i] != m.sent[j])
            && (forall id :: id in m.sent ==> ClaimedId(m, id))
            && (forall k :: k in m.claims ==> k < |m.rows|)
            && (forall i, j :: 0 <= i < j < |m.claims| && SameTask(m, m.claims[i], m.claims[j]) ==>
                  m.claims[i] < m.claims[j])
  {
    NeverPendingAgain(EMPTY, moves);
  }

  predicate LeftUnclaimed(m: Machine, i: nat) { i < |m.rows| && !m.rows[i].state.Pending? && i !in m.claims }

  lemma UnclaimedNotSent(m: Machine, i: nat)
    requires MachineInv(m) && LeftUnclaimed(m, i)
    ensures m.rows[i].id !in m.sent
  {
    assert !ClaimedId(m, m.rows[i].id);
  }

  lemma StaysUnclaimed(m: Machine, move: Move, i: nat)
    requires MachineInv(m) && LeftUnclaimed(m, i)
    ensures LeftUnclaimed(Step(m, move), i)
  {
    StepKeeps(m, move);
  }

  /** A row that left pending without being claimed is never claimed, so its text is never submitted. */
  lemma {:induction false} SupersededNeverSent(m: Machine, moves: seq<Move>, i: nat)
    requires MachineInv(m) && LeftUnclaimed(m, i)
    ensures LeftUnclaimed(Run(m, moves), i) && m.rows[i].id !in Run(m, moves).sent
  {
    NeverPendingAgain(m, moves);
    if moves != [] {
      NeverPendingAgain(m, moves[..|moves| - 1]);
      SupersededNeverSent(m, moves[..|moves| - 1], i);
      StaysUnclaimed(Run(m, moves[..|moves| - 1]), moves[|moves| - 1], i);
    }
    UnclaimedNotSent(Run(m, moves), i);
  }

  /** Enqueueing retires the pending row it replaces before that row can be claimed. */
  lemma EnqueueSupersedes(m: Machine, moves: seq<Move>, i: nat, id: string, payload: string, now: int, timeout: int)
    requires MachineInv(m) && i < |m.rows| && m.rows[i].state.Pending? && !Has(m.rows, id)
    ensures var n := Step(m, Enqueue(id, m.rows[i].task, payload, now, timeout));
            && n.rows[i].state.Cancelled? && PendingAt(n.rows, m.rows[i].task) == Some(|m.rows|)
            && m.rows[i].id !in Run(n, moves).sent
  {
    NotClaimed(m, i);
    EnqueueKeeps(m, id, m.rows[i].task, payload, now, timeout);
    SupersededNeverSent(Step(m, Enqueue(id, m.rows[i].task, payload, now, timeout)), moves, i);
  }

  // ---- which texts may still land ----------------------------------------------------------

  /** Some observer has claimed the text and has yet to submit it. */
  predicate Held(m: Machine, id: string) {
    exists p :: p in m.flights && m.flights[p].row.id == id && m.flights[p].stage.Holding?
  }

  /** The text has not been submitted so far, and some run from here submits it. */
  ghost predicate MayLand(m: Machine, id: string) {
    id !in m.sent && exists moves :: id in Run(m, moves).sent
  }

  /** A row that is neither pending, nor held, nor submitted. */
  predicate OutOfReach(m: Machine, i: nat) {
    i < |m.rows| && !m.rows[i].state.Pending? && m.rows[i].id !in m.sent && !Held(m, m.rows[i].id)
  }

  lemma ClaimElsewhere(m: Machine, p: ProcessId, task: TaskId, stage: Stage, i: nat)
    requires MachineInv(m) && p !in m.flights && OutOfReach(m, i)
    ensures !Held(ClaimMove(m, p, task, stage), m.rows[i].id)
  {
    var n, id := ClaimMove(m, p, task, stage), m.rows[i].id;
    var found := PendingAt(m.rows, task);
    if found.Some? {
      assert m.rows[found.value].id != id;
      assert forall q :: q in m.flights ==> n.flights[q] == m.flights[q];
    }
  }

  lemma NotHeldAfter(m: Machine, move: Move, i: nat)
    requires MachineInv(m) && OutOfReach(m, i)
    ensures !Held(Step(m, move), m.rows[i].id)
  {
    var id := m.rows[i].id;
    assert forall p :: p in m.flights && m.flights[p].stage.Holding? ==> m.flights[p].row.id != id;
    match move
    case ClaimReady(p, task) => if p !in m.flights { ClaimElsewhere(m, p, task, Holding, i); }
    case ClaimGone(p, task) => if p !in m.flights { ClaimElsewhere(m, p, task, Retiring, i); }
    case _ =>
  }

  lemma NotSentAfter(m: Machine, move: Move, i: nat)
    requires OutOfReach(m, i)
    ensures m.rows[i].id !in Step(m, move).sent
  {
    if move.Submit? && move.p in m.flights && m.flights[move.p].stage.Holding? {
      assert m.flights[move.p].row.id != m.rows[i].id;
    }
  }

  lemma StaysOutOfReach(m: Machine, move: Move, i: nat)
    requires MachineInv(m) && OutOfReach(m, i)
    ensures OutOfReach(Step(m, move), i) && Step(m, move).rows[i].id == m.rows[i].id
  {
    StepKeeps(m, move);
    NotHeldAfter(m, move, i);
    NotSentAfter(m, move, i);
  }

  lemma {:induction false} NeverReached(m: Machine, moves: seq<Move>, i: nat)
    requires MachineInv(m) && OutOfReach(m, i)
    ensures OutOfReach(Run(m, moves), i) && Run(m, moves).rows[i].id == m.rows[i].id
  {
    if moves != [] {
      NeverPendingAgain(m, moves[..|moves| - 1]);
      NeverReached(m, moves[..|moves| - 1], i);
      StaysOutOfReach(Run(m, moves[..|moves| - 1]), moves[|moves| - 1], i);
    }
  }

  lemma RunOne(m: Machine, move: Move)
    ensures Run(m, [move]) == Step(m, move)
  {
    assert [move][..0] == [];
  }

  lemma RunSnoc(m: Machine, moves: seq<Move>, move: Move)
    ensures Run(m, moves + [move]) == Step(Run(m, moves), move)
  {
    assert (moves + [move])[..|moves|] == moves;
  }

  lemma HeldMayLand(m: Machine, id: string)
    requires MachineInv(m) && Held(m, id)
    ensures MayLand(m, id)
  {
    var p :| p in m.flights && m.flights[p].row.id == id && m.flights[p].stage.Holding?;
    RunOne(m, Submit(p, None));
    assert id in Run(m, [Submit(p, None)]).sent;
  }

  /** A pending text can always land, even if every observer of this moment dies first. */
  lemma PendingMayLand(m: Machine, i: nat)
    requires MachineInv(m) && i < |m.rows| && m.rows[i].state.Pending?
    ensures MayLand(m, m.rows[i].id)
  {
    var task, id := m.rows[i].task, m.rows[i].id;
    NotClaimed(m, i);
    var k := PendingAt(m.rows, task).value;
    assert k == i;
    var crashed := Step(m, Crash);
    var claimed := Step(crashed, ClaimReady("a", task));
    assert claimed.flights == map["a" := Flight(m.rows[i], Holding)];
    RunOne(m, Crash);
    RunSnoc(m, [Crash], ClaimReady("a", task));
    RunSnoc(m, [Crash] + [ClaimReady("a", task)], Submit("a", None));
    assert id in Run(m, [Crash] + [ClaimReady("a", task)] + [Submit("a", None)]).sent;
  }

  /**
   * From any sound state a text that was not submitted may still land exactly
   * when its row is pending or some observer holds it: whatever its row has
   * been marked since its claim, and nothing else, makes no difference.
   */
  lemma MayLandIff(m: Machine, i: nat)
    requires MachineInv(m) && i < |m.rows|
    ensures MayLand(m, m.rows[i].id) <==> m.rows[i].state.Pending? || Held(m, m.rows[i].id)
  {
    var id := m.rows[i].id;
    if m.rows[i].state.Pending? {
      PendingMayLand(m, i);
    } else if Held(m, id) {
      HeldMayLand(m, id);
    } else if id !in m.sent {
      forall moves ensures id !in Run(m, moves).sent { NeverReached(m, moves, i); }
    }
  }

  /**
   * Latest wins, exactly: the older text never lands after an enqueue that
   * supersedes it, if and only if no observer held it at that moment.
   */
  lemma SupersededMayLandIff(m: Machine, i: nat, id: string, payload: string, now: int, timeout: int)
    requires MachineInv(m) && i < |m.rows| && m.rows[i].state.Open() && !Has(m.rows, id)
    ensures var n := Step(m, Enqueue(id, m.rows[i].task, payload, now, timeout));
            && n.rows[i].state.Cancelled? && n.rows[i].id == m.rows[i].id
            && (MayLand(n, m.rows[i].id) <==> Held(m, m.rows[i].id))
  {
    EnqueueKeeps(m, id, m.rows[i].task, payload, now, timeout);
    var n := Step(m, Enqueue(id, m.rows[i].task, payload, now, timeout));
    assert n.flights == m.flights;
    MayLandIff(n, i);
    assert Held(n, m.rows[i].id) <==> Held(m, m.rows[i].id);
  }

  /**
   * A sweep that fails a row as abandoned is right that its text is settled
   * if and only if no observer held it: the row's age says nothing of its claim.
   */
  lemma SweptMayLandIff(m: Machine, i: nat, now: int, age: int)
    requires MachineInv(m) && i < |m.rows| && (Stale(m.rows[i], now, age) || Overdue(m.rows[i], now))
    ensures var n := Step(m, Sweep(now, age));
            && n.rows[i].state.Failed? && n.rows[i].id == m.rows[i].id
            && (MayLand(n, m.rows[i].id) <==> Held(m, m.rows[i].id))
  {
    SweepKeeps(m, now, age);
    var n := Step(m, Sweep(now, age));
    MayLandIff(n, i);
    assert Held(n, m.rows[i].id) <==> Held(m, m.rows[i].id);
  }

  lemma ResolveLands(m: Machine, p: ProcessId, i: nat)
    requires i < |m.rows| && p in m.flights
    requires m.flights[p].row.id == m.rows[i].id && m.flights[p].stage == Answered(None)
    ensures var n := Step(m, Resolve(p));
            |n.rows| == |m.rows| && n.rows[i].state.Delivered? && n.rows[i].id == m.rows[i].id && n.sent == m.sent
  {
  }

  lemma SubmitSends(m: Machine, p: ProcessId)
    requires p in m.flights && m.flights[p].stage.Holding?
    ensures var n := Step(m, Submit(p, None));
            && n.rows == m.rows && n.sent == m.sent + [m.flights[p].row.id]
            && p in n.flights && n.flights[p] == Flight(m.flights[p].row, Answered(None))
  {
  }

  /** A held text that is submitted successfully ends recorded delivered, whatever its row was marked before. */
  lemma HeldEndsDelivered(m: Machine, p: ProcessId, i: nat)
    requires i < |m.rows| && p in m.flights
    requires m.flights[p].row.id == m.rows[i].id && m.flights[p].stage.Holding?
    ensures var n := Run(m, [Submit(p, None)] + [Resolve(p)]);
            |n.rows| == |m.rows| && n.rows[i].state.Delivered? && n.rows[i].id == m.rows[i].id && m.rows[i].id in n.sent
  {
    RunOne(m, Submit(p, None));
    RunSnoc(m, [Submit(p, None)], Resolve(p));
    SubmitSends(m, p);
    ResolveLands(Step(m, Submit(p, None)), p, i);
  }

  /** Superseded, or swept as abandoned, while an observer holds it: submitted all the same, and recorded delivered. */
  lemma ClaimedMayStillLand(m: Machine, p: ProcessId, i: nat, move: Move)
    requires MachineInv(m) && i < |m.rows| && p in m.flights
    requires m.flights[p].row.id == m.rows[i].id && m.flights[p].stage.Holding?
    requires move.Enqueue? || move.Sweep?
    ensures var n := Run(Step(m, move), [Submit(p, None)] + [Resolve(p)]);
            i < |n.rows| && n.rows[i].id == m.rows[i].id && n.rows[i].state.Delivered? && m.rows[i].id in n.sent
  {
    StepKeeps(m, move);
    HeldEndsDelivered(Step(m, move), p, i);
  }

  // ---- what a finished row says --------------------------------------------------------------

  /** An observer's outcome is recorded as its pane answered: delivered for a success, failed with the text for an error. */
  lemma OutcomeIsRecorded(m: Machine, p: ProcessId, i: nat)
    requires MachineInv(m) && i < |m.rows| && p in m.flights && m.flights[p].row.id == m.rows[i].id
    requires !m.flights[p].stage.Holding?
    ensures var n, stage := Step(m, Resolve(p)), m.flights[p].stage;
            && |n.rows| == |m.rows| && p !in n.flights && n.sent == m.sent
            && (n.rows[i].state == Delivered <==> stage == Answered(None))
            && (n.rows[i].state == Failed <==> stage != Answered(None))
            && (stage == Answered(None) ==> n.rows[i].error == None)
            && (stage.Answered? && stage.error.Some? ==> n.rows[i].error == Clip(stage.error))
            && forall j :: 0 <= j < |m.rows| && j != i ==> n.rows[j] == m.rows[j]
  {
    assert forall j :: 0 <= j < |m.rows| && j != i ==> m.rows[j].id != m.rows[i].id;
  }

  /** What is recorded delivered was submitted, and a flight whose pane answered has submitted its text. */
  ghost predicate DeliveredInv(m: Machine) {
    && (forall i :: 0 <= i < |m.rows| && m.rows[i].state == Delivered ==> m.rows[i].id in m.sent)
    && (forall p :: p in m.flights && m.flights[p].stage.Answered? ==> m.flights[p].row.id in m.sent)
  }

  lemma StepDelivered(m: Machine, move: Move)
    requires MachineInv(m) && DeliveredInv(m)
    ensures DeliveredInv(Step(m, move))
  {
    if move.ClaimReady? || move.ClaimGone? {
      assert PendingAt(m.rows, move.task).Some? ==> m.rows[PendingAt(m.rows, move.task).value].state.Pending?;
    }
  }

  /** No follow-up is ever recorded delivered whose text was not submitted. */
  lemma {:induction false} DeliveredWasSubmitted(moves: seq<Move>)
    ensures DeliveredInv(Run(EMPTY, moves))
  {
    if moves != [] {
      var before := moves[..|moves| - 1];
      DeliveredWasSubmitted(before);
      NeverPendingAgain(EMPTY, before);
      StepDelivered(Run(EMPTY, before), moves[|moves| - 1]);
    }
  }
}

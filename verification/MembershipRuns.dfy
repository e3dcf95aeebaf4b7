/**
 * The membership monitor over time: one scanner that polls or replaces the
 * subscription, and event streams that keep delivering while it waits.
 */
module MembershipRuns {
  import opened Common
  import opened Report
  import opened Membership

  type StreamId = nat

  /** A live stream: its frozen routing, and the event it is applying to the tasks still to do. */
  datatype Stream = Stream(routing: map<TaskId, Leg>, pane: PaneId, todo: set<TaskId>)

  /** A level read: the pane's epoch and the log position when it began, then its task's route. */
  datatype Read = Read(task: TaskId, frontier: nat, began: nat, route: Option<nat>)

  datatype Saved = Saved(members: Members, routes: map<TaskId, nat>)

  /** Where the scanner waits. */
  datatype Scanner =
    | Rest
    | Starting(found: Members, saved: Saved)
    | Reconciling(todo: set<TaskId>, read: Option<Read>, saved: Saved, incoming: StreamId)
    | Draining(former: Option<StreamId>, changed: set<TaskId>)
    | Polling(todo: set<TaskId>, read: Option<Read>)

  /** What happened, in order. */
  datatype Happening =
    | Consumed(pane: PaneId)
    | FromLevel(task: TaskId, pane: PaneId, began: nat)
    | FromEvent(task: TaskId, pane: PaneId, stream: StreamId)
    | Replaced(changed: set<TaskId>, stream: StreamId)

  /** active: the stream whose death asks for a rebuild; current: the subscription in use. */
  datatype World = World(
    members: Members, epochs: map<PaneId, nat>, routes: map<TaskId, nat>,
    streams: map<StreamId, Stream>, current: Option<StreamId>, active: Option<StreamId>, next: StreamId,
    rebuild: bool, scanner: Scanner, log: seq<Happening>)

  const START := World(map[], map[], map[], map[], None, None, 0, false, Rest, [])

  datatype Move =
    | Scan(result: Members, torn: set<TaskId>, force: bool)
    | Started
    | Fail
    | BeginRead(task: TaskId)
    | EndRead
    | ApplyRead
    | EndPoll
    | Succeed
    | EndDrain
    | Consume(stream: StreamId, pane: PaneId)
    | ApplyEvent(stream: StreamId, task: TaskId)
    | Die(stream: StreamId)

  predicate Replacing(s: Scanner) { s.Starting? || s.Reconciling? }

  /** The read the scanner has in flight. */
  function ReadOf(s: Scanner): Option<Read> { if s.Reconciling? || s.Polling? then s.read else None }

  predicate MayRead(s: Scanner, task: TaskId) {
    (s.Reconciling? || s.Polling?) && s.read.None? && task in s.todo
  }

  function Routed(stream: Stream, pane: PaneId): set<TaskId> {
    set t | t in stream.routing && stream.routing[t].pane == pane
  }

  function ScanMove(w: World, found: Members, force: bool): World {
    if force || w.rebuild || found != w.members then
      w.(scanner := Starting(found, Saved(w.members, w.routes)), routes := Bumped(w.routes, Changed(w.members, found)))
    else w.(scanner := Polling(w.members.Keys, None))
  }

  function StartedMove(w: World): World
    requires w.scanner.Starting?
  {
    var s := w.scanner;
    w.(members := s.found, active := Some(w.next), next := w.next + 1,
       streams := w.streams[w.next := Stream(Routing(s.found, w.routes), "", {})],
       scanner := Reconciling(s.found.Keys, None, s.saved, w.next))
  }

  /** A failed replacement restores members, routes and token, and cancels the new stream. */
  function FailMove(w: World): World
    requires Replacing(w.scanner)
  {
    var n := w.(members := w.scanner.saved.members, routes := w.scanner.saved.routes, active := w.current, scanner := Rest);
    if w.scanner.Reconciling? then n.(streams := w.streams - {w.scanner.incoming}) else n
  }

  function ApplyReadMove(w: World, r: Read): World
    requires w.scanner.Reconciling? || w.scanner.Polling?
    requires r.task in w.members
  {
    var pane := w.members[r.task];
    var n := w.(scanner := w.scanner.(todo := w.scanner.todo - {r.task}, read := None));
    if Admitted(w.epochs, w.routes, r.task, pane, Some(r.frontier), r.route)
    then n.(log := w.log + [FromLevel(r.task, pane, r.began)]) else n
  }

  function SucceedMove(w: World): World
    requires w.scanner.Reconciling?
  {
    var s := w.scanner;
    var changed := Changed(s.saved.members, w.members);
    w.(current := Some(s.incoming), scanner := Draining(w.current, changed), log := w.log + [Replaced(changed, s.incoming)])
  }

  function ConsumeMove(w: World, c: StreamId, pane: PaneId): World
    requires c in w.streams
  {
    w.(epochs := w.epochs[pane := At(w.epochs, pane) + 1], log := w.log + [Consumed(pane)],
       streams := w.streams[c := w.streams[c].(pane := pane, todo := Routed(w.streams[c], pane))])
  }

  function ApplyEventMove(w: World, c: StreamId, task: TaskId): World
    requires c in w.streams && task in w.streams[c].routing
  {
    var s := w.streams[c];
    var n := w.(streams := w.streams[c := s.(todo := s.todo - {task})]);
    if Admitted(w.epochs, w.routes, task, s.pane, None, Some(s.routing[task].route))
    then n.(log := w.log + [FromEvent(task, s.pane, c)]) else n
  }

  /** One move; a move that does not apply here does nothing. */
  function Step(w: World, move: Move): World {
    match move
    case Scan(result, torn, force) =>
      if w.scanner.Rest? then ScanMove(w, KeepKnown(w.members, result, torn), force) else w
    case Started => if w.scanner.Starting? then StartedMove(w) else w
    case Fail => if Replacing(w.scanner) then FailMove(w) else w
    case BeginRead(t) =>
      if MayRead(w.scanner, t) && t in w.members then
        w.(scanner := w.scanner.(read := Some(Read(t, At(w.epochs, w.members[t]), |w.log|, None))))
      else w
    case EndRead =>
      var r := ReadOf(w.scanner);
      if r.Some? && r.value.route.None? then
        w.(scanner := w.scanner.(read := Some(r.value.(route := Some(At(w.routes, r.value.task))))))
      else w
    case ApplyRead =>
      var r := ReadOf(w.scanner);
      if r.Some? && r.value.route.Some? && r.value.task in w.members then ApplyReadMove(w, r.value) else w
    case EndPoll =>
      if w.scanner.Polling? && w.scanner.todo == {} && w.scanner.read.None? then w.(scanner := Rest) else w
    case Succeed =>
      if w.scanner.Reconciling? && w.scanner.todo == {} && w.scanner.read.None? && w.scanner.incoming in w.streams
      then SucceedMove(w) else w
    case EndDrain =>
      if w.scanner.Draining? then
        w.(streams := if w.scanner.former.Some? then w.streams - {w.scanner.former.value} else w.streams,
           scanner := Rest, rebuild := false)
      else w
    case Consume(c, pane) => if c in w.streams && w.streams[c].todo == {} then ConsumeMove(w, c, pane) else w
    case ApplyEvent(c, t) =>
      if c in w.streams && t in w.streams[c].todo && t in w.streams[c].routing then ApplyEventMove(w, c, t) else w
    case Die(c) =>
      if c in w.streams then w.(streams := w.streams - {c}, rebuild := w.rebuild || w.active == Some(c)) else w
  }

  function Run(w: World, moves: seq<Move>): World {
    if moves == [] then w else Step(Run(w, moves[..|moves| - 1]), moves[|moves| - 1])
  }

  // ---- epochs count consumed events -------------------------------------------------------

  function Count(log: seq<Happening>, pane: PaneId): nat {
    if log == [] then 0
    else Count(log[..|log| - 1], pane) + if log[|log| - 1] == Consumed(pane) then 1 else 0
  }

  lemma CountAppended(log: seq<Happening>, h: Happening, pane: PaneId)
    ensures Count(log + [h], pane) == Count(log, pane) + if h == Consumed(pane) then 1 else 0
  {
    assert (log + [h])[..|log|] == log;
  }

  /** Counts grow, and stay equal exactly when no event of the pane came between. */
  lemma {:induction false} CountBetween(log: seq<Happening>, began: nat, pane: PaneId)
    requires began <= |log|
    ensures Count(log[..began], pane) <= Count(log, pane)
    ensures Count(log[..began], pane) == Count(log, pane) <==> Consumed(pane) !in log[began..]
  {
    if began == |log| {
      assert log[..began] == log;
    } else {
      var before := log[..|log| - 1];
      CountBetween(before, began, pane);
      assert before[..began] == log[..began];
      assert log[began..] == before[began..] + [log[|log| - 1]];
    }
  }

  // ---- the invariant -----------------------------------------------------------------------

  /** The membership that routes currently stand for. */
  function Target(w: World): Members { if w.scanner.Starting? then w.scanner.found else w.members }

  /** Members and routes as a failed replacement would leave them. */
  function Base(w: World): Saved { if Replacing(w.scanner) then w.scanner.saved else Saved(w.members, w.routes) }

  ghost predicate EpochInv(w: World) { forall pane :: At(w.epochs, pane) == Count(w.log, pane) }

  predicate LevelSound(log: seq<Happening>, j: nat) {
    j < |log| && log[j].FromLevel? ==> log[j].began <= j && Consumed(log[j].pane) !in log[log[j].began..j]
  }

  ghost predicate LevelsInv(w: World) { forall j :: 0 <= j < |w.log| ==> LevelSound(w.log, j) }

  predicate ReadInv(w: World) {
    match ReadOf(w.scanner)
    case None => true
    case Some(r) =>
      && r.task in w.members && r.began <= |w.log|
      && r.frontier == Count(w.log[..r.began], w.members[r.task])
      && (r.route.Some? ==> r.route.value == At(w.routes, r.task))
  }

  ghost predicate ScanInv(w: World) {
    && (w.scanner.Starting? ==> w.routes == Bumped(w.scanner.saved.routes, Changed(w.scanner.saved.members, w.scanner.found)))
    && (w.scanner.Reconciling? ==>
          w.routes == Bumped(w.scanner.saved.routes, Changed(w.scanner.saved.members, w.members))
          && w.scanner.todo <= w.members.Keys)
    && (w.scanner.Polling? ==> w.scanner.todo <= w.members.Keys)
  }

  /** A leg of the stream is current exactly where the stream and the membership agree. */
  ghost predicate Agrees(s: Stream, members: Members, routes: map<TaskId, nat>) {
    forall t :: t in s.routing ==>
      (s.routing[t].route == At(routes, t) <==> t in members && members[t] == s.routing[t].pane)
  }

  ghost predicate StreamsInv(w: World) {
    && (w.current.Some? && w.current.value in w.streams ==>
          w.streams[w.current.value].routing == Routing(Base(w).members, Base(w).routes))
    && (w.scanner.Reconciling? && w.scanner.incoming in w.streams ==>
          w.streams[w.scanner.incoming].routing == Routing(w.members, w.routes))
    && (w.scanner.Draining? && w.scanner.former.Some? && w.scanner.former.value in w.streams ==>
          Agrees(w.streams[w.scanner.former.value], w.members, w.routes))
    && (forall c :: c in w.streams ==> forall t :: t in w.streams[c].todo ==>
          t in w.streams[c].routing && w.streams[c].routing[t].pane == w.streams[c].pane)
  }

  /** Live streams are the current one, the incoming one and the draining one. */
  predicate NamesInv(w: World) {
    && (w.current.Some? ==> w.current.value < w.next)
    && (w.scanner.Reconciling? ==> w.scanner.incoming < w.next && w.active == Some(w.scanner.incoming)
                                   && (w.current.Some? ==> w.current.value < w.scanner.incoming))
    && (!w.scanner.Reconciling? ==> w.active == w.current)
    && (w.scanner.Draining? && w.scanner.former.Some? ==> w.current.Some? && w.scanner.former.value < w.current.value)
    && (forall c :: c in w.streams ==>
          Some(c) == w.current || (w.scanner.Reconciling? && c == w.scanner.incoming)
          || (w.scanner.Draining? && Some(c) == w.scanner.former))
  }

  ghost predicate CoreInv(w: World) { ScanInv(w) && StreamsInv(w) && NamesInv(w) }

  ghost predicate WorldInv(w: World) { EpochInv(w) && LevelsInv(w) && ReadInv(w) && CoreInv(w) }

  lemma StartInv()
    ensures WorldInv(START)
  {
  }

  // ---- appending to the log ----------------------------------------------------------------

  lemma LogKeeps(w: World, n: World, h: Happening)
    requires EpochInv(w) && LevelsInv(w) && n.log == w.log + [h]
    requires h.Consumed? ==> n.epochs == w.epochs[h.pane := At(w.epochs, h.pane) + 1]
    requires !h.Consumed? ==> n.epochs == w.epochs
    requires h.FromLevel? ==> h.began <= |w.log| && Consumed(h.pane) !in w.log[h.began..]
    ensures EpochInv(n) && LevelsInv(n)
  {
    forall pane ensures At(n.epochs, pane) == Count(n.log, pane) {
      CountAppended(w.log, h, pane);
      assert At(w.epochs, pane) == Count(w.log, pane);
    }
    forall j | 0 <= j < |n.log| ensures LevelSound(n.log, j) {
      if j < |w.log| {
        assert LevelSound(w.log, j);
        if w.log[j].FromLevel? { assert n.log[w.log[j].began..j] == w.log[w.log[j].began..j]; }
      } else if h.FromLevel? {
        assert n.log[h.began..j] == w.log[h.began..];
      }
    }
  }

  lemma ReadKeeps(w: World, n: World)
    requires ReadInv(w) && n.scanner == w.scanner && n.members == w.members && n.routes == w.routes
    requires w.log <= n.log
    ensures ReadInv(n)
  {
    var r := ReadOf(w.scanner);
    if r.Some? { assert n.log[..r.value.began] == w.log[..r.value.began]; }
  }

  // ---- what each move keeps -------------------------------------------------------------------

  lemma ScanKeeps(w: World, found: Members, force: bool)
    requires WorldInv(w) && w.scanner.Rest?
    ensures WorldInv(ScanMove(w, found, force))
  {
  }

  lemma StartedKeeps(w: World)
    requires WorldInv(w) && w.scanner.Starting?
    ensures WorldInv(StartedMove(w))
  {
  }

  lemma FailKeeps(w: World)
    requires WorldInv(w) && Replacing(w.scanner)
    ensures WorldInv(FailMove(w))
  {
  }

  lemma ApplyReadKeeps(w: World, r: Read)
    requires WorldInv(w) && ReadOf(w.scanner) == Some(r) && r.route.Some? && r.task in w.members
    ensures WorldInv(ApplyReadMove(w, r))
  {
    var pane := w.members[r.task];
    CountBetween(w.log, r.began, pane);
    assert At(w.epochs, pane) == Count(w.log, pane);
    if At(w.epochs, pane) == r.frontier {
      LogKeeps(w, ApplyReadMove(w, r), FromLevel(r.task, pane, r.began));
    }
  }

  lemma SucceedKeeps(w: World)
    requires WorldInv(w) && w.scanner.Reconciling? && w.scanner.read.None? && w.scanner.incoming in w.streams
    ensures WorldInv(SucceedMove(w))
  {
    var s := w.scanner;
    var changed := Changed(s.saved.members, w.members);
    var n := SucceedMove(w);
    LogKeeps(w, n, Replaced(changed, s.incoming));
    if w.current.Some? && w.current.value in w.streams {
      FormerAgrees(w.streams[w.current.value], s.saved, w.members);
    }
  }

  /** A stream routed under the saved membership agrees with the new one after the bump. */
  lemma FormerAgrees(former: Stream, saved: Saved, members: Members)
    requires former.routing == Routing(saved.members, saved.routes)
    ensures Agrees(former, members, Bumped(saved.routes, Changed(saved.members, members)))
  {
    forall t | t in former.routing
      ensures former.routing[t].route == At(Bumped(saved.routes, Changed(saved.members, members)), t)
              <==> t in members && members[t] == former.routing[t].pane
    {
      BumpFencesChanged(saved.members, members, saved.routes, t);
    }
  }

  lemma ConsumeKeeps(w: World, c: StreamId, pane: PaneId)
    requires WorldInv(w) && c in w.streams
    ensures WorldInv(ConsumeMove(w, c, pane))
  {
    LogKeeps(w, ConsumeMove(w, c, pane), Consumed(pane));
    ReadKeeps(w, ConsumeMove(w, c, pane));
  }

  /** A stream that only worked off its event leaves routes, members and names alone. */
  lemma ProgressKeeps(w: World, n: World, c: StreamId, task: TaskId)
    requires CoreInv(w) && c in w.streams
    requires n == w.(log := n.log, streams := w.streams[c := w.streams[c].(todo := w.streams[c].todo - {task})])
    ensures CoreInv(n)
  {
  }

  lemma ApplyEventKeeps(w: World, c: StreamId, task: TaskId)
    requires WorldInv(w) && c in w.streams && task in w.streams[c].todo
    ensures task in w.streams[c].routing && WorldInv(ApplyEventMove(w, c, task))
  {
    assert task in w.streams[c].routing;
    var n := ApplyEventMove(w, c, task);
    if n.log != w.log {
      LogKeeps(w, n, FromEvent(task, w.streams[c].pane, c));
    }
    ReadKeeps(w, n);
    ProgressKeeps(w, n, c, task);
  }

  lemma StepKeeps(w: World, move: Move)
    requires WorldInv(w)
    ensures WorldInv(Step(w, move))
  {
    match move
    case Scan(result, torn, force) => if w.scanner.Rest? { ScanKeeps(w, KeepKnown(w.members, result, torn), force); }
    case Started => if w.scanner.Starting? { StartedKeeps(w); }
    case Fail => if Replacing(w.scanner) { FailKeeps(w); }
    case BeginRead(t) => assert w.log[..|w.log|] == w.log;
    case ApplyRead =>
      var r := ReadOf(w.scanner);
      if r.Some? && r.value.route.Some? { ApplyReadKeeps(w, r.value); }
    case Succeed =>
      if w.scanner.Reconciling? && w.scanner.read.None? && w.scanner.incoming in w.streams { SucceedKeeps(w); }
    case Consume(c, pane) => if c in w.streams { ConsumeKeeps(w, c, pane); }
    case ApplyEvent(c, t) => if c in w.streams && t in w.streams[c].todo { ApplyEventKeeps(w, c, t); }
    case _ =>
  }

  lemma {:induction false} RunKeeps(w: World, moves: seq<Move>)
    requires WorldInv(w)
    ensures WorldInv(Run(w, moves))
  {
    if moves != [] {
      RunKeeps(w, moves[..|moves| - 1]);
      StepKeeps(Run(w, moves[..|moves| - 1]), moves[|moves| - 1]);
    }
  }
}

/** Which observations the membership monitor lets through, and when it loses its stream. */
module MembershipFacts {
  import opened Common
  import opened Report
  import opened Membership
  import opened MembershipRuns

  // ---- level reads --------------------------------------------------------------------

  /** A level that was reconciled had no event of its pane consumed since its read began. */
  lemma StaleReadNeverLands(moves: seq<Move>, j: nat)
    requires var log := Run(START, moves).log; j < |log| && log[j].FromLevel?
    ensures var log := Run(START, moves).log;
            log[j].began <= j && forall i :: log[j].began <= i < j ==> log[i] != Consumed(log[j].pane)
  {
    StartInv();
    RunKeeps(START, moves);
    SoundMeans(Run(START, moves).log, j);
  }

  lemma SoundMeans(log: seq<Happening>, j: nat)
    requires j < |log| && log[j].FromLevel? && LevelSound(log, j)
    ensures log[j].began <= j && forall i :: log[j].began <= i < j ==> log[i] != Consumed(log[j].pane)
  {
    forall i | log[j].began <= i < j ensures log[i] != Consumed(log[j].pane) {
      assert log[i] == log[log[j].began..j][i - log[j].began];
    }
  }

  /** A finished read is reconciled exactly when no event of its pane has been consumed since it began. */
  lemma ReadLandsIff(w: World, r: Read)
    requires WorldInv(w) && ReadOf(w.scanner) == Some(r) && r.route.Some?
    ensures r.task in w.members
    ensures var pane := w.members[r.task]; var n := Step(w, ApplyRead);
            n.log == if Consumed(pane) !in w.log[r.began..] then w.log + [FromLevel(r.task, pane, r.began)] else w.log
  {
    var pane := w.members[r.task];
    CountBetween(w.log, r.began, pane);
    assert At(w.epochs, pane) == Count(w.log, pane);
  }

  // ---- stream events --------------------------------------------------------------------

  predicate Lands(w: World, c: StreamId, task: TaskId)
    requires c in w.streams && task in w.streams[c].routing
  {
    w.streams[c].routing[task].route == At(w.routes, task)
  }

  /**
   * Whatever replacement is under way, a stream's leg is let through exactly when
   * the newest membership still gives its task that pane.
   */
  lemma EventLandsIff(w: World, c: StreamId, task: TaskId)
    requires WorldInv(w) && c in w.streams && task in w.streams[c].routing
    ensures Lands(w, c, task) <==> task in Target(w) && Target(w)[task] == w.streams[c].routing[task].pane
  {
    if Some(c) == w.current && Replacing(w.scanner) {
      BumpFencesChanged(w.scanner.saved.members, Target(w), w.scanner.saved.routes, task);
    }
  }

  /** Every reconciled observation is of the pane the newest membership gives its task. */
  lemma ObservationsAreOfMembers(w: World, move: Move, h: Happening)
    requires WorldInv(w) && Step(w, move).log == w.log + [h] && (h.FromEvent? || h.FromLevel?)
    ensures h.task in Target(w) && Target(w)[h.task] == h.pane
  {
    assert (w.log + [h])[|w.log|] == h;
    match move
    case ApplyEvent(c, t) =>
      if c in w.streams && t in w.streams[c].todo {
        var s := w.streams[c];
        assert t in s.routing && s.routing[t].pane == s.pane;
        EventLandsIff(w, c, t);
      }
    case _ =>
  }

  /**
   * A task leaves the newest membership exactly when a scan finds its file
   * validly absent, or a failed replacement that had added it is undone.
   */
  lemma RemovedIff(w: World, move: Move, task: TaskId)
    requires task in Target(w)
    ensures task !in Target(Step(w, move)) <==>
            || (move.Scan? && w.scanner.Rest? && task !in move.result && task !in move.torn)
            || (move.Fail? && Replacing(w.scanner) && task !in w.scanner.saved.members)
  {
    match move
    case Scan(result, torn, force) =>
      if w.scanner.Rest? { ScanTarget(w, KeepKnown(w.members, result, torn), force); }
    case Started =>
    case Fail =>
    case _ => OthersKeepTarget(w, move);
  }

  lemma ScanTarget(w: World, found: Members, force: bool)
    requires w.scanner.Rest?
    ensures Target(ScanMove(w, found, force)) == found
  {
  }

  lemma OthersKeepTarget(w: World, move: Move)
    requires !move.Scan? && !move.Started? && !move.Fail?
    ensures Target(Step(w, move)) == Target(w)
  {
  }

  // ---- replacement ------------------------------------------------------------------------

  predicate Differs(s: Stream, members: Members, t: TaskId) {
    t in s.routing && !(t in members && members[t] == s.routing[t].pane)
  }

  /** What the log says of replacements agrees with the streams that are still alive. */
  ghost predicate SwitchInv(w: World) {
    && (forall h :: h in w.log && h.Replaced? ==>
          && w.current.Some? && h.stream <= w.current.value
          && (w.scanner.Draining? && w.scanner.former.Some? ==>
                if h.stream == w.current.value then h.changed == w.scanner.changed
                else h.stream <= w.scanner.former.value))
    && (w.scanner.Draining? && w.scanner.former.Some? && w.scanner.former.value in w.streams ==>
          var s := w.streams[w.scanner.former.value];
          forall t :: t in s.routing ==> (t in w.scanner.changed <==> Differs(s, w.members, t)))
  }

  predicate Fenced(log: seq<Happening>, i: nat, j: nat) {
    i < j < |log| && log[i].Replaced? && log[j].FromEvent? && log[j].task in log[i].changed ==>
      log[j].stream >= log[i].stream
  }

  ghost predicate FencedLog(log: seq<Happening>) { forall i, j :: 0 <= i < j < |log| ==> Fenced(log, i, j) }

  lemma SucceedSwitches(w: World)
    requires WorldInv(w) && SwitchInv(w) && w.scanner.Reconciling?
    ensures SwitchInv(SucceedMove(w))
  {
    var n := SucceedMove(w);
    if w.current.Some? && w.current.value in w.streams {
      var s := w.streams[w.current.value];
      assert s.routing == Routing(w.scanner.saved.members, w.scanner.saved.routes);
    }
  }

  /** Streams that only lose members or work off events change nothing about replacements. */
  lemma TrafficSwitches(w: World, n: World)
    requires SwitchInv(w) && n.scanner == w.scanner && n.current == w.current && n.members == w.members
    requires forall h :: h in n.log && h.Replaced? ==> h in w.log
    requires forall c :: c in n.streams ==> c in w.streams && n.streams[c].routing == w.streams[c].routing
    ensures SwitchInv(n)
  {
  }

  lemma ScannerSwitches(w: World, n: World)
    requires SwitchInv(w) && n.current == w.current && !n.scanner.Draining?
    requires forall h :: h in n.log && h.Replaced? ==> h in w.log
    ensures SwitchInv(n)
  {
  }

  /** Only a successful replacement is logged as one. */
  lemma LogGrows(w: World, move: Move)
    requires !move.Succeed?
    ensures var n := Step(w, move).log;
            n == w.log || (|n| == |w.log| + 1 && n[..|w.log|] == w.log && !n[|w.log|].Replaced?)
  {
  }

  lemma ReplacementsKept(w: World, move: Move)
    requires !move.Succeed?
    ensures forall h :: h in Step(w, move).log && h.Replaced? ==> h in w.log
  {
    LogGrows(w, move);
    var n := Step(w, move).log;
    forall h | h in n && h.Replaced? ensures h in w.log {
      var i :| 0 <= i < |n| && n[i] == h;
      assert n != w.log ==> i < |w.log| && n[..|w.log|][i] == w.log[i];
    }
  }

  lemma ScannerLeavesDrain(w: World, move: Move)
    requires !move.Succeed? && !move.Consume? && !move.ApplyEvent? && !move.Die?
    ensures Step(w, move) == w || (Step(w, move).current == w.current && !Step(w, move).scanner.Draining?)
  {
  }

  /** Stream traffic leaves the scanner, the membership and every frozen routing alone. */
  lemma TrafficKeepsRouting(w: World, move: Move)
    requires move.Consume? || move.ApplyEvent? || move.Die?
    ensures var n := Step(w, move);
            && n.scanner == w.scanner && n.current == w.current && n.members == w.members
            && (forall c :: c in n.streams ==> c in w.streams && n.streams[c].routing == w.streams[c].routing)
  {
    match move
    case Consume(c, pane) =>
    case ApplyEvent(c, t) =>
    case Die(c) =>
  }

  lemma StepSwitches(w: World, move: Move)
    requires WorldInv(w) && SwitchInv(w)
    ensures SwitchInv(Step(w, move))
  {
    if !move.Succeed? { ReplacementsKept(w, move); }
    match move
    case Succeed => if w.scanner.Reconciling? { SucceedSwitches(w); }
    case Consume(c, pane) => TrafficKeepsRouting(w, move); TrafficSwitches(w, Step(w, move));
    case ApplyEvent(c, t) => TrafficKeepsRouting(w, move); TrafficSwitches(w, Step(w, move));
    case Die(c) => TrafficKeepsRouting(w, move); TrafficSwitches(w, Step(w, move));
    case _ =>
      ScannerLeavesDrain(w, move);
      if Step(w, move) != w { ScannerSwitches(w, Step(w, move)); }
  }

  /** A new log entry from a stream older than some replacement never names a changed task. */
  lemma EventIsFenced(w: World, c: StreamId, task: TaskId, h: Happening)
    requires WorldInv(w) && SwitchInv(w) && c in w.streams && task in w.streams[c].routing && Lands(w, c, task)
    requires h in w.log && h.Replaced? && task in h.changed
    ensures c >= h.stream
  {
    EventLandsIff(w, c, task);
  }

  /** A stream event is logged only for a routed task whose leg is let through. */
  lemma EventIsLogged(w: World, move: Move, i: nat)
    requires |w.log| <= i < |Step(w, move).log| && Step(w, move).log[i].FromEvent?
    ensures i == |w.log| && Step(w, move).log[..i] == w.log
    ensures var h := Step(w, move).log[i];
            h.stream in w.streams && h.task in w.streams[h.stream].routing && Lands(w, h.stream, h.task)
  {
  }

  lemma StepFences(w: World, move: Move)
    requires WorldInv(w) && SwitchInv(w) && FencedLog(w.log)
    ensures FencedLog(Step(w, move).log)
  {
    var n := Step(w, move).log;
    if !move.Succeed? { LogGrows(w, move); }
    forall i, j | 0 <= i < j < |n| ensures Fenced(n, i, j) {
      if j < |w.log| {
        assert Fenced(w.log, i, j);
      } else if n[i].Replaced? && n[j].FromEvent? && n[j].task in n[i].changed {
        EventIsLogged(w, move, j);
        assert n[i] == n[..j][i] == w.log[i];
        EventIsFenced(w, n[j].stream, n[j].task, w.log[i]);
      }
    }
  }

  lemma {:induction false} RunSwitches(moves: seq<Move>)
    ensures SwitchInv(Run(START, moves)) && FencedLog(Run(START, moves).log)
  {
    if moves != [] {
      var before := Run(START, moves[..|moves| - 1]);
      StartInv();
      RunKeeps(START, moves[..|moves| - 1]);
      RunSwitches(moves[..|moves| - 1]);
      StepSwitches(before, moves[|moves| - 1]);
      StepFences(before, moves[|moves| - 1]);
    }
  }

  /**
   * After a successful replacement no event of a changed task's earlier route is
   * reconciled: whatever is reconciled for it comes from that stream or a later one.
   */
  lemma OldRoutesAreFenced(moves: seq<Move>, i: nat, j: nat)
    requires var log := Run(START, moves).log;
             i < j < |log| && log[i].Replaced? && log[j].FromEvent? && log[j].task in log[i].changed
    ensures var log := Run(START, moves).log; log[j].stream >= log[i].stream
  {
    RunSwitches(moves);
    assert Fenced(Run(START, moves).log, i, j);
  }

  /** While the former stream drains, its events are reconciled exactly for the unchanged tasks. */
  lemma DrainDeliversUnchanged(moves: seq<Move>, task: TaskId)
    requires var w := Run(START, moves);
             w.scanner.Draining? && w.scanner.former.Some? && w.scanner.former.value in w.streams
             && task in w.streams[w.scanner.former.value].todo
    ensures var w := Run(START, moves); var c := w.scanner.former.value;
            Step(w, ApplyEvent(c, task)).log
            == if task in w.scanner.changed then w.log else w.log + [FromEvent(task, w.streams[c].pane, c)]
  {
    StartInv();
    RunKeeps(START, moves);
    RunSwitches(moves);
    var w := Run(START, moves);
    EventLandsIff(w, w.scanner.former.value, task);
  }

  // ---- noticing a dead stream -----------------------------------------------------------------

  predicate Idle(s: Scanner) { s.Rest? || s.Polling? }

  /** The subscription in use is alive, or the next scan will rebuild it. */
  predicate Watched(w: World) { w.current.None? || w.current.value in w.streams || w.rebuild }

  /** The subscription in use has died. */
  predicate Dead(w: World) { w.current.Some? && w.current.value !in w.streams }

  /** The moves that lose a dead subscription: the drain's end, or a failure that restores it unflagged. */
  predicate Misses(w: World, move: Move) {
    || (move.EndDrain? && w.scanner.Draining? && Dead(w))
    || (move.Fail? && Replacing(w.scanner) && Dead(w) && !w.rebuild)
  }

  /** From a watched world, an idle scanner has lost its subscription exactly after a missing move. */
  lemma DeathIsMissedIff(w: World, move: Move)
    requires NamesInv(w) && (Idle(w.scanner) ==> Watched(w))
    ensures var n := Step(w, move); Idle(n.scanner) ==> (!Watched(n) <==> Misses(w, move))
  {
    match move
    case Fail => if Replacing(w.scanner) { FailRestores(w); }
    case EndDrain => if w.scanner.Draining? { DrainEnds(w); }
    case Succeed =>
    case Die(c) =>
    case Consume(c, pane) => TrafficStays(w, move);
    case ApplyEvent(c, t) => TrafficStays(w, move);
    case _ => StreamsStay(w, move);
  }

  lemma TrafficStays(w: World, move: Move)
    requires move.Consume? || move.ApplyEvent?
    ensures var n := Step(w, move);
            n.streams.Keys == w.streams.Keys && n.current == w.current && n.rebuild == w.rebuild && n.scanner == w.scanner
  {
  }

  lemma StreamsStay(w: World, move: Move)
    requires !move.Fail? && !move.EndDrain? && !move.Succeed? && !move.Die? && !move.Consume? && !move.ApplyEvent?
    ensures var n := Step(w, move);
            w.streams.Keys <= n.streams.Keys && n.current == w.current && n.rebuild == w.rebuild
            && (Idle(n.scanner) ==> Idle(w.scanner))
  {
    match move
    case Scan(result, torn, force) =>
    case Started =>
    case _ => ReadsStay(w, move);
  }

  lemma ReadsStay(w: World, move: Move)
    requires move.BeginRead? || move.EndRead? || move.ApplyRead? || move.EndPoll?
    ensures var n := Step(w, move);
            n.streams == w.streams && n.current == w.current && n.rebuild == w.rebuild && (Idle(n.scanner) <==> Idle(w.scanner))
  {
  }

  lemma FailRestores(w: World)
    requires NamesInv(w) && Replacing(w.scanner)
    ensures var n := FailMove(w); n.current == w.current && n.rebuild == w.rebuild && (Dead(n) <==> Dead(w))
  {
  }

  lemma DrainEnds(w: World)
    requires NamesInv(w) && w.scanner.Draining?
    ensures var n := Step(w, EndDrain); n.current == w.current && !n.rebuild && (Dead(n) <==> Dead(w))
  {
  }

  predicate NeverMisses(moves: seq<Move>) {
    moves == [] ||
    (NeverMisses(moves[..|moves| - 1]) && !Misses(Run(START, moves[..|moves| - 1]), moves[|moves| - 1]))
  }

  /** Without such a move, whenever the scanner is idle its subscription is alive or due for a rebuild. */
  lemma {:induction false} DeathIsNoticed(moves: seq<Move>)
    requires NeverMisses(moves)
    ensures Idle(Run(START, moves).scanner) ==> Watched(Run(START, moves))
  {
    if moves != [] {
      StartInv();
      RunKeeps(START, moves[..|moves| - 1]);
      DeathIsNoticed(moves[..|moves| - 1]);
      DeathIsMissedIff(Run(START, moves[..|moves| - 1]), moves[|moves| - 1]);
    }
  }

  /** A stream that dies while the one before it drains leaves no stream and no rebuild. */
  lemma DrainLosesDeath(w: World)
    requires WorldInv(w) && w.scanner.Draining? && w.current.Some? && w.current.value in w.streams
    ensures var n := Step(Step(w, Die(w.current.value)), EndDrain);
            n.scanner.Rest? && n.streams == map[] && !n.rebuild && n.current == w.current && n.members == w.members
  {
    var n := Step(Step(w, Die(w.current.value)), EndDrain);
    assert n.streams.Keys == {};
  }

  /** A subscription that dies under a replacement is not flagged, and the failed replacement restores it dead. */
  lemma FailLosesDeath(w: World, found: Members)
    requires WorldInv(w) && w.scanner.Rest? && !w.rebuild && found != w.members
    requires w.current.Some? && w.current.value in w.streams
    ensures var n := Step(Step(Step(Step(w, Scan(found, {}, false)), Started), Die(w.current.value)), Fail);
            n.scanner.Rest? && n.streams == map[] && !n.rebuild && n.current == w.current && n.members == w.members
  {
    var c := w.current.value;
    ReplaceStarts(w, found);
    var b := Step(Step(w, Scan(found, {}, false)), Started);
    assert Step(b, Die(c)).streams.Keys == {w.next};
    assert Step(Step(b, Die(c)), Fail).streams.Keys == {};
  }

  lemma ReplaceStarts(w: World, found: Members)
    requires NamesInv(w) && w.scanner.Rest? && !w.rebuild && found != w.members
    requires w.current.Some? && w.current.value in w.streams
    ensures var b := Step(Step(w, Scan(found, {}, false)), Started);
            && b.scanner.Reconciling? && b.scanner.incoming == w.next && b.active == Some(w.next)
            && w.current.value < w.next && b.streams.Keys == {w.current.value, w.next}
            && b.scanner.saved == Saved(w.members, w.routes) && b.current == w.current && !b.rebuild
  {
    assert w.streams.Keys == {w.current.value};
    assert KeepKnown(w.members, found, {}) == found;
  }

  /** Every scan finds the known members again, and nobody forces a rebuild. */
  predicate Unforced(members: Members, moves: seq<Move>) {
    forall i :: 0 <= i < |moves| && moves[i].Scan? ==>
      !moves[i].force && KeepKnown(members, moves[i].result, moves[i].torn) == members
  }

  lemma LostStep(w: World, move: Move)
    requires Idle(w.scanner) && w.streams == map[] && !w.rebuild
    requires move.Scan? ==> !move.force && KeepKnown(w.members, move.result, move.torn) == w.members
    ensures var n := Step(w, move);
            Idle(n.scanner) && n.streams == map[] && !n.rebuild && n.members == w.members
  {
  }

  /** Without a stream and a rebuild flag, none comes back until the membership changes. */
  lemma {:induction false} LostUntilChanged(w: World, moves: seq<Move>)
    requires Idle(w.scanner) && w.streams == map[] && !w.rebuild && Unforced(w.members, moves)
    ensures var n := Run(w, moves);
            Idle(n.scanner) && n.streams == map[] && !n.rebuild && n.members == w.members
  {
    if moves != [] {
      var before, last := moves[..|moves| - 1], moves[|moves| - 1];
      assert forall i :: 0 <= i < |before| ==> before[i] == moves[i];
      LostUntilChanged(w, before);
      LostStep(Run(w, before), last);
    }
  }

  // ---- every task is looked at ----------------------------------------------------------------

  /**
   * A scan starts a replacement iff it is forced, a dead subscription asked for
   * one, or the membership differs; otherwise it goes on to read every member.
   */
  lemma ScanReplacesIff(w: World, result: Members, torn: set<TaskId>, force: bool)
    requires w.scanner.Rest?
    ensures var n := Step(w, Scan(result, torn, force));
            var found := KeepKnown(w.members, result, torn);
            && (n.scanner.Starting? <==> force || w.rebuild || found != w.members)
            && (n.scanner.Starting? ==> n.scanner.found == found)
            && (!n.scanner.Starting? ==> n.scanner == Polling(w.members.Keys, None) && n.routes == w.routes)
            && n.members == w.members && n.streams == w.streams && n.current == w.current && n.log == w.log
  {
  }

  /** Since log position since, the task was reconciled by a level read of its pane, or its pane had an event. */
  predicate LookedAt(log: seq<Happening>, since: nat, task: TaskId, pane: PaneId) {
    exists j :: since <= j < |log|
      && (log[j] == Consumed(pane) || (log[j].FromLevel? && log[j].task == task && log[j].pane == pane))
  }

  /** The scanner is within one pass over the members; those not to do any more have been looked at since it began. */
  ghost predicate PassOk(w: World, since: nat) {
    && since <= |w.log| && (w.scanner.Reconciling? || w.scanner.Polling?)
    && (w.scanner.read.Some? ==> w.scanner.read.value.began >= since)
    && forall t :: t in w.members && t !in w.scanner.todo ==> LookedAt(w.log, since, t, w.members[t])
  }

  lemma LookedAtGrows(log: seq<Happening>, more: seq<Happening>, since: nat, task: TaskId, pane: PaneId)
    requires LookedAt(log, since, task, pane) && log <= more
    ensures LookedAt(more, since, task, pane)
  {
    var j :| since <= j < |log|
      && (log[j] == Consumed(pane) || (log[j].FromLevel? && log[j].task == task && log[j].pane == pane));
    assert more[j] == log[j];
  }

  lemma ReadLooks(w: World, since: nat)
    requires WorldInv(w) && PassOk(w, since) && w.scanner.read.Some? && w.scanner.read.value.route.Some?
    ensures w.scanner.read.value.task in w.members
    ensures var t, n := w.scanner.read.value.task, Step(w, ApplyRead);
            LookedAt(n.log, since, t, w.members[t])
  {
    var r := w.scanner.read.value;
    ReadLandsIff(w, r);
    var n := Step(w, ApplyRead);
    if Consumed(w.members[r.task]) in w.log[r.began..] {
      var j :| 0 <= j < |w.log| - r.began && w.log[r.began..][j] == Consumed(w.members[r.task]);
      assert n.log[r.began + j] == Consumed(w.members[r.task]);
    } else {
      assert n.log[|w.log|] == FromLevel(r.task, w.members[r.task], r.began);
    }
  }

  lemma LogStays(w: World, move: Move)
    ensures w.log <= Step(w, move).log
  {
  }

  /** The same pass goes on: the same replacement, or still the same poll. */
  predicate InPass(w: World, n: World) {
    (w.scanner.Reconciling? && n.scanner.Reconciling?) || (w.scanner.Polling? && n.scanner.Polling?)
  }

  /** The move is that of applying the read in flight, which takes its task off the list. */
  predicate Applies(w: World, move: Move) {
    move.ApplyRead? && ReadOf(w.scanner).Some? && ReadOf(w.scanner).value.route.Some?
  }

  lemma PassKeepsMembers(w: World, move: Move)
    requires InPass(w, Step(w, move))
    ensures var n := Step(w, move);
            n.members == w.members && (n.scanner.Reconciling? ==> n.scanner.incoming == w.scanner.incoming)
  {
    if w.scanner.Polling? {
      PollKeepsMembers(w, move);
    } else {
      ReplacementKeepsMembers(w, move);
    }
  }

  lemma PollKeepsMembers(w: World, move: Move)
    requires w.scanner.Polling? && Step(w, move).scanner.Polling?
    ensures Step(w, move).members == w.members
  {
  }

  lemma ReplacementKeepsMembers(w: World, move: Move)
    requires w.scanner.Reconciling? && Step(w, move).scanner.Reconciling?
    ensures Step(w, move).members == w.members && Step(w, move).scanner.incoming == w.scanner.incoming
  {
  }

  lemma ApplyIs(w: World)
    requires WorldInv(w) && Applies(w, ApplyRead)
    ensures var r := ReadOf(w.scanner).value;
            (w.scanner.Reconciling? || w.scanner.Polling?) && r.task in w.members && Step(w, ApplyRead) == ApplyReadMove(w, r)
  {
  }

  lemma ApplyTakesOff(w: World, r: Read)
    requires (w.scanner.Reconciling? || w.scanner.Polling?) && r.task in w.members
    ensures ApplyReadMove(w, r).scanner == w.scanner.(todo := w.scanner.todo - {r.task}, read := None)
  {
  }

  lemma PassKeepsTodo(w: World, move: Move)
    requires InPass(w, Step(w, move)) && !Applies(w, move)
    ensures Step(w, move).scanner.todo == w.scanner.todo
  {
  }

  lemma PassReads(w: World, move: Move, since: nat)
    requires InPass(w, Step(w, move)) && since <= |w.log|
    requires w.scanner.read.Some? ==> w.scanner.read.value.began >= since
    ensures Step(w, move).scanner.read.Some? ==> Step(w, move).scanner.read.value.began >= since
  {
    match move
    case BeginRead(_) =>
    case EndRead =>
    case ApplyRead =>
    case _ =>
  }

  lemma PassGoesOn(w: World, move: Move, since: nat)
    requires WorldInv(w) && PassOk(w, since) && InPass(w, Step(w, move))
    ensures PassOk(Step(w, move), since)
  {
    var n := Step(w, move);
    LogStays(w, move);
    PassKeepsMembers(w, move);
    PassReads(w, move, since);
    if Applies(w, move) {
      ApplyIs(w);
      ApplyTakesOff(w, ReadOf(w.scanner).value);
      ReadLooks(w, since);
    } else {
      PassKeepsTodo(w, move);
    }
    forall t | t in n.members && t !in n.scanner.todo ensures LookedAt(n.log, since, t, n.members[t]) {
      if t !in w.scanner.todo {
        LookedAtGrows(w.log, n.log, since, t, w.members[t]);
      }
    }
  }

  /** All along these moves the scanner stays in the pass it is in. */
  predicate StaysInPass(w: World, moves: seq<Move>) {
    moves == [] ||
    (StaysInPass(w, moves[..|moves| - 1]) && InPass(Run(w, moves[..|moves| - 1]), Run(w, moves)))
  }

  lemma {:induction false} PassCovers(w: World, moves: seq<Move>, since: nat)
    requires WorldInv(w) && PassOk(w, since) && StaysInPass(w, moves)
    ensures WorldInv(Run(w, moves)) && PassOk(Run(w, moves), since)
  {
    if moves != [] {
      var before := moves[..|moves| - 1];
      PassCovers(w, before, since);
      StepKeeps(Run(w, before), moves[|moves| - 1]);
      PassGoesOn(Run(w, before), moves[|moves| - 1], since);
    }
  }

  /**
   * A new subscription goes live only after every member was looked at: since
   * it started, each task was reconciled by a level read, unless its pane had
   * an event meanwhile, which its stream delivers.
   */
  lemma ReplacementLooksAtAll(w: World, moves: seq<Move>)
    requires WorldInv(w) && w.scanner.Starting? && StaysInPass(Step(w, Started), moves)
    requires var m := Run(Step(w, Started), moves); Step(m, Succeed).scanner.Draining?
    ensures var n := Step(Run(Step(w, Started), moves), Succeed);
            && n.members == w.scanner.found && n.current == Some(w.next)
            && forall t :: t in n.members ==> LookedAt(n.log, |w.log|, t, n.members[t])
  {
    var s := Step(w, Started);
    StepKeeps(w, Started);
    PassCovers(s, moves, |w.log|);
    PassKeeps(s, moves);
    var m := Run(s, moves);
    LogStays(m, Succeed);
    forall t | t in m.members ensures LookedAt(Step(m, Succeed).log, |w.log|, t, m.members[t]) {
      LookedAtGrows(m.log, Step(m, Succeed).log, |w.log|, t, m.members[t]);
    }
  }

  lemma {:induction false} PassKeeps(w: World, moves: seq<Move>)
    requires w.scanner.Reconciling? && StaysInPass(w, moves)
    ensures var n := Run(w, moves);
            n.scanner.Reconciling? && n.members == w.members && n.scanner.incoming == w.scanner.incoming
  {
    if moves != [] {
      PassKeeps(w, moves[..|moves| - 1]);
      PassKeepsMembers(Run(w, moves[..|moves| - 1]), moves[|moves| - 1]);
    }
  }

  /** A quiet scan comes to rest only after every member was looked at since it began. */
  lemma PollLooksAtAll(w: World, result: Members, torn: set<TaskId>, moves: seq<Move>)
    requires WorldInv(w) && w.scanner.Rest? && Step(w, Scan(result, torn, false)).scanner.Polling?
    requires StaysInPass(Step(w, Scan(result, torn, false)), moves)
    requires Step(Run(Step(w, Scan(result, torn, false)), moves), EndPoll).scanner.Rest?
    ensures var n := Step(Run(Step(w, Scan(result, torn, false)), moves), EndPoll);
            forall t :: t in n.members ==> LookedAt(n.log, |w.log|, t, n.members[t])
  {
    var s := Step(w, Scan(result, torn, false));
    StepKeeps(w, Scan(result, torn, false));
    PassCovers(s, moves, |w.log|);
    StaysThere(s, moves);
  }

  lemma {:induction false} StaysThere(w: World, moves: seq<Move>)
    requires w.scanner.Polling? && StaysInPass(w, moves)
    ensures Run(w, moves).scanner.Polling?
  {
    if moves != [] {
      StaysThere(w, moves[..|moves| - 1]);
    }
  }

  /**
   * A consumed event is kept for every task its stream routes to that pane, and
   * the stream takes no further event before each of them had its turn.
   */
  lemma EventWaitsForAll(w: World, c: StreamId, pane: PaneId, next: PaneId)
    requires c in w.streams && w.streams[c].todo == {}
    ensures var n := Step(w, Consume(c, pane));
            && c in n.streams && n.streams[c].pane == pane && n.streams[c].routing == w.streams[c].routing
            && (forall t :: t in n.streams[c].todo <==> t in w.streams[c].routing && w.streams[c].routing[t].pane == pane)
            && n.log == w.log + [Consumed(pane)]
            && (n.streams[c].todo != {} ==> Step(n, Consume(c, next)) == n)
            && (forall t :: t in n.streams[c].todo ==> Step(n, ApplyEvent(c, t)).streams[c].todo == n.streams[c].todo - {t})
  {
  }
}

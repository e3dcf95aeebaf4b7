/**
 * The notification coalescer over the ledger. A poll is not atomic: it reads
 * the clock and the frontier, passes a gate under a lock, and only then offers,
 * delivers, confirms and releases. Any number of polls interleave with bumps,
 * acknowledgements and reconciles of the same driver.
 */
module Coalescing {
  import opened Common
  import opened Report
  import opened Generations
  import opened Delivery
  import opened DeliveryFacts

  type PollId = string

  datatype Status = Delivered | Deferred | Error

  datatype Collection = Collection(generation: nat, deadline: nat)

  /** The connection one coalescer serves, and its collection window. */
  datatype Binding = Binding(d: DriverId, session: SessionId, e: Epoch, window: nat)

  /** Where one poll stands between two of its atomic sections. */
  datatype Phase =
    | Idle
    | Started(now: nat)
    | Observed(now: nat, frontier: Option<Frontier>)
    | Claimed(gen: nat)
    | Empty(gen: nat)
    | Mismatched(gen: nat, offered: nat)
    | Delivering(gen: nat)
    | Returned(gen: nat, status: Status)
    | Confirmed(gen: nat)
    | Unflagging
    | Unlocking
  {
    /** The poll owns the delivery claim. */
    predicate Holding() { !Idle? && !Started? && !Observed? }
  }

  /** One actuator call: what it carried, and the frontier its poll had claimed for. */
  datatype Call = Call(gen: nat, claimedFor: nat)

  datatype Machine = Machine(
    board: Board, desk: Desk,
    collection: Option<Collection>, inFlight: Option<nat>, claim: Option<PollId>,
    polls: map<PollId, Phase>, clock: nat,
    calls: seq<Call>, delivered: seq<nat>, refusals: seq<Refusal>)

  datatype Env = Bumped(change: Change) | Acked(through: nat) | AckedExact(through: nat) | Pulled(full: bool)

  datatype Move =
    | Tick(ticks: nat)
    | World(env: Env)
    | Begin(p: PollId)
    | Observe(p: PollId)
    | Gate(p: PollId)
    | Take(p: PollId)
    | PullBack(p: PollId)
    | Return(p: PollId, status: Status)
    | Record(p: PollId)
    | Clean(p: PollId)
    | Unflag(p: PollId)
    | Unlock(p: PollId)

  function PhaseOf(m: Machine, p: PollId): Phase { if p in m.polls then m.polls[p] else Idle }

  function To(m: Machine, p: PollId, phase: Phase): Machine { m.(polls := m.polls[p := phase]) }

  // ---- the surroundings ---------------------------------------------------------

  /** What the rest of the daemon may do to this driver while polls are running. */
  function Surround(w: Binding, b: Board, k: Desk, env: Env): (Board, Desk) {
    match env
    case Bumped(c) =>
      (match Bump(b, c)
       case None => (b, k)
       case Some(n) => (n, Advance(k, n.latest)))
    case Acked(through) => (b, AckGeneration(k, w.d, w.session, w.e, through).desk)
    case AckedExact(through) => (b, AckDelivered(k, w.d, through).desk)
    case Pulled(full) => (b, ReconcileDelivered(b, k, w.d, full).desk)
  }

  // ---- the sections of a poll -----------------------------------------------------

  function Refuse(m: Machine, why: Refusal): Machine { m.(refusals := m.refusals + [why]) }

  function ObserveMove(w: Binding, m: Machine, p: PollId, now: nat): Machine {
    match NotificationFrontier(m.board, m.desk, w.d, w.session, w.e)
    case Refused(why) => Refuse(To(m, p, Idle), why)
    case Granted(f) => To(m, p, Observed(now, f))
  }

  /** How one observed frontier updates the open collection. */
  function Collect(w: Binding, m: Machine, now: nat, g: nat): Collection {
    match m.collection
    case None => Collection(g, now + w.window)
    case Some(c) =>
      if g > c.generation then
        if m.inFlight.Some? && c.generation <= m.inFlight.value < g then Collection(g, now + w.window)
        else c.(generation := g)
      else c
  }

  function GateMove(w: Binding, m: Machine, p: PollId, now: nat, frontier: Option<Frontier>): Machine {
    match frontier
    case None => To(m.(collection := None), p, Idle)
    case Some(f) =>
      var c := Collect(w, m, now, f.generation);
      var n := m.(collection := Some(c));
      if !f.immediate && f.priority != Urgent && now < c.deadline then To(n, p, Idle)
      else if n.claim.Some? then To(n, p, Idle)
      else To(n.(claim := Some(p), inFlight := Some(f.generation)), p, Claimed(f.generation))
  }

  function TakeMove(w: Binding, m: Machine, p: PollId, g: nat): Machine {
    var offer := OfferNotification(m.board, m.desk, w.d, w.session, w.e);
    var n := m.(desk := offer.desk);
    match offer.answer
    case Refused(why) => Refuse(To(n, p, Unflagging), why)
    case Granted(None) => To(n, p, Empty(g))
    case Granted(Some(wake)) =>
      if wake.generation != g then To(n, p, Mismatched(g, wake.generation))
      else To(n.(calls := n.calls + [Call(wake.generation, g)]), p, Delivering(g))
  }

  function PullBackMove(w: Binding, m: Machine, p: PollId, g: nat): Machine {
    var r := Withdraw(m.desk, w.d, w.session, w.e, g);
    var n := To(m.(desk := r.desk), p, Unflagging);
    match r.answer
    case Refused(why) => Refuse(n, why)
    case Granted(_) => n
  }

  function ReturnMove(m: Machine, p: PollId, g: nat, status: Status): Machine {
    var n := To(m, p, Returned(g, status));
    if status == Status.Delivered then n.(delivered := n.delivered + [g]) else n
  }

  function RecordMove(w: Binding, m: Machine, p: PollId, g: nat, status: Status): Machine {
    if status == Status.Delivered then
      var r := ConfirmDelivery(m.desk, w.d, w.session, w.e, g);
      match r.answer
      case Refused(why) => Refuse(To(m, p, Unflagging), why)
      case Granted(_) => To(m.(desk := r.desk), p, Confirmed(g))
    else
      var state := if status == Status.Deferred then DeliveryState.Deferred else DeliveryState.Errored;
      var r := RecordOutcome(m.desk, w.d, w.session, w.e, g, state, None);
      var n := To(m.(desk := r.desk), p, Unflagging);
      match r.answer
      case Refused(why) => Refuse(n, why)
      case Granted(_) => n
  }

  /** Drop the collection, unless it has already moved beyond the settled generation. */
  function CleanMove(m: Machine, p: PollId, g: nat): Machine {
    var gone := m.collection.Some? && m.collection.value.generation <= g;
    To(if gone then m.(collection := None) else m, p, Unflagging)
  }

  /** One move; a move whose poll stands elsewhere does nothing. */
  function Step(w: Binding, m: Machine, move: Move): Machine {
    match move
    case Tick(ticks) => m.(clock := m.clock + ticks)
    case World(env) => var (b, k) := Surround(w, m.board, m.desk, env); m.(board := b, desk := k)
    case Begin(p) => if PhaseOf(m, p).Idle? then To(m, p, Started(m.clock)) else m
    case Observe(p) =>
      (match PhaseOf(m, p) case Started(now) => ObserveMove(w, m, p, now) case _ => m)
    case Gate(p) =>
      (match PhaseOf(m, p) case Observed(now, f) => GateMove(w, m, p, now, f) case _ => m)
    case Take(p) =>
      (match PhaseOf(m, p) case Claimed(g) => TakeMove(w, m, p, g) case _ => m)
    case PullBack(p) =>
      (match PhaseOf(m, p) case Mismatched(_, g) => PullBackMove(w, m, p, g) case _ => m)
    case Return(p, status) =>
      (match PhaseOf(m, p) case Delivering(g) => ReturnMove(m, p, g, status) case _ => m)
    case Record(p) =>
      (match PhaseOf(m, p) case Returned(g, status) => RecordMove(w, m, p, g, status) case _ => m)
    case Clean(p) =>
      (match PhaseOf(m, p)
       case Empty(g) => CleanMove(m, p, g)
       case Confirmed(g) => CleanMove(m, p, g)
       case _ => m)
    case Unflag(p) => if PhaseOf(m, p).Unflagging? then To(m.(inFlight := None), p, Unlocking) else m
    case Unlock(p) => if PhaseOf(m, p).Unlocking? then To(m.(claim := None), p, Idle) else m
  }

  function Run(w: Binding, m: Machine, moves: seq<Move>): Machine {
    if moves == [] then m else Step(w, Run(w, m, moves[..|moves| - 1]), moves[|moves| - 1])
  }

  // ---- the invariant ------------------------------------------------------------------

  predicate Open(w: Binding, k: Desk, g: nat) { Unanswered(k, OfferKey(w.d, w.e, g)) }

  predicate Has(w: Binding, k: Desk, g: nat) { OfferKey(w.d, w.e, g) in k.offers }

  predicate Answered(w: Binding, k: Desk, g: nat) { ConfirmedHere(k, w.d, w.session, w.e, g) }

  /** A frontier read earlier still names the redelivery, while there is one to make. */
  predicate Pinned(w: Binding, k: Desk, g: nat)
    requires Current(k, w.d, w.session, w.e)
  {
    var c := k.deliveries[w.d];
    c.delivered > c.acked && !Answered(w, k, c.delivered) ==> g == c.delivered
  }

  ghost predicate Newest(w: Binding, k: Desk, g: nat) {
    Has(w, k, g) && forall o :: o in k.offers && o.driver == w.d && o.epoch == w.e ==> o.gen <= g
  }

  /** What each phase knows about the ledger, whatever else is going on. */
  ghost predicate PhaseOk(w: Binding, k: Desk, log: seq<nat>, phase: Phase)
    requires Current(k, w.d, w.session, w.e)
  {
    match phase
    case Observed(_, Some(f)) => Pinned(w, k, f.generation)
    case Claimed(g) => Pinned(w, k, g)
    case Mismatched(_, g) => Open(w, k, g) && k.deliveries[w.d].delivered == k.deliveries[w.d].acked
    case Delivering(g) => Newest(w, k, g) && g !in log
    case Returned(g, status) => Newest(w, k, g) && (status == Status.Delivered ==> g in log)
    case _ => true
  }

  /** The generation some poll has delivered but not yet confirmed. */
  predicate BeingConfirmed(m: Machine, g: nat) {
    m.claim.Some? && PhaseOf(m, m.claim.value) == Returned(g, Status.Delivered)
  }

  ghost predicate LogOk(w: Binding, m: Machine) {
    && (forall i :: 0 <= i < |m.delivered| ==> Answered(w, m.desk, m.delivered[i]) || BeingConfirmed(m, m.delivered[i]))
    && (forall i, j :: 0 <= i < j < |m.delivered| ==> m.delivered[i] != m.delivered[j])
  }

  ghost predicate ClaimOk(m: Machine) {
    forall p :: PhaseOf(m, p).Holding() <==> m.claim == Some(p)
  }

  ghost predicate MachineInv(w: Binding, m: Machine) {
    && DeskInv(m.board.latest, m.desk)
    && Current(m.desk, w.d, w.session, w.e)
    && ClaimOk(m) && LogOk(w, m)
    && (forall p :: PhaseOk(w, m.desk, m.delivered, PhaseOf(m, p)))
    && (forall i :: 0 <= i < |m.calls| ==> m.calls[i].gen == m.calls[i].claimedFor)
  }

  /** A coalescer that has not polled yet, over a registered connection. */
  predicate Fresh(w: Binding, m: Machine) {
    && m.collection == None && m.inFlight == None && m.claim == None && m.polls == map[]
    && m.calls == [] && m.delivered == [] && m.refusals == []
    && Current(m.desk, w.d, w.session, w.e)
  }

  // ---- the surroundings keep what polls rely on -------------------------------------------

  /** How the rest of the daemon can change this connection's rows. */
  ghost predicate Evolves(w: Binding, k: Desk, n: Desk) {
    && Current(k, w.d, w.session, w.e) && Current(n, w.d, w.session, w.e)
    && k.deliveries[w.d].delivered == n.deliveries[w.d].delivered
    && k.deliveries[w.d].acked <= n.deliveries[w.d].acked
    && (forall o: OfferKey :: o.driver == w.d && o.epoch == w.e ==> (o in k.offers <==> o in n.offers))
    && (forall g :: Answered(w, k, g) ==> Answered(w, n, g))
    && (forall g :: Open(w, n, g) ==> Open(w, k, g))
    && (k.deliveries[w.d].delivered == k.deliveries[w.d].acked ==> forall g :: Open(w, k, g) ==> Open(w, n, g))
    && (forall g :: Has(w, n, g) ==> Open(w, n, g) || Answered(w, n, g))
  }

  lemma AckEvolves(w: Binding, latest: nat, k: Desk, through: nat)
    requires DeskInv(latest, k) && Current(k, w.d, w.session, w.e)
    ensures Evolves(w, k, AckGeneration(k, w.d, w.session, w.e, through).desk)
    ensures Evolves(w, k, AckDelivered(k, w.d, through).desk)
  {
    assert DriverInv(latest, k, w.d);
  }

  lemma PullEvolves(w: Binding, b: Board, k: Desk, full: bool)
    requires DeskInv(b.latest, k) && Current(k, w.d, w.session, w.e)
    ensures Evolves(w, k, ReconcileDelivered(b, k, w.d, full).desk)
  {
    assert DriverInv(b.latest, k, w.d);
  }

  lemma AdvanceEvolves(w: Binding, latest: nat, k: Desk, next: nat)
    requires DeskInv(latest, k) && Current(k, w.d, w.session, w.e)
    ensures Evolves(w, k, Advance(k, next))
  {
    assert DriverInv(latest, k, w.d);
  }

  lemma SurroundKeeps(w: Binding, b: Board, k: Desk, env: Env)
    requires DeskInv(b.latest, k) && Current(k, w.d, w.session, w.e)
    ensures var (c, n) := Surround(w, b, k, env); DeskInv(c.latest, n) && Evolves(w, k, n)
  {
    match env
    case Bumped(c) =>
      if Bump(b, c).Some? {
        AdvanceKeepsInv(b.latest, k, Bump(b, c).value.latest);
        AdvanceEvolves(w, b.latest, k, Bump(b, c).value.latest);
      } else {
        assert DriverInv(b.latest, k, w.d);
      }
    case Acked(through) =>
      AckGenerationKeepsInv(b.latest, k, w.d, w.session, w.e, through);
      AckEvolves(w, b.latest, k, through);
    case AckedExact(through) =>
      AckDeliveredKeepsInv(b.latest, k, w.d, through);
      AckEvolves(w, b.latest, k, through);
    case Pulled(full) =>
      ReconcileKeepsInv(b, k, w.d, full);
      PullEvolves(w, b, k, full);
  }

  lemma PhaseEvolves(w: Binding, k: Desk, n: Desk, log: seq<nat>, phase: Phase)
    requires Evolves(w, k, n) && PhaseOk(w, k, log, phase)
    requires k.deliveries[w.d].acked <= n.deliveries[w.d].acked <= n.deliveries[w.d].delivered
    ensures PhaseOk(w, n, log, phase)
  {
    match phase
    case Delivering(g) => NewestEvolves(w, k, n, g);
    case Returned(g, _) => NewestEvolves(w, k, n, g);
    case _ =>
  }

  lemma NewestEvolves(w: Binding, k: Desk, n: Desk, g: nat)
    requires Evolves(w, k, n) && Newest(w, k, g)
    ensures Newest(w, n, g)
  {
    assert OfferKey(w.d, w.e, g) in n.offers;
  }

  lemma WorldKeeps(w: Binding, m: Machine, env: Env)
    requires MachineInv(w, m)
    ensures MachineInv(w, Step(w, m, World(env)))
  {
    var n := Step(w, m, World(env));
    SurroundKeeps(w, m.board, m.desk, env);
    assert DriverInv(n.board.latest, n.desk, w.d);
    forall p ensures PhaseOk(w, n.desk, n.delivered, PhaseOf(n, p)) {
      assert PhaseOf(n, p) == PhaseOf(m, p);
      PhaseEvolves(w, m.desk, n.desk, m.delivered, PhaseOf(m, p));
    }
    forall p ensures PhaseOf(n, p).Holding() <==> n.claim == Some(p) { assert PhaseOf(n, p) == PhaseOf(m, p); }
    forall i | 0 <= i < |n.delivered| ensures Answered(w, n.desk, n.delivered[i]) || BeingConfirmed(n, n.delivered[i]) {
      assert Answered(w, m.desk, m.delivered[i]) || BeingConfirmed(m, m.delivered[i]);
    }
  }

  // ---- one poll's move keeps everybody's knowledge --------------------------------------------

  /** A move of poll p that leaves other polls' phases and what they know intact. */
  lemma PollKeeps(w: Binding, m: Machine, n: Machine, p: PollId)
    requires MachineInv(w, m)
    requires DeskInv(n.board.latest, n.desk) && Current(n.desk, w.d, w.session, w.e) && LogOk(w, n)
    requires n.polls == m.polls[p := PhaseOf(n, p)] && p in n.polls
    requires PhaseOk(w, n.desk, n.delivered, PhaseOf(n, p))
    requires m.claim in {None, Some(p)} || (n.desk == m.desk && n.delivered == m.delivered)
    requires n.claim == (if PhaseOf(n, p).Holding() then Some(p) else if m.claim == Some(p) then None else m.claim)
    requires PhaseOf(n, p).Holding() ==> m.claim in {None, Some(p)}
    requires forall g :: Pinned(w, m.desk, g) ==> Pinned(w, n.desk, g)
    requires forall i :: 0 <= i < |n.calls| ==> n.calls[i].gen == n.calls[i].claimedFor
    ensures MachineInv(w, n)
  {
    forall q ensures PhaseOk(w, n.desk, n.delivered, PhaseOf(n, q)) && (PhaseOf(n, q).Holding() <==> n.claim == Some(q)) {
      assert PhaseOk(w, m.desk, m.delivered, PhaseOf(m, q));
      assert PhaseOf(m, q).Holding() <==> m.claim == Some(q);
      if q != p {
        assert PhaseOf(n, q) == PhaseOf(m, q);
      }
    }
  }

  /** The delivered log stays explained when the desk and the holder's phase allow it. */
  lemma LogKeeps(w: Binding, m: Machine, n: Machine)
    requires MachineInv(w, m) && n.delivered == m.delivered
    requires forall g :: Answered(w, m.desk, g) ==> Answered(w, n.desk, g)
    requires forall g :: BeingConfirmed(m, g) ==> BeingConfirmed(n, g) || Answered(w, n.desk, g)
    ensures LogOk(w, n)
  {
    forall i | 0 <= i < |n.delivered| ensures Answered(w, n.desk, n.delivered[i]) || BeingConfirmed(n, n.delivered[i]) {
      assert Answered(w, m.desk, m.delivered[i]) || BeingConfirmed(m, m.delivered[i]);
    }
  }

  lemma FrontierIsPinned(w: Binding, b: Board, k: Desk)
    requires DeskInv(b.latest, k) && Current(k, w.d, w.session, w.e)
    ensures var f := NotificationFrontier(b, k, w.d, w.session, w.e);
            f.Granted? && (f.value.Some? ==> Pinned(w, k, f.value.value.generation))
  {
    assert DriverInv(b.latest, k, w.d);
    OutstandingIsUnanswered(b.latest, k, w.d, w.session, w.e);
    var open := Outstanding(k, w.d, w.session, w.e);
    if open != {} {
      assert Open(w, k, Least(open));
    }
  }

  lemma ObserveKeeps(w: Binding, m: Machine, p: PollId)
    requires MachineInv(w, m) && PhaseOf(m, p).Started?
    ensures MachineInv(w, Step(w, m, Observe(p))) && Step(w, m, Observe(p)).refusals == m.refusals
  {
    var n := Step(w, m, Observe(p));
    FrontierIsPinned(w, m.board, m.desk);
    assert !PhaseOf(m, p).Holding() && m.claim != Some(p);
    LogKeeps(w, m, n);
    PollKeeps(w, m, n, p);
  }

  lemma GateKeeps(w: Binding, m: Machine, p: PollId)
    requires MachineInv(w, m) && PhaseOf(m, p).Observed?
    ensures MachineInv(w, Step(w, m, Gate(p))) && Step(w, m, Gate(p)).refusals == m.refusals
  {
    var n := Step(w, m, Gate(p));
    assert !PhaseOf(m, p).Holding() && m.claim != Some(p);
    assert PhaseOk(w, m.desk, m.delivered, PhaseOf(m, p));
    LogKeeps(w, m, n);
    PollKeeps(w, m, n, p);
  }

  /** What the claim holder's offer yields: the claimed frontier, nothing, or a newer fresh offer. */
  lemma TakeFacts(w: Binding, m: Machine, g: nat)
    requires DeskInv(m.board.latest, m.desk) && Current(m.desk, w.d, w.session, w.e) && Pinned(w, m.desk, g)
    ensures var r := OfferNotification(m.board, m.desk, w.d, w.session, w.e);
            && DeskInv(m.board.latest, r.desk) && Current(r.desk, w.d, w.session, w.e)
            && r.answer.Granted? && r.desk.deliveries == m.desk.deliveries
            && (forall h :: Answered(w, r.desk, h) <==> Answered(w, m.desk, h))
            && (r.answer.value.Some? ==>
                  var h := r.answer.value.value.generation;
                  && Open(w, r.desk, h) && Newest(w, r.desk, h)
                  && (h != g ==> r.desk.deliveries[w.d].delivered == r.desk.deliveries[w.d].acked))
  {
    var r := OfferNotification(m.board, m.desk, w.d, w.session, w.e);
    assert DriverInv(m.board.latest, m.desk, w.d);
    OfferNeverCollides(m.board, m.desk, w.d, w.session, w.e);
    OfferKeepsInv(m.board, m.desk, w.d, w.session, w.e);
    if r.answer != Granted(None) {
      WakeFacts(m.board, m.desk, w.d, w.session, w.e);
      var h := r.answer.value.value.generation;
      assert DriverInv(m.board.latest, r.desk, w.d);
      OpenIsGreatest(m.board.latest, r.desk, w.d, w.session, w.e, h);
      OfferedKeys(m.board.latest, r.desk, w.d, w.session, w.e);
      forall o | o in r.desk.offers && o.driver == w.d && o.epoch == w.e ensures o.gen <= h {
        assert o == OfferKey(w.d, w.e, o.gen) && o.gen in Offered(r.desk, w.d, w.session, w.e);
      }
      NewOfferKey(w, m.desk, h);
    }
  }

  lemma NewOfferKey(w: Binding, k: Desk, h: nat)
    ensures var n := PutOffer(k, OfferKey(w.d, w.e, h), w.session, false);
            !Has(w, k, h) ==> forall g :: Answered(w, n, g) <==> Answered(w, k, g)
  {
  }

  lemma TakeKeeps(w: Binding, m: Machine, p: PollId)
    requires MachineInv(w, m) && PhaseOf(m, p).Claimed?
    ensures MachineInv(w, Step(w, m, Take(p))) && Step(w, m, Take(p)).refusals == m.refusals
  {
    var n := Step(w, m, Take(p));
    var g := PhaseOf(m, p).gen;
    assert PhaseOk(w, m.desk, m.delivered, PhaseOf(m, p)) && m.claim == Some(p);
    TakeFacts(w, m, g);
    LogKeeps(w, m, n);
    assert forall x :: !BeingConfirmed(m, x);
    if PhaseOf(n, p).Delivering? {
      forall i | 0 <= i < |m.delivered| ensures m.delivered[i] != g {
        assert Answered(w, m.desk, m.delivered[i]);
      }
    }
    PollKeeps(w, m, n, p);
  }

  lemma PullBackKeeps(w: Binding, m: Machine, p: PollId)
    requires MachineInv(w, m) && PhaseOf(m, p).Mismatched?
    ensures MachineInv(w, Step(w, m, PullBack(p))) && Step(w, m, PullBack(p)).refusals == m.refusals
  {
    var n := Step(w, m, PullBack(p));
    var g := PhaseOf(m, p).offered;
    assert PhaseOk(w, m.desk, m.delivered, PhaseOf(m, p)) && m.claim == Some(p);
    assert DriverInv(m.board.latest, m.desk, w.d);
    assert UnconfirmedHere(m.desk, w.d, w.session, w.e, g);
    WithdrawKeepsInv(m.board.latest, m.desk, w.d, w.session, w.e, g);
    LogKeeps(w, m, n);
    PollKeeps(w, m, n, p);
  }

  lemma ReturnKeeps(w: Binding, m: Machine, p: PollId, status: Status)
    requires MachineInv(w, m) && PhaseOf(m, p).Delivering?
    ensures MachineInv(w, Step(w, m, Return(p, status))) && Step(w, m, Return(p, status)).refusals == m.refusals
  {
    var n := Step(w, m, Return(p, status));
    var g := PhaseOf(m, p).gen;
    assert PhaseOk(w, m.desk, m.delivered, PhaseOf(m, p)) && m.claim == Some(p);
    forall i | 0 <= i < |n.delivered| ensures Answered(w, n.desk, n.delivered[i]) || BeingConfirmed(n, n.delivered[i]) {
      if i < |m.delivered| {
        assert Answered(w, m.desk, m.delivered[i]) || BeingConfirmed(m, m.delivered[i]);
      }
    }
    assert forall i :: 0 <= i < |m.delivered| ==> m.delivered[i] != g;
    PollKeeps(w, m, n, p);
  }

  /** The holder's confirmation always meets its own offer, retired or not. */
  lemma ConfirmMeetsOffer(w: Binding, latest: nat, k: Desk, g: nat)
    requires DeskInv(latest, k) && Current(k, w.d, w.session, w.e) && Newest(w, k, g)
    ensures var r := ConfirmDelivery(k, w.d, w.session, w.e, g);
            && r.answer.Granted? && DeskInv(latest, r.desk) && Current(r.desk, w.d, w.session, w.e)
            && Answered(w, r.desk, g)
            && (forall h :: Answered(w, k, h) ==> Answered(w, r.desk, h))
            && (r.desk == k || r.desk.deliveries[w.d].delivered == g)
  {
    assert DriverInv(latest, k, w.d);
    OfferedKeys(latest, k, w.d, w.session, w.e);
    var offered := Offered(k, w.d, w.session, w.e);
    assert g in offered;
    forall h | h in offered ensures h <= g { assert OfferKey(w.d, w.e, h) in k.offers; }
    assert Greatest(offered) == g;
    ConfirmKeepsInv(latest, k, w.d, w.session, w.e, g);
    if ConfirmDelivery(k, w.d, w.session, w.e, g).answer == Granted(true) {
      ConfirmRaises(latest, k, w.d, w.session, w.e, g);
    }
  }

  /** Recording a non-delivery is refused exactly when the wake was retired without being acknowledged. */
  predicate RetiredUnacked(w: Binding, m: Machine, p: PollId) {
    PhaseOf(m, p).Returned? && PhaseOf(m, p).status != Status.Delivered && w.d in m.desk.deliveries
    && Answered(w, m.desk, PhaseOf(m, p).gen) && m.desk.deliveries[w.d].acked < PhaseOf(m, p).gen
  }

  lemma RecordKeeps(w: Binding, m: Machine, p: PollId)
    requires MachineInv(w, m) && PhaseOf(m, p).Returned?
    ensures MachineInv(w, Step(w, m, Record(p)))
    ensures Step(w, m, Record(p)).refusals == m.refusals <==> !RetiredUnacked(w, m, p)
  {
    var n := Step(w, m, Record(p));
    var g, status := PhaseOf(m, p).gen, PhaseOf(m, p).status;
    assert PhaseOk(w, m.desk, m.delivered, PhaseOf(m, p)) && m.claim == Some(p);
    assert DriverInv(m.board.latest, m.desk, w.d);
    if status == Status.Delivered {
      ConfirmMeetsOffer(w, m.board.latest, m.desk, g);
    } else {
      var state := if status == Status.Deferred then DeliveryState.Deferred else DeliveryState.Errored;
      RecordKeepsInv(m.board.latest, m.desk, w.d, w.session, w.e, g, state, None);
      assert OfferKey(w.d, w.e, g) in m.desk.offers;
    }
    LogKeeps(w, m, n);
    PollKeeps(w, m, n, p);
  }

  lemma QuietKeeps(w: Binding, m: Machine, move: Move)
    requires MachineInv(w, m)
    requires move.Tick? || move.Begin? || move.Clean? || move.Unflag? || move.Unlock?
    ensures MachineInv(w, Step(w, m, move)) && Step(w, m, move).refusals == m.refusals
  {
    var n := Step(w, m, move);
    if move.Tick? || n == m {
      forall p ensures PhaseOk(w, n.desk, n.delivered, PhaseOf(n, p)) && (PhaseOf(n, p).Holding() <==> n.claim == Some(p)) {
        assert PhaseOf(n, p) == PhaseOf(m, p) && PhaseOk(w, m.desk, m.delivered, PhaseOf(m, p));
      }
      LogKeeps(w, m, n);
    } else {
      var p := move.p;
      assert PhaseOf(m, p).Holding() <==> m.claim == Some(p);
      LogKeeps(w, m, n);
      PollKeeps(w, m, n, p);
    }
  }

  lemma StepKeepsInv(w: Binding, m: Machine, move: Move)
    requires MachineInv(w, m)
    ensures MachineInv(w, Step(w, m, move))
    ensures Step(w, m, move).refusals == m.refusals <==> !(move.Record? && RetiredUnacked(w, m, move.p))
  {
    match move
    case World(env) => WorldKeeps(w, m, env);
    case Observe(p) => if PhaseOf(m, p).Started? { ObserveKeeps(w, m, p); }
    case Gate(p) => if PhaseOf(m, p).Observed? { GateKeeps(w, m, p); }
    case Take(p) => if PhaseOf(m, p).Claimed? { TakeKeeps(w, m, p); }
    case PullBack(p) => if PhaseOf(m, p).Mismatched? { PullBackKeeps(w, m, p); }
    case Return(p, status) => if PhaseOf(m, p).Delivering? { ReturnKeeps(w, m, p, status); }
    case Record(p) => if PhaseOf(m, p).Returned? { RecordKeeps(w, m, p); }
    case _ => QuietKeeps(w, m, move);
  }

  // ---- whole runs -------------------------------------------------------------------------------

  lemma {:induction false} RunKeepsInv(w: Binding, m: Machine, moves: seq<Move>)
    requires Fresh(w, m) && DeskInv(m.board.latest, m.desk)
    ensures MachineInv(w, Run(w, m, moves))
  {
    if moves != [] {
      RunKeepsInv(w, m, moves[..|moves| - 1]);
      StepKeepsInv(w, Run(w, m, moves[..|moves| - 1]), moves[|moves| - 1]);
    }
  }

  /**
   * In every interleaving: at most one actuator call is in flight, every call
   * carries exactly the frontier its poll claimed, and no generation is
   * reported delivered twice on one connection.
   */
  lemma WakesAreExclusive(w: Binding, m: Machine, moves: seq<Move>, p: PollId, q: PollId)
    requires Fresh(w, m) && DeskInv(m.board.latest, m.desk)
    ensures var n := Run(w, m, moves);
            && (PhaseOf(n, p).Delivering? && PhaseOf(n, q).Delivering? ==> p == q)
            && (forall i :: 0 <= i < |n.calls| ==> n.calls[i].gen == n.calls[i].claimedFor)
            && (forall i, j :: 0 <= i < j < |n.delivered| ==> n.delivered[i] != n.delivered[j])
            && (forall i :: 0 <= i < |n.delivered| ==> Has(w, n.desk, n.delivered[i]))
  {
    RunKeepsInv(w, m, moves);
    var n := Run(w, m, moves);
    forall i | 0 <= i < |n.delivered| ensures Has(w, n.desk, n.delivered[i]) {
      assert Answered(w, n.desk, n.delivered[i]) || BeingConfirmed(n, n.delivered[i]);
      if BeingConfirmed(n, n.delivered[i]) {
        assert PhaseOk(w, n.desk, n.delivered, PhaseOf(n, n.claim.value));
      }
    }
  }

  // ---- when nothing a poll asks is ever refused ---------------------------------------------------

  /** A wake in hand, until it is confirmed, is unanswered or already acknowledged. */
  predicate InHandOk(w: Binding, k: Desk, phase: Phase)
    requires Current(k, w.d, w.session, w.e)
  {
    match phase
    case Delivering(g) => Open(w, k, g) || k.deliveries[w.d].acked >= g
    case Returned(g, status) => status == Status.Delivered || Open(w, k, g) || k.deliveries[w.d].acked >= g
    case _ => true
  }

  ghost predicate Settled(w: Binding, m: Machine) {
    Current(m.desk, w.d, w.session, w.e) && forall p :: InHandOk(w, m.desk, PhaseOf(m, p))
  }

  lemma SurroundSettled(w: Binding, b: Board, k: Desk, env: Env, g: nat)
    requires DeskInv(b.latest, k) && Current(k, w.d, w.session, w.e) && !env.Pulled?
    requires Open(w, k, g) || k.deliveries[w.d].acked >= g
    ensures var n := Surround(w, b, k, env).1;
            Current(n, w.d, w.session, w.e) && (Open(w, n, g) || n.deliveries[w.d].acked >= g)
  {
    assert DriverInv(b.latest, k, w.d);
  }

  lemma WorldSettled(w: Binding, m: Machine, env: Env)
    requires MachineInv(w, m) && Settled(w, m) && !env.Pulled?
    ensures Settled(w, Step(w, m, World(env)))
  {
    var n := Step(w, m, World(env));
    SurroundKeeps(w, m.board, m.desk, env);
    forall q ensures InHandOk(w, n.desk, PhaseOf(n, q)) {
      assert PhaseOf(n, q) == PhaseOf(m, q) && InHandOk(w, m.desk, PhaseOf(m, q));
      if PhaseOf(m, q).Delivering? || (PhaseOf(m, q).Returned? && PhaseOf(m, q).status != Status.Delivered) {
        SurroundSettled(w, m.board, m.desk, env, PhaseOf(m, q).gen);
      }
    }
  }

  /** Only the claim holder has a wake in hand, so a move of its poll leaves no other one. */
  lemma HolderSettled(w: Binding, m: Machine, n: Machine, p: PollId)
    requires ClaimOk(m) && Current(n.desk, w.d, w.session, w.e)
    requires n.polls == m.polls[p := PhaseOf(n, p)] && p in n.polls
    requires InHandOk(w, n.desk, PhaseOf(n, p)) && (m.claim == Some(p) || n.desk == m.desk)
    requires Settled(w, m)
    ensures Settled(w, n)
  {
    forall q ensures InHandOk(w, n.desk, PhaseOf(n, q)) {
      assert InHandOk(w, m.desk, PhaseOf(m, q));
      assert PhaseOf(m, q).Holding() <==> m.claim == Some(q);
      if q != p {
        assert PhaseOf(n, q) == PhaseOf(m, q);
      }
    }
  }

  lemma TakeSettled(w: Binding, m: Machine, p: PollId)
    requires MachineInv(w, m) && PhaseOf(m, p).Claimed?
    ensures var n := Step(w, m, Take(p)); Current(n.desk, w.d, w.session, w.e) && InHandOk(w, n.desk, PhaseOf(n, p))
  {
    assert PhaseOk(w, m.desk, m.delivered, PhaseOf(m, p));
    TakeFacts(w, m, PhaseOf(m, p).gen);
  }

  /** What a move of poll p may change: the desk only for the claim holder, and only p's phase. */
  ghost predicate OwnMove(w: Binding, m: Machine, n: Machine, p: PollId) {
    n == m || (p in n.polls && n.polls == m.polls[p := PhaseOf(n, p)] && (m.claim == Some(p) || n.desk == m.desk))
  }

  /** Moves that end with no wake in hand. */
  lemma EmptyHanded(w: Binding, m: Machine, move: Move)
    requires ClaimOk(m) && !move.World? && !move.Tick? && !move.Take? && !move.Return?
    ensures var n := Step(w, m, move);
            OwnMove(w, m, n, move.p) && (n == m || (!PhaseOf(n, move.p).Delivering? && !PhaseOf(n, move.p).Returned?))
  {
    assert PhaseOf(m, move.p).Holding() <==> m.claim == Some(move.p);
  }

  lemma ReturnSettled(w: Binding, m: Machine, p: PollId, status: Status)
    requires ClaimOk(m) && Settled(w, m)
    ensures var n := Step(w, m, Return(p, status));
            OwnMove(w, m, n, p) && n.desk == m.desk && InHandOk(w, n.desk, PhaseOf(n, p))
  {
    assert InHandOk(w, m.desk, PhaseOf(m, p));
  }

  lemma StaysCurrent(w: Binding, m: Machine, move: Move)
    requires MachineInv(w, m)
    ensures Current(Step(w, m, move).desk, w.d, w.session, w.e)
  {
    StepKeepsInv(w, m, move);
  }

  lemma TakeKeepsSettled(w: Binding, m: Machine, p: PollId)
    requires MachineInv(w, m) && Settled(w, m)
    ensures Settled(w, Step(w, m, Take(p)))
  {
    assert PhaseOf(m, p).Holding() <==> m.claim == Some(p);
    if PhaseOf(m, p).Claimed? {
      TakeSettled(w, m, p);
      HolderSettled(w, m, Step(w, m, Take(p)), p);
    }
  }

  lemma ReturnKeepsSettled(w: Binding, m: Machine, p: PollId, status: Status)
    requires ClaimOk(m) && Settled(w, m)
    ensures Settled(w, Step(w, m, Return(p, status)))
  {
    ReturnSettled(w, m, p, status);
    if Step(w, m, Return(p, status)) != m { HolderSettled(w, m, Step(w, m, Return(p, status)), p); }
  }

  lemma PollSettled(w: Binding, m: Machine, move: Move)
    requires MachineInv(w, m) && Settled(w, m) && !move.World? && !move.Tick?
    ensures Settled(w, Step(w, m, move))
  {
    match move
    case Take(p) => TakeKeepsSettled(w, m, p);
    case Return(p, status) => ReturnKeepsSettled(w, m, p, status);
    case _ =>
      StaysCurrent(w, m, move);
      QuietSettled(w, m, move);
  }

  lemma QuietSettled(w: Binding, m: Machine, move: Move)
    requires ClaimOk(m) && Settled(w, m) && Current(Step(w, m, move).desk, w.d, w.session, w.e)
    requires !move.World? && !move.Tick? && !move.Take? && !move.Return?
    ensures Settled(w, Step(w, m, move))
  {
    EmptyHanded(w, m, move);
    if Step(w, m, move) != m { HolderSettled(w, m, Step(w, m, move), move.p); }
  }

  lemma StepSettled(w: Binding, m: Machine, move: Move)
    requires MachineInv(w, m) && Settled(w, m) && !(move.World? && move.env.Pulled?)
    ensures Settled(w, Step(w, m, move)) && Step(w, m, move).refusals == m.refusals
  {
    StepKeepsInv(w, m, move);
    match move
    case World(env) => WorldSettled(w, m, env);
    case Tick(_) =>
      forall q ensures InHandOk(w, m.desk, PhaseOf(Step(w, m, move), q)) {
        assert InHandOk(w, m.desk, PhaseOf(m, q)) && PhaseOf(Step(w, m, move), q) == PhaseOf(m, q);
      }
    case _ =>
      PollSettled(w, m, move);
      assert InHandOk(w, m.desk, PhaseOf(m, move.p));
  }

  /** Under bumps and acknowledgements alone, no store call made by any poll is ever refused. */
  lemma {:induction false} PollsNeverRaise(w: Binding, m: Machine, moves: seq<Move>)
    requires Fresh(w, m) && DeskInv(m.board.latest, m.desk)
    requires forall i :: 0 <= i < |moves| && moves[i].World? ==> !moves[i].env.Pulled?
    ensures Run(w, m, moves).refusals == [] && Settled(w, Run(w, m, moves))
  {
    if moves != [] {
      var before := moves[..|moves| - 1];
      assert forall i :: 0 <= i < |before| ==> before[i] == moves[i];
      PollsNeverRaise(w, m, before);
      RunKeepsInv(w, m, before);
      StepSettled(w, Run(w, m, before), moves[|moves| - 1]);
    }
  }

  /**
   * With reconciles in between, the one call that can be refused is recording
   * a non-delivery, and it is refused exactly when the wake in hand was
   * retired without having been acknowledged.
   */
  lemma RefusedExactlyWhenRetired(w: Binding, m: Machine, moves: seq<Move>, last: Move)
    requires Fresh(w, m) && DeskInv(m.board.latest, m.desk)
    ensures Run(w, m, moves + [last]).refusals != Run(w, m, moves).refusals <==>
            last.Record? && RetiredUnacked(w, Run(w, m, moves), last.p)
  {
    RunKeepsInv(w, m, moves);
    assert (moves + [last])[..|moves|] == moves;
    StepKeepsInv(w, Run(w, m, moves), last);
  }

  /** A pull during a redelivery confirms its row without acknowledging it, and leaves the poll where it stands. */
  lemma PullRetires(w: Binding, m: Machine, p: PollId, full: bool)
    requires MachineInv(w, m) && PhaseOf(m, p).Delivering?
    requires var c := m.desk.deliveries[w.d]; c.acked < c.delivered == PhaseOf(m, p).gen
    ensures var n := Step(w, m, World(Pulled(full))); var g := PhaseOf(m, p).gen;
            && PhaseOf(n, p) == Delivering(g) && n.refusals == m.refusals
            && Current(n.desk, w.d, w.session, w.e) && Answered(w, n.desk, g) && n.desk.deliveries[w.d].acked < g
  {
    assert DriverInv(m.board.latest, m.desk, w.d);
    assert PhaseOk(w, m.desk, m.delivered, PhaseOf(m, p));
    ReconcileNeverFails(m.board, m.desk, w.d, full);
    RetireKeepsInv(m.board.latest, m.desk, w.d);
  }

  lemma DeferralIsRefused(w: Binding, m: Machine, p: PollId, g: nat)
    requires PhaseOf(m, p) == Delivering(g) && Current(m.desk, w.d, w.session, w.e)
    requires Answered(w, m.desk, g) && m.desk.deliveries[w.d].acked < g
    ensures var n := Step(w, m, Return(p, Status.Deferred));
            RetiredUnacked(w, n, p) && Step(w, n, Record(p)).refusals == m.refusals + [NotTheOutstandingOffer]
  {
  }

  /** A reconcile during a redelivery retires it, so recording a deferral afterwards is refused. */
  lemma ReconcileRetiresRedelivery(w: Binding, m: Machine, p: PollId, full: bool)
    requires MachineInv(w, m) && PhaseOf(m, p).Delivering?
    requires var c := m.desk.deliveries[w.d]; c.acked < c.delivered == PhaseOf(m, p).gen
    ensures var n := Step(w, Step(w, m, World(Pulled(full))), Return(p, Status.Deferred));
            RetiredUnacked(w, n, p) && Step(w, n, Record(p)).refusals == m.refusals + [NotTheOutstandingOffer]
  {
    PullRetires(w, m, p, full);
    DeferralIsRefused(w, Step(w, m, World(Pulled(full))), p, PhaseOf(m, p).gen);
  }

  /** One undisturbed poll up to its gate. */
  function TryPoll(w: Binding, m: Machine, p: PollId): Machine {
    Step(w, Step(w, Step(w, m, Begin(p)), Observe(p)), Gate(p))
  }

  /** A fresh connection that owes a redelivery observes it, and its first poll claims it. */
  lemma RedeliveryIsClaimed(w: Binding, m: Machine, p: PollId)
    requires Fresh(w, m) && DeskInv(m.board.latest, m.desk) && Offered(m.desk, w.d, w.session, w.e) == {}
    requires m.desk.deliveries[w.d].acked < m.desk.deliveries[w.d].delivered
    ensures var gated := TryPoll(w, m, p);
            && MachineInv(w, gated) && gated.desk == m.desk && gated.board == m.board && gated.refusals == []
            && PhaseOf(gated, p) == Claimed(m.desk.deliveries[w.d].delivered)
  {
    assert DriverInv(m.board.latest, m.desk, w.d);
    assert Run(w, m, []) == m;
    RunKeepsInv(w, m, []);
    FrontierAgrees(m.board, m.desk, w.d, w.session, w.e);
    FreshConnectionIsOffered(m.board, m.desk, w.d, w.session, w.e);
    NothingOutstanding(w, m.board.latest, m.desk);
    var begun := Step(w, m, Begin(p));
    var seen := Step(w, begun, Observe(p));
    StepKeepsInv(w, m, Begin(p));
    StepKeepsInv(w, begun, Observe(p));
    StepKeepsInv(w, seen, Gate(p));
  }

  lemma NothingOutstanding(w: Binding, latest: nat, k: Desk)
    requires DriverInv(latest, k, w.d) && Current(k, w.d, w.session, w.e) && Offered(k, w.d, w.session, w.e) == {}
    ensures Outstanding(k, w.d, w.session, w.e) == {}
  {
    OutstandingIsUnanswered(latest, k, w.d, w.session, w.e);
    OfferedKeys(latest, k, w.d, w.session, w.e);
    forall g ensures g !in Outstanding(k, w.d, w.session, w.e) {
      assert Unanswered(k, OfferKey(w.d, w.e, g)) ==> g in Offered(k, w.d, w.session, w.e);
    }
  }

  /**
   * The race is real on every fresh connection that owes a redelivery: poll,
   * take the wake, let a reconcile run, defer; recording the deferral is refused.
   */
  lemma ReconcileRace(w: Binding, m: Machine, p: PollId, full: bool)
    requires Fresh(w, m) && DeskInv(m.board.latest, m.desk) && Offered(m.desk, w.d, w.session, w.e) == {}
    requires m.desk.deliveries[w.d].acked < m.desk.deliveries[w.d].delivered
    ensures var taken := Step(w, TryPoll(w, m, p), Take(p));
            var back := Step(w, Step(w, taken, World(Pulled(full))), Return(p, Status.Deferred));
            Step(w, back, Record(p)).refusals == [NotTheOutstandingOffer]
  {
    var gated := TryPoll(w, m, p);
    assert DriverInv(m.board.latest, m.desk, w.d);
    RedeliveryIsClaimed(w, m, p);
    FreshConnectionIsOffered(m.board, m.desk, w.d, w.session, w.e);
    WakeFacts(m.board, m.desk, w.d, w.session, w.e);
    StepKeepsInv(w, gated, Take(p));
    var taken := Step(w, gated, Take(p));
    assert PhaseOf(taken, p) == Delivering(m.desk.deliveries[w.d].delivered);
    ReconcileRetiresRedelivery(w, taken, p, full);
  }

  // ---- no wake waits for ever ------------------------------------------------------------------------

  /** A poll's reading of the clock is not ahead of it. */
  predicate Timely(phase: Phase, clock: nat) {
    match phase
    case Started(now) => now <= clock
    case Observed(now, _) => now <= clock
    case _ => true
  }

  predicate OpenInTime(w: Binding, collection: Option<Collection>, clock: nat) {
    collection.Some? ==> collection.value.deadline <= clock + w.window
  }

  ghost predicate DeadlineOk(w: Binding, m: Machine) {
    OpenInTime(w, m.collection, m.clock) && forall p :: Timely(PhaseOf(m, p), m.clock)
  }

  lemma GateDeadline(w: Binding, m: Machine, p: PollId)
    requires OpenInTime(w, m.collection, m.clock) && Timely(PhaseOf(m, p), m.clock)
    ensures OpenInTime(w, Step(w, m, Gate(p)).collection, m.clock)
  {
  }

  /** A move touches at most the phase of its own poll, which it leaves timely, and never turns the clock back. */
  lemma MoveTimely(w: Binding, m: Machine, move: Move, p: PollId)
    requires Timely(PhaseOf(m, p), m.clock)
    ensures m.clock <= Step(w, m, move).clock && Timely(PhaseOf(Step(w, m, move), p), Step(w, m, move).clock)
  {
  }

  lemma StepDeadline(w: Binding, m: Machine, move: Move)
    requires DeadlineOk(w, m)
    ensures DeadlineOk(w, Step(w, m, move))
  {
    var n := Step(w, m, move);
    forall p ensures Timely(PhaseOf(n, p), n.clock) {
      assert Timely(PhaseOf(m, p), m.clock);
      MoveTimely(w, m, move, p);
    }
    if move.Gate? {
      assert Timely(PhaseOf(m, move.p), m.clock);
      GateDeadline(w, m, move.p);
    }
  }

  lemma {:induction false} RunDeadline(w: Binding, m: Machine, moves: seq<Move>)
    requires Fresh(w, m)
    ensures DeadlineOk(w, Run(w, m, moves))
  {
    if moves != [] {
      RunDeadline(w, m, moves[..|moves| - 1]);
      StepDeadline(w, Run(w, m, moves[..|moves| - 1]), moves[|moves| - 1]);
    }
  }

  /**
   * A pending wake is never starved by its own window: while the claim is
   * free, a poll, one window of time, and a second poll win the claim.
   */
  lemma SecondPollClaims(w: Binding, m: Machine, p: PollId)
    requires MachineInv(w, m) && DeadlineOk(w, m) && PhaseOf(m, p).Idle? && m.claim == None
    requires NotificationFrontier(m.board, m.desk, w.d, w.session, w.e).Granted?
    requires NotificationFrontier(m.board, m.desk, w.d, w.session, w.e).value.Some?
    ensures var n := TryPoll(w, m, p);
            n.claim == Some(p) || TryPoll(w, Step(w, n, Tick(w.window)), p).claim == Some(p)
  {
    var f := NotificationFrontier(m.board, m.desk, w.d, w.session, w.e).value.value;
    var a := Step(w, Step(w, m, Begin(p)), Observe(p));
    assert PhaseOf(a, p) == Observed(m.clock, Some(f));
    var n := Step(w, a, Gate(p));
    if n.claim != Some(p) {
      assert n.collection.Some? && n.collection.value.generation >= f.generation;
      assert n.collection.value.deadline <= m.clock + w.window;
      var b := Step(w, n, Tick(w.window));
      var c := Step(w, Step(w, b, Begin(p)), Observe(p));
      assert PhaseOf(c, p) == Observed(m.clock + w.window, Some(f));
      assert Collect(w, c, m.clock + w.window, f.generation) == n.collection.value;
    }
  }

  // ---- every normal wake waits for its window ------------------------------------------------

  /** The generation of the frontier is the first one beyond a delivery that is under way, so it opens its own window. */
  predicate OpensAnew(m: Machine, g: nat) {
    m.collection.Some? && m.inFlight.Some? && m.collection.value.generation <= m.inFlight.value < g
  }

  /** When the window that holds this frontier back closes. */
  function ClosesAt(w: Binding, m: Machine, now: nat, g: nat): nat {
    if m.collection.None? || OpensAnew(m, g) then now + w.window else m.collection.value.deadline
  }

  /** The frontier is immediate, urgent, or past its window. */
  predicate MayPass(w: Binding, m: Machine, now: nat, f: Frontier) {
    f.immediate || f.priority == Urgent || ClosesAt(w, m, now, f.generation) <= now
  }

  /**
   * A gate wins the claim iff the claim is free and its frontier is immediate,
   * urgent, or past its window. It keeps an open window's deadline whatever
   * else joins it, and forgets the window iff nothing is pending.
   */
  lemma GateWinsIff(w: Binding, m: Machine, p: PollId, now: nat, frontier: Option<Frontier>)
    requires PhaseOf(m, p) == Observed(now, frontier) && m.claim != Some(p)
    ensures var n := Step(w, m, Gate(p));
            && (n.claim == Some(p) <==> m.claim == None && frontier.Some? && MayPass(w, m, now, frontier.value))
            && (n.claim == Some(p) ==>
                  n.inFlight == Some(frontier.value.generation) && PhaseOf(n, p) == Claimed(frontier.value.generation))
            && (n.claim != Some(p) ==> n.claim == m.claim && n.inFlight == m.inFlight && PhaseOf(n, p).Idle?)
            && (n.collection.None? <==> frontier.None?)
            && (frontier.Some? ==>
                  var g := frontier.value.generation;
                  && n.collection.value.deadline == ClosesAt(w, m, now, g)
                  && n.collection.value.generation >= g)
            && n.desk == m.desk && n.board == m.board
  {
  }

  /** A settled or empty wake takes its collection along, unless that had already moved on to a newer generation. */
  lemma CleanMeans(w: Binding, m: Machine, p: PollId, g: nat)
    requires PhaseOf(m, p) == Empty(g) || PhaseOf(m, p) == Confirmed(g)
    ensures var n := Step(w, m, Clean(p));
            && n == m.(collection := n.collection, polls := n.polls) && PhaseOf(n, p) == Unflagging
            && n.collection == if m.collection.Some? && m.collection.value.generation > g then m.collection else None
  {
  }

  /** The generation under way is that of the poll that holds the claim, from the gate until it lets go. */
  predicate FlightOk(m: Machine) {
    match m.claim
    case None => m.inFlight == None
    case Some(p) =>
      match PhaseOf(m, p)
      case Claimed(g) => m.inFlight == Some(g)
      case Empty(g) => m.inFlight == Some(g)
      case Mismatched(g, _) => m.inFlight == Some(g)
      case Delivering(g) => m.inFlight == Some(g)
      case Returned(g, _) => m.inFlight == Some(g)
      case Confirmed(g) => m.inFlight == Some(g)
      case Unflagging => m.inFlight.Some?
      case _ => m.inFlight == None
  }

  lemma MoveFlight(w: Binding, m: Machine, move: Move)
    requires ClaimOk(m) && FlightOk(m)
    ensures FlightOk(Step(w, m, move))
  {
    if !move.World? && !move.Tick? {
      assert PhaseOf(m, move.p).Holding() <==> m.claim == Some(move.p);
    }
  }

  /** Over every run no generation is marked as under way without a poll that holds the claim for it. */
  lemma {:induction false} RunFlight(w: Binding, m: Machine, moves: seq<Move>)
    requires Fresh(w, m) && DeskInv(m.board.latest, m.desk)
    ensures FlightOk(Run(w, m, moves))
  {
    if moves != [] {
      var before := moves[..|moves| - 1];
      RunFlight(w, m, before);
      RunKeepsInv(w, m, before);
      MoveFlight(w, Run(w, m, before), moves[|moves| - 1]);
    }
  }

  /**
   * A poll that claimed for one generation and finds another one offered takes
   * that offer back: no actuator call is made, and the ledger is as it was but
   * for the offer itself, also where that had stood open before.
   */
  lemma MismatchIsUndone(w: Binding, m: Machine, p: PollId, g: nat, h: nat)
    requires MachineInv(w, m) && PhaseOf(m, p) == Claimed(g)
    requires PhaseOf(Step(w, m, Take(p)), p) == Mismatched(g, h)
    ensures var n := Step(w, Step(w, m, Take(p)), PullBack(p));
            && n.desk == m.desk.(offers := m.desk.offers - {OfferKey(w.d, w.e, h)})
            && PhaseOf(n, p) == Unflagging && n.calls == m.calls && n.refusals == m.refusals && n.collection == m.collection
  {
    OfferNeverCollidesHere(w, m);
    WithdrawUndoesOffer(m.board, m.desk, w.d, w.session, w.e);
  }

  lemma OfferNeverCollidesHere(w: Binding, m: Machine)
    requires MachineInv(w, m)
    ensures OfferNotification(m.board, m.desk, w.d, w.session, w.e).answer.Granted?
  {
    assert DriverInv(m.board.latest, m.desk, w.d);
    OfferNeverCollides(m.board, m.desk, w.d, w.session, w.e);
  }

  /** A claim whose wake was acknowledged away meanwhile delivers nothing, and drops its window unless that moved on. */
  lemma EmptyClaimIsDropped(w: Binding, m: Machine, p: PollId, g: nat)
    requires MachineInv(w, m) && PhaseOf(m, p) == Claimed(g)
    requires OfferNotification(m.board, m.desk, w.d, w.session, w.e).answer == Granted(None)
    ensures var n := Step(w, Step(w, m, Take(p)), Clean(p));
            && n.desk == m.desk && n.calls == m.calls && PhaseOf(n, p) == Unflagging
            && n.collection == if m.collection.Some? && m.collection.value.generation > g then m.collection else None
  {
    assert DriverInv(m.board.latest, m.desk, w.d);
  }

  /** A claim that finds its own generation hands exactly that to the actuator, once. */
  lemma MatchedClaimCalls(w: Binding, m: Machine, p: PollId, g: nat)
    requires PhaseOf(m, p) == Claimed(g)
    requires var a := OfferNotification(m.board, m.desk, w.d, w.session, w.e).answer;
             a.Granted? && a.value.Some? && a.value.value.generation == g
    ensures var n := Step(w, m, Take(p)); n.calls == m.calls + [Call(g, g)] && PhaseOf(n, p) == Delivering(g)
  {
  }
}

/**
 * The delivery ledger of the watchtower drivers: registration epochs, offers,
 * and the three cursors of each driver. Every function is one transaction; a
 * refused one leaves the tables as they were.
 */
module Delivery {
  import opened Common
  import opened Report
  import opened Generations

  type DriverId = string
  type Epoch = nat

  datatype Harness = Claude | Pi | Codex | Copilot

  datatype Registration = Registration(session: SessionId, harness: Harness, epoch: Epoch)

  datatype DeliveryState = Pending | Delivered | Deferred | Errored

  datatype Cursors = Cursors(latest: nat, delivered: nat, acked: nat, state: DeliveryState, lastError: Option<string>)

  datatype OfferKey = OfferKey(driver: DriverId, epoch: Epoch, gen: nat)

  datatype Offer = Offer(session: SessionId, confirmed: bool)

  /** The tables keyed by driver: registrations, deliveries, offers, and the disabled tombstones. */
  datatype Desk = Desk(
    registrations: map<DriverId, Registration>, deliveries: map<DriverId, Cursors>,
    offers: map<OfferKey, Offer>, disabled: set<DriverId>)

  const VACANT := Desk(map[], map[], map[], {})

  datatype Refusal =
    | AuthorityDisabled | HarnessImmutable | StaleEpoch | UnknownDriver | PrimaryKeyConflict
    | NotTheUnconfirmedOffer | NotTheOutstandingOffer | NotADeferral
    | InconsistentAuthority | GenerationsPending
    | NoExactConfirmedOffer | OlderOfferUnconfirmed
    | NotTheDeliveredCursor | UnconfirmedOffer | StaleAck | UndeliveredAck | UnavailableGeneration

  datatype Answer<+T> = Granted(value: T) | Refused(why: Refusal)

  datatype Outcome<+T> = Outcome(desk: Desk, answer: Answer<T>)

  /** One content-free wake. */
  datatype Wake = Wake(generation: nat, priority: Priority, taskCount: nat)

  datatype Frontier = Frontier(generation: nat, priority: Priority, immediate: bool)

  datatype Pull = Pull(through: nat, rows: seq<Row>, since: nat, suppressed: nat)

  // ---- reading ----------------------------------------------------------------

  predicate Current(k: Desk, d: DriverId, session: SessionId, e: Epoch) {
    && d in k.registrations && d in k.deliveries
    && k.registrations[d].session == session && k.registrations[d].epoch == e
  }

  predicate IsOutstanding(k: Desk, d: DriverId, session: SessionId, e: Epoch, o: OfferKey) {
    && o in k.offers && d in k.deliveries
    && o.driver == d && o.epoch == e && k.offers[o].session == session
    && !k.offers[o].confirmed && o.gen > k.deliveries[d].acked
  }

  /** The unconfirmed generations of this connection beyond the acknowledged cursor. */
  function Outstanding(k: Desk, d: DriverId, session: SessionId, e: Epoch): set<nat> {
    set o | o in k.offers && IsOutstanding(k, d, session, e, o) :: o.gen
  }

  /** Every generation this connection was ever offered. */
  function Offered(k: Desk, d: DriverId, session: SessionId, e: Epoch): set<nat> {
    set o | o in k.offers && o.driver == d && o.epoch == e && k.offers[o].session == session :: o.gen
  }

  predicate ConfirmedHere(k: Desk, d: DriverId, session: SessionId, e: Epoch, g: nat) {
    var o := OfferKey(d, e, g);
    o in k.offers && k.offers[o].session == session && k.offers[o].confirmed
  }

  predicate UnconfirmedHere(k: Desk, d: DriverId, session: SessionId, e: Epoch, g: nat) {
    var o := OfferKey(d, e, g);
    o in k.offers && k.offers[o].session == session && !k.offers[o].confirmed
  }

  function PriorityIn(b: Board, after: nat, through: nat): Priority {
    if exists g :: g in b.generations && after < g <= through && b.generations[g] == Urgent then Urgent else Normal
  }

  function WakeFor(b: Board, after: nat, g: nat): Wake {
    Wake(g, PriorityIn(b, after, g), |WindowTasks(b, after, g)|)
  }

  /** What is pending, without creating an offer. */
  function NotificationFrontier(b: Board, k: Desk, d: DriverId, session: SessionId, e: Epoch): Answer<Option<Frontier>> {
    if !Current(k, d, session, e) then Refused(StaleEpoch)
    else
      var c := k.deliveries[d];
      var open := Outstanding(k, d, session, e);
      if open != {} then
        Granted(Some(Frontier(Least(open), PriorityIn(b, c.acked, Least(open)), true)))
      else if c.latest <= c.acked then Granted(None)
      else if c.delivered > c.acked then
        if ConfirmedHere(k, d, session, e, c.delivered) then Granted(None)
        else Granted(Some(Frontier(c.delivered, PriorityIn(b, c.acked, c.delivered), true)))
      else Granted(Some(Frontier(c.latest, PriorityIn(b, c.acked, c.latest), false)))
  }

  // ---- writing ----------------------------------------------------------------

  function SetCursors(k: Desk, d: DriverId, c: Cursors): Desk { k.(deliveries := k.deliveries[d := c]) }

  function PutOffer(k: Desk, o: OfferKey, session: SessionId, confirmed: bool): Desk {
    k.(offers := k.offers[o := Offer(session, confirmed)])
  }

  /** Bind a new connection epoch. */
  function Register(latest: nat, k: Desk, d: DriverId, session: SessionId, harness: Harness): Outcome<Epoch> {
    if d in k.disabled then Outcome(k, Refused(AuthorityDisabled))
    else if d !in k.registrations then
      if d in k.deliveries then Outcome(k, Refused(PrimaryKeyConflict))
      else
        Outcome(k.(registrations := k.registrations[d := Registration(session, harness, 1)],
                   deliveries := k.deliveries[d := Cursors(latest, 0, 0, Pending, None)]),
                Granted(1))
    else
      var r := k.registrations[d];
      if r.harness != harness then Outcome(k, Refused(HarnessImmutable))
      else Outcome(k.(registrations := k.registrations[d := Registration(session, harness, r.epoch + 1)]),
                   Granted(r.epoch + 1))
  }

  function InsertOffer(b: Board, k: Desk, d: DriverId, session: SessionId, e: Epoch, g: nat): Outcome<Option<Wake>>
    requires d in k.deliveries
  {
    if OfferKey(d, e, g) in k.offers then Outcome(k, Refused(PrimaryKeyConflict))
    else Outcome(PutOffer(k, OfferKey(d, e, g), session, false), Granted(Some(WakeFor(b, k.deliveries[d].acked, g))))
  }

  /** One exact offer until it is confirmed or the registration changes. */
  function OfferNotification(b: Board, k: Desk, d: DriverId, session: SessionId, e: Epoch): Outcome<Option<Wake>> {
    if !Current(k, d, session, e) then Outcome(k, Refused(StaleEpoch))
    else
      var c := k.deliveries[d];
      var open := Outstanding(k, d, session, e);
      if open != {} then Outcome(k, Granted(Some(WakeFor(b, c.acked, Least(open)))))
      else if c.latest <= c.acked then Outcome(k, Granted(None))
      else if c.delivered > c.acked then
        if ConfirmedHere(k, d, session, e, c.delivered) then Outcome(k, Granted(None))
        else InsertOffer(b, k, d, session, e, c.delivered)
      else InsertOffer(b, k, d, session, e, c.latest)
  }

  /** Delete this connection's exact unconfirmed offer. */
  function Withdraw(k: Desk, d: DriverId, session: SessionId, e: Epoch, g: nat): Outcome<()> {
    if !Current(k, d, session, e) then Outcome(k, Refused(StaleEpoch))
    else if !UnconfirmedHere(k, d, session, e, g) then Outcome(k, Refused(NotTheUnconfirmedOffer))
    else Outcome(k.(offers := k.offers - {OfferKey(d, e, g)}), Granted(()))
  }

  /** Record a deferral or error without consuming the offer. */
  function RecordOutcome(k: Desk, d: DriverId, session: SessionId, e: Epoch, g: nat,
                         state: DeliveryState, error: Option<string>): Outcome<()>
  {
    if state !in {Deferred, Errored} then Outcome(k, Refused(NotADeferral))
    else if !Current(k, d, session, e) then Outcome(k, Refused(StaleEpoch))
    else
      var c := k.deliveries[d];
      if UnconfirmedHere(k, d, session, e, g) then
        Outcome(SetCursors(k, d, c.(state := state, lastError := Clip(error))), Granted(()))
      else if ConfirmedHere(k, d, session, e, g) && c.acked >= g then Outcome(k, Granted(()))
      else Outcome(k, Refused(NotTheOutstandingOffer))
  }

  /** Confirm this epoch's latest offer, if it is the given one. */
  function ConfirmDelivery(k: Desk, d: DriverId, session: SessionId, e: Epoch, g: nat): Outcome<bool> {
    if !Current(k, d, session, e) then Outcome(k, Refused(StaleEpoch))
    else
      var offered := Offered(k, d, session, e);
      if offered == {} || Greatest(offered) != g then Outcome(k, Refused(NotTheOutstandingOffer))
      else if ConfirmedHere(k, d, session, e, g) then Outcome(k, Granted(false))
      else
        var c := k.deliveries[d];
        var n := PutOffer(k, OfferKey(d, e, g), session, true);
        var delivered := if g > c.delivered then g else c.delivered;
        Outcome(SetCursors(n, d, c.(delivered := delivered, state := Delivered, lastError := None)), Granted(true))
  }

  predicate Retires(d: DriverId, e: Epoch, delivered: nat, o: OfferKey) {
    o.driver == d && (o.epoch < e || o.gen == delivered)
  }

  /** Retire earlier epochs' offers and redeliveries of the delivered generation. */
  function RetireOffers(k: Desk, d: DriverId, e: Epoch, delivered: nat): Desk {
    k.(offers := map o | o in k.offers ::
         if Retires(d, e, delivered, o) then k.offers[o].(confirmed := true) else k.offers[o])
  }

  predicate HasExact(k: Desk, d: DriverId, g: nat) {
    exists o :: o in k.offers && o.driver == d && o.gen == g && k.offers[o].confirmed
  }

  /** Pull the reports of exactly the delivered, unacknowledged offer; cursors stay. */
  function ReconcileDelivered(b: Board, k: Desk, d: DriverId, full: bool): Outcome<Pull> {
    if d !in k.deliveries || d !in k.registrations then Outcome(k, Refused(UnknownDriver))
    else
      var c := k.deliveries[d];
      if c.delivered <= c.acked then Outcome(k, Granted(Pull(c.acked, [], c.acked, 0)))
      else if !HasExact(k, d, c.delivered) then Outcome(k, Refused(NoExactConfirmedOffer))
      else
        var n := RetireOffers(k, d, k.registrations[d].epoch, c.delivered);
        if exists o :: o in n.offers && o.driver == d && o.gen < c.delivered && !n.offers[o].confirmed then
          Outcome(k, Refused(OlderOfferUnconfirmed))
        else
          var rows := SnapshotRows(b, c.delivered, if full then None else Some(c.acked));
          var total := TrackedCount(b, c.delivered);
          Outcome(n, Granted(Pull(c.delivered, rows, c.acked, if total >= |rows| then total - |rows| else 0)))
  }

  /** Acknowledge exactly the delivered cursor, never over an unconfirmed offer. */
  function AckDelivered(k: Desk, d: DriverId, through: nat): Outcome<bool> {
    if d !in k.deliveries then Outcome(k, Refused(UnknownDriver))
    else
      var c := k.deliveries[d];
      if through == c.acked then Outcome(k, Granted(false))
      else if through != c.delivered || through < c.acked then Outcome(k, Refused(NotTheDeliveredCursor))
      else if exists o :: o in k.offers && o.driver == d && o.gen <= through && !k.offers[o].confirmed then
        Outcome(k, Refused(UnconfirmedOffer))
      else Outcome(SetCursors(k, d, c.(acked := through, state := Pending)), Granted(true))
  }

  function RetireThrough(k: Desk, d: DriverId, through: nat): Desk {
    k.(offers := map o | o in k.offers ::
         if o.driver == d && o.gen <= through then k.offers[o].(confirmed := true) else k.offers[o])
  }

  /** Acknowledge a delivered generation over the bound connection. */
  function AckGeneration(k: Desk, d: DriverId, session: SessionId, e: Epoch, through: nat): Outcome<bool> {
    if !Current(k, d, session, e) then Outcome(k, Refused(StaleEpoch))
    else
      var c := k.deliveries[d];
      if through < c.acked then Outcome(k, Refused(StaleAck))
      else if through == c.acked then Outcome(k, Granted(false))
      else if through > c.delivered then Outcome(k, Refused(UndeliveredAck))
      else Outcome(RetireThrough(SetCursors(k, d, c.(acked := through, state := Pending)), d, through), Granted(true))
  }

  /** Tombstone a driver with nothing pending; its registration takes its offers along. */
  function Disable(k: Desk, d: DriverId): Outcome<()> {
    if d in k.disabled then
      Outcome(k, if d in k.registrations || d in k.deliveries then Refused(InconsistentAuthority) else Granted(()))
    else if d !in k.deliveries then Outcome(k, Refused(UnknownDriver))
    else
      var c := k.deliveries[d];
      if !(c.latest == c.delivered == c.acked) then Outcome(k, Refused(GenerationsPending))
      else
        Outcome(Desk(k.registrations - {d}, k.deliveries - {d},
                     map o | o in k.offers && o.driver != d :: k.offers[o], k.disabled + {d}),
                Granted(()))
  }

  /** A bump raises every driver's latest cursor. */
  function Advance(k: Desk, latest: nat): Desk {
    k.(deliveries := map d | d in k.deliveries :: k.deliveries[d].(latest := latest))
  }

  /** The immutable snapshot through a reached generation, for the bound connection. */
  function Reconcile(b: Board, k: Desk, d: DriverId, session: SessionId, e: Epoch, through: nat): Answer<seq<Row>> {
    if !Current(k, d, session, e) then Refused(StaleEpoch)
    else if through > k.deliveries[d].latest then Refused(UnavailableGeneration)
    else Granted(SnapshotRows(b, through, None))
  }

  // ---- the invariant ----------------------------------------------------------

  /** An offer of its driver's current registration. */
  predicate Live(k: Desk, o: OfferKey) {
    o.driver in k.registrations && o.epoch == k.registrations[o.driver].epoch
  }

  predicate Unanswered(k: Desk, o: OfferKey) { o in k.offers && Live(k, o) && !k.offers[o].confirmed }

  predicate CursorsOk(latest: nat, c: Cursors) { c.acked <= c.delivered <= c.latest == latest }

  /** A driver's registration and cursor rows exist together, and never beside a tombstone. */
  predicate RowsOk(latest: nat, k: Desk, d: DriverId) {
    && (d in k.registrations <==> d in k.deliveries)
    && (d in k.registrations ==>
          d !in k.disabled && k.registrations[d].epoch >= 1 && CursorsOk(latest, k.deliveries[d]))
  }

  /** Where an offer may lie relative to its driver's epoch and cursors. */
  predicate OfferOk(r: Registration, c: Cursors, o: OfferKey, f: Offer) {
    && 1 <= o.epoch <= r.epoch
    && 1 <= o.gen <= c.latest
    && (!f.confirmed ==> o.gen > c.acked)
    && (o.epoch == r.epoch ==>
          && f.session == r.session
          && (if f.confirmed then o.gen <= c.delivered else o.gen == c.delivered || c.delivered == c.acked))
  }

  predicate OffersOk(k: Desk, d: DriverId) {
    forall o :: o in k.offers && o.driver == d ==>
      && d in k.registrations && d in k.deliveries
      && OfferOk(k.registrations[d], k.deliveries[d], o, k.offers[o])
  }

  /** At most one offer of the current epoch awaits an answer. */
  predicate OneOpen(k: Desk, d: DriverId) {
    forall o, p :: o in k.offers && p in k.offers && o.driver == p.driver == d && Unanswered(k, o) && Unanswered(k, p) ==>
      o == p
  }

  /** A delivered cursor rests on a confirmed offer of exactly that generation. */
  predicate DeliveredExact(k: Desk, d: DriverId) {
    d in k.deliveries && k.deliveries[d].delivered > 0 ==> HasExact(k, d, k.deliveries[d].delivered)
  }

  predicate DriverInv(latest: nat, k: Desk, d: DriverId) {
    RowsOk(latest, k, d) && OffersOk(k, d) && OneOpen(k, d) && DeliveredExact(k, d)
  }

  ghost predicate DeskInv(latest: nat, k: Desk) { forall d :: DriverInv(latest, k, d) }

  lemma VacantInv()
    ensures DeskInv(0, VACANT)
  {
  }

  // ---- one driver's rows --------------------------------------------------------

  /** Both desks agree on every row of driver d. */
  ghost predicate SameDriver(k: Desk, n: Desk, d: DriverId) {
    && (d in k.registrations <==> d in n.registrations)
    && (d in k.registrations ==> k.registrations[d] == n.registrations[d])
    && (d in k.deliveries <==> d in n.deliveries)
    && (d in k.deliveries ==> k.deliveries[d] == n.deliveries[d])
    && (d in k.disabled <==> d in n.disabled)
    && (forall o: OfferKey :: o.driver == d ==> (o in k.offers <==> o in n.offers))
    && (forall o :: o in k.offers && o.driver == d ==> k.offers[o] == n.offers[o])
  }

  lemma SameDriverInv(latest: nat, k: Desk, n: Desk, d: DriverId)
    requires DriverInv(latest, k, d) && SameDriver(k, n, d)
    ensures DriverInv(latest, n, d)
  {
    assert forall o: OfferKey :: o.driver == d ==> (Unanswered(n, o) <==> Unanswered(k, o));
    if d in k.deliveries && k.deliveries[d].delivered > 0 {
      ExactSurvives(k, n, d, k.deliveries[d].delivered);
    }
  }

  lemma ExactSurvives(k: Desk, n: Desk, d: DriverId, g: nat)
    requires HasExact(k, d, g)
    requires forall o :: o in k.offers && o.driver == d && k.offers[o].confirmed ==> o in n.offers && n.offers[o].confirmed
    ensures HasExact(n, d, g)
  {
    var o :| o in k.offers && o.driver == d && o.gen == g && k.offers[o].confirmed;
    assert o in n.offers;
  }

  /** A transaction that keeps one driver's invariant and no other driver's rows keeps them all. */
  lemma LocalStep(latest: nat, k: Desk, n: Desk, d: DriverId)
    requires DeskInv(latest, k) && DriverInv(latest, n, d)
    requires forall x :: x != d ==> SameDriver(k, n, x)
    ensures DeskInv(latest, n)
  {
    forall x ensures DriverInv(latest, n, x) {
      if x != d {
        SameDriverInv(latest, k, n, x);
      }
    }
  }

  /** The outstanding offers of a current connection are its unanswered ones: at most one. */
  lemma OutstandingIsUnanswered(latest: nat, k: Desk, d: DriverId, session: SessionId, e: Epoch)
    requires DriverInv(latest, k, d) && Current(k, d, session, e)
    ensures forall g :: g in Outstanding(k, d, session, e) <==> Unanswered(k, OfferKey(d, e, g))
    ensures forall g :: g in Outstanding(k, d, session, e) ==> Outstanding(k, d, session, e) == {g}
  {
    var open := Outstanding(k, d, session, e);
    forall g ensures g in open <==> Unanswered(k, OfferKey(d, e, g)) {
      var o := OfferKey(d, e, g);
      if Unanswered(k, o) {
        assert IsOutstanding(k, d, session, e, o);
      }
      if g in open {
        var p :| p in k.offers && IsOutstanding(k, d, session, e, p) && p.gen == g;
        assert p == o;
      }
    }
    forall g | g in open ensures open == {g} {
      forall h | h in open ensures h == g {
        assert OfferKey(d, e, h) == OfferKey(d, e, g);
      }
    }
  }

  lemma OfferedKeys(latest: nat, k: Desk, d: DriverId, session: SessionId, e: Epoch)
    requires DriverInv(latest, k, d) && Current(k, d, session, e)
    ensures forall g :: g in Offered(k, d, session, e) <==> OfferKey(d, e, g) in k.offers
  {
    forall g ensures g in Offered(k, d, session, e) <==> OfferKey(d, e, g) in k.offers {
      if g in Offered(k, d, session, e) {
        var o :| o in k.offers && o.driver == d && o.epoch == e && k.offers[o].session == session && o.gen == g;
        assert o == OfferKey(d, e, g);
      }
    }
  }

  // ---- the invariant is kept by every transaction ---------------------------------

  lemma AdvanceKeepsInv(latest: nat, k: Desk, next: nat)
    requires DeskInv(latest, k) && latest <= next
    ensures DeskInv(next, Advance(k, next))
  {
    var n := Advance(k, next);
    forall d ensures DriverInv(next, n, d) {
      assert DriverInv(latest, k, d);
      assert forall o :: Unanswered(n, o) <==> Unanswered(k, o);
      if d in k.deliveries && k.deliveries[d].delivered > 0 {
        ExactSurvives(k, n, d, k.deliveries[d].delivered);
      }
    }
  }

  lemma RegisterKeepsInv(latest: nat, k: Desk, d: DriverId, session: SessionId, harness: Harness)
    requires DeskInv(latest, k)
    ensures DeskInv(latest, Register(latest, k, d, session, harness).desk)
  {
    var n := Register(latest, k, d, session, harness).desk;
    assert DriverInv(latest, k, d);
    assert n.offers == k.offers;
    assert forall o :: o in n.offers && o.driver == d && Live(n, o) ==> n == k;
    if d in k.deliveries && k.deliveries[d].delivered > 0 {
      ExactSurvives(k, n, d, k.deliveries[d].delivered);
    }
    LocalStep(latest, k, n, d);
  }

  /** The key a fresh offer uses is always free. */
  lemma OfferKeyIsFree(latest: nat, k: Desk, d: DriverId, session: SessionId, e: Epoch, g: nat)
    requires DriverInv(latest, k, d) && Current(k, d, session, e) && Outstanding(k, d, session, e) == {}
    requires var c := k.deliveries[d];
             c.latest > c.acked
             && (if c.delivered > c.acked then g == c.delivered && !ConfirmedHere(k, d, session, e, g) else g == c.latest)
    ensures OfferKey(d, e, g) !in k.offers
  {
    OutstandingIsUnanswered(latest, k, d, session, e);
    assert !Unanswered(k, OfferKey(d, e, g));
  }

  lemma PutKeepsInv(latest: nat, k: Desk, d: DriverId, session: SessionId, e: Epoch, g: nat)
    requires DeskInv(latest, k) && Current(k, d, session, e) && Outstanding(k, d, session, e) == {}
    requires var c := k.deliveries[d];
             c.acked < g <= c.latest && (g == c.delivered || c.delivered == c.acked)
    requires OfferKey(d, e, g) !in k.offers
    ensures DeskInv(latest, PutOffer(k, OfferKey(d, e, g), session, false))
  {
    var key := OfferKey(d, e, g);
    var n := PutOffer(k, key, session, false);
    assert DriverInv(latest, k, d);
    OutstandingIsUnanswered(latest, k, d, session, e);
    forall o | o in n.offers && o.driver == d && Unanswered(n, o) ensures o == key {
      assert o == OfferKey(d, e, o.gen);
      assert o != key ==> !Unanswered(k, o);
    }
    if k.deliveries[d].delivered > 0 {
      ExactSurvives(k, n, d, k.deliveries[d].delivered);
    }
    LocalStep(latest, k, n, d);
  }

  lemma OfferKeepsInv(b: Board, k: Desk, d: DriverId, session: SessionId, e: Epoch)
    requires DeskInv(b.latest, k)
    ensures DeskInv(b.latest, OfferNotification(b, k, d, session, e).desk)
  {
    if Current(k, d, session, e) {
      assert DriverInv(b.latest, k, d);
      var c := k.deliveries[d];
      var g := if c.delivered > c.acked then c.delivered else c.latest;
      if Outstanding(k, d, session, e) == {} && c.latest > c.acked
         && !(c.delivered > c.acked && ConfirmedHere(k, d, session, e, g)) {
        OfferKeyIsFree(b.latest, k, d, session, e, g);
        PutKeepsInv(b.latest, k, d, session, e, g);
      }
    }
  }

  lemma WithdrawKeepsInv(latest: nat, k: Desk, d: DriverId, session: SessionId, e: Epoch, g: nat)
    requires DeskInv(latest, k)
    ensures DeskInv(latest, Withdraw(k, d, session, e, g).desk)
  {
    var n := Withdraw(k, d, session, e, g).desk;
    assert DriverInv(latest, k, d);
    assert forall o :: Unanswered(n, o) ==> Unanswered(k, o);
    if d in k.deliveries && k.deliveries[d].delivered > 0 {
      ExactSurvives(k, n, d, k.deliveries[d].delivered);
    }
    LocalStep(latest, k, n, d);
  }

  lemma RecordKeepsInv(latest: nat, k: Desk, d: DriverId, session: SessionId, e: Epoch, g: nat,
                       state: DeliveryState, error: Option<string>)
    requires DeskInv(latest, k)
    ensures DeskInv(latest, RecordOutcome(k, d, session, e, g, state, error).desk)
  {
    var n := RecordOutcome(k, d, session, e, g, state, error).desk;
    assert DriverInv(latest, k, d);
    assert n.offers == k.offers && n.registrations == k.registrations;
    assert forall o :: Unanswered(n, o) <==> Unanswered(k, o);
    if d in k.deliveries && k.deliveries[d].delivered > 0 {
      ExactSurvives(k, n, d, k.deliveries[d].delivered);
    }
    LocalStep(latest, k, n, d);
  }

  /** A fresh confirmation either redelivers the cursor or raises it from the acknowledged one. */
  lemma ConfirmRaises(latest: nat, k: Desk, d: DriverId, session: SessionId, e: Epoch, g: nat)
    requires DriverInv(latest, k, d) && ConfirmDelivery(k, d, session, e, g).answer == Granted(true)
    ensures Unanswered(k, OfferKey(d, e, g))
    ensures var c := k.deliveries[d];
            c.acked < g && (g == c.delivered || (c.delivered == c.acked < g))
  {
    OfferedKeys(latest, k, d, session, e);
  }

  lemma ConfirmKeepsInv(latest: nat, k: Desk, d: DriverId, session: SessionId, e: Epoch, g: nat)
    requires DeskInv(latest, k)
    ensures DeskInv(latest, ConfirmDelivery(k, d, session, e, g).desk)
  {
    var result := ConfirmDelivery(k, d, session, e, g);
    assert DriverInv(latest, k, d);
    if result.answer == Granted(true) {
      var n := result.desk;
      ConfirmRaises(latest, k, d, session, e, g);
      var key := OfferKey(d, e, g);
      assert n.offers == k.offers[key := Offer(session, true)];
      forall o | o in n.offers && o.driver == d
        ensures OfferOk(n.registrations[d], n.deliveries[d], o, n.offers[o]) && !Unanswered(n, o)
      {
        assert o in k.offers && OfferOk(k.registrations[d], k.deliveries[d], o, k.offers[o]);
        assert o != key && Unanswered(n, o) ==> Unanswered(k, o);
      }
      assert n.offers[key].confirmed && HasExact(n, d, n.deliveries[d].delivered);
      LocalStep(latest, k, n, d);
    }
  }

  lemma RetireKeepsInv(latest: nat, k: Desk, d: DriverId)
    requires DeskInv(latest, k) && d in k.registrations && d in k.deliveries
    requires k.deliveries[d].delivered > k.deliveries[d].acked
    ensures var n := RetireOffers(k, d, k.registrations[d].epoch, k.deliveries[d].delivered);
            && DeskInv(latest, n)
            && (forall o :: o in n.offers && o.driver == d ==> n.offers[o].confirmed)
            && (forall x :: x != d ==> SameDriver(k, n, x))
  {
    var c := k.deliveries[d];
    var n := RetireOffers(k, d, k.registrations[d].epoch, c.delivered);
    assert DriverInv(latest, k, d);
    forall o | o in n.offers && o.driver == d
      ensures n.offers[o].confirmed && OfferOk(n.registrations[d], c, o, n.offers[o])
    {
      assert OfferOk(k.registrations[d], c, o, k.offers[o]);
    }
    if c.delivered > 0 {
      ExactSurvives(k, n, d, c.delivered);
    }
    LocalStep(latest, k, n, d);
  }

  lemma ReconcileKeepsInv(b: Board, k: Desk, d: DriverId, full: bool)
    requires DeskInv(b.latest, k)
    ensures DeskInv(b.latest, ReconcileDelivered(b, k, d, full).desk)
  {
    if d in k.deliveries && d in k.registrations && k.deliveries[d].delivered > k.deliveries[d].acked {
      RetireKeepsInv(b.latest, k, d);
    }
  }

  lemma AckDeliveredKeepsInv(latest: nat, k: Desk, d: DriverId, through: nat)
    requires DeskInv(latest, k)
    ensures DeskInv(latest, AckDelivered(k, d, through).desk)
  {
    var n := AckDelivered(k, d, through).desk;
    assert DriverInv(latest, k, d);
    assert n.offers == k.offers && n.registrations == k.registrations;
    assert forall o :: Unanswered(n, o) <==> Unanswered(k, o);
    if d in k.deliveries && k.deliveries[d].delivered > 0 {
      ExactSurvives(k, n, d, k.deliveries[d].delivered);
    }
    LocalStep(latest, k, n, d);
  }

  lemma AckGenerationKeepsInv(latest: nat, k: Desk, d: DriverId, session: SessionId, e: Epoch, through: nat)
    requires DeskInv(latest, k)
    ensures DeskInv(latest, AckGeneration(k, d, session, e, through).desk)
  {
    var result := AckGeneration(k, d, session, e, through);
    assert DriverInv(latest, k, d);
    if result.answer == Granted(true) {
      var n := result.desk;
      forall o | o in n.offers && o.driver == d
        ensures OfferOk(n.registrations[d], n.deliveries[d], o, n.offers[o])
      {
        assert OfferOk(k.registrations[d], k.deliveries[d], o, k.offers[o]);
      }
      assert forall o :: Unanswered(n, o) ==> Unanswered(k, o);
      if k.deliveries[d].delivered > 0 {
        ExactSurvives(k, n, d, k.deliveries[d].delivered);
      }
      LocalStep(latest, k, n, d);
    }
  }

  lemma DisableKeepsInv(latest: nat, k: Desk, d: DriverId)
    requires DeskInv(latest, k)
    ensures DeskInv(latest, Disable(k, d).desk)
  {
    var n := Disable(k, d).desk;
    assert DriverInv(latest, k, d);
    if n != k {
      LocalStep(latest, k, n, d);
    }
  }
}

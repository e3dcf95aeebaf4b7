/**
 * The production path of the coalescer: a socket adapter polls for one
 * externally confirmed offer at a time over its own connection.
 */
module PendingOffers {
  import opened Common
  import opened Report
  import opened Generations
  import opened Delivery
  import opened DeliveryFacts
  import opened Coalescing
  import EventStores

  /** The coalescer's own fields. */
  datatype External = External(collection: Option<Collection>, offered: Option<nat>)

  function Gathered(w: Binding, x: External, now: nat, g: nat): Collection {
    match x.collection
    case None => Collection(g, now + w.window)
    case Some(c) => if g > c.generation then c.(generation := g) else c
  }

  /** One pending poll: the new fields, the desk, and the notification if there is one. */
  function Ask(w: Binding, b: Board, k: Desk, x: External, now: nat): (External, Desk, Answer<Option<Wake>>) {
    match NotificationFrontier(b, k, w.d, w.session, w.e)
    case Refused(why) => (x, k, Refused(why))
    case Granted(None) => (External(None, None), k, Granted(None))
    case Granted(Some(f)) =>
      if x.offered == Some(f.generation) then (x, k, Granted(None))
      else
        var y := x.(collection := Some(Gathered(w, x, now, f.generation)));
        if !f.immediate && f.priority != Urgent && now < y.collection.value.deadline then (y, k, Granted(None))
        else
          var offer := OfferNotification(b, k, w.d, w.session, w.e);
          match offer.answer
          case Refused(why) => (y, offer.desk, Refused(why))
          case Granted(None) => (y, offer.desk, Granted(None))
          case Granted(Some(wake)) =>
            if wake.generation != f.generation then (y, offer.desk, Granted(None))
            else (y.(offered := Some(f.generation)), offer.desk, Granted(Some(wake)))
  }

  class Coalescer {
    const store: EventStores.EventStore
    const driver: DriverId
    const session: SessionId
    const epoch: Epoch
    const window: nat
    var collection: Option<Collection>
    var externallyOffered: Option<nat>

    function Fields(): External reads this { External(collection, externallyOffered) }

    function Bound(): Binding { Binding(driver, session, epoch, window) }

    constructor (store: EventStores.EventStore, driver: DriverId, session: SessionId, epoch: Epoch, window: nat)
      ensures Fields() == External(None, None) && Bound() == Binding(driver, session, epoch, window)
      ensures this.store == store
    {
      this.store, this.driver, this.session, this.epoch, this.window := store, driver, session, epoch, window;
      collection, externallyOffered := None, None;
    }

    method OfferPending(now: nat) returns (r: Answer<Option<Wake>>)
      requires store.Valid()
      modifies this, store`offers
      ensures store.Valid()
      ensures (Fields(), store.DeskNow(), r) == Ask(Bound(), store.BoardNow(), old(store.DeskNow()), old(Fields()), now)
    {
      var frontier := NotificationFrontier(store.BoardNow(), store.DeskNow(), driver, session, epoch);
      if frontier.Refused? {
        return Refused(frontier.why);
      }
      if frontier.value.None? {
        collection, externallyOffered := None, None;
        return Granted(None);
      }
      var f := frontier.value.value;
      if externallyOffered == Some(f.generation) {
        return Granted(None);
      }
      if collection.None? {
        collection := Some(Collection(f.generation, now + window));
      } else if f.generation > collection.value.generation {
        collection := Some(collection.value.(generation := f.generation));
      }
      if !f.immediate && f.priority != Urgent && now < collection.value.deadline {
        return Granted(None);
      }
      r := store.OfferNotification(driver, session, epoch);
      if r.Refused? || r.value.None? {
        return;
      }
      if r.value.value.generation != f.generation {
        return Granted(None);
      }
      externallyOffered := Some(f.generation);
    }
  }

  // ---- one connection's notifications ---------------------------------------------

  /** A connection: the ledger, the coalescer's fields, and every generation it has notified. */
  datatype Link = Link(board: Board, desk: Desk, fields: External, notified: seq<nat>)

  datatype Turn = Poll(now: nat) | Confirm(gen: nat) | Surroundings(env: Env)

  function Next(w: Binding, l: Link, turn: Turn): Link {
    match turn
    case Poll(now) =>
      var (x, k, r) := Ask(w, l.board, l.desk, l.fields, now);
      var sent := match r case Granted(Some(wake)) => [wake.generation] case _ => [];
      Link(l.board, k, x, l.notified + sent)
    case Confirm(g) => l.(desk := ConfirmDelivery(l.desk, w.d, w.session, w.e, g).desk)
    case Surroundings(env) => var (b, k) := Surround(w, l.board, l.desk, env); l.(board := b, desk := k)
  }

  function After(w: Binding, l: Link, turns: seq<Turn>): Link {
    if turns == [] then l else Next(w, After(w, l, turns[..|turns| - 1]), turns[|turns| - 1])
  }

  ghost predicate LinkInv(w: Binding, l: Link) {
    && DeskInv(l.board.latest, l.desk) && Current(l.desk, w.d, w.session, w.e)
    && (forall i :: 0 <= i < |l.notified| ==> Has(w, l.desk, l.notified[i]))
    && (forall i, j :: 0 <= i < j < |l.notified| ==> l.notified[i] < l.notified[j])
    && (l.notified != [] && Open(w, l.desk, l.notified[|l.notified| - 1]) ==>
          l.fields.offered == Some(l.notified[|l.notified| - 1]))
  }

  /** A poll that notifies names the newest offer of its epoch, which it had not just named. */
  lemma AskFacts(w: Binding, b: Board, k: Desk, x: External, now: nat)
    requires DeskInv(b.latest, k) && Current(k, w.d, w.session, w.e)
    ensures var (y, n, r) := Ask(w, b, k, x, now);
            && DeskInv(b.latest, n) && Current(n, w.d, w.session, w.e) && r.Granted?
            && (forall g :: Has(w, k, g) ==> Has(w, n, g))
            && (r.value.None? ==> n == k)
            && (r.value.None? && y.offered != x.offered ==> forall g :: !Open(w, k, g))
            && (r.value.Some? ==>
                  var g := r.value.value.generation;
                  && y.offered == Some(g) && x.offered != Some(g)
                  && Open(w, n, g) && Newest(w, n, g)
                  && (Has(w, k, g) ==> n == k))
  {
    assert DriverInv(b.latest, k, w.d);
    FrontierAgrees(b, k, w.d, w.session, w.e);
    OutstandingIsUnanswered(b.latest, k, w.d, w.session, w.e);
    OfferKeepsInv(b, k, w.d, w.session, w.e);
    var offer := OfferNotification(b, k, w.d, w.session, w.e);
    if offer.answer != Granted(None) {
      WakeFacts(b, k, w.d, w.session, w.e);
      NewestAfterOffer(w, b, k);
    }
  }

  lemma NewestAfterOffer(w: Binding, b: Board, k: Desk)
    requires DeskInv(b.latest, k) && Current(k, w.d, w.session, w.e)
    requires OfferNotification(b, k, w.d, w.session, w.e).answer != Granted(None)
    ensures var r := OfferNotification(b, k, w.d, w.session, w.e);
            && r.answer.Granted? && r.answer.value.Some?
            && Newest(w, r.desk, r.answer.value.value.generation)
  {
    assert DriverInv(b.latest, k, w.d);
    WakeFacts(b, k, w.d, w.session, w.e);
    OfferKeepsInv(b, k, w.d, w.session, w.e);
    var r := OfferNotification(b, k, w.d, w.session, w.e);
    var g := r.answer.value.value.generation;
    assert DriverInv(b.latest, r.desk, w.d);
    OpenIsGreatest(b.latest, r.desk, w.d, w.session, w.e, g);
    OfferedKeys(b.latest, r.desk, w.d, w.session, w.e);
    forall o | o in r.desk.offers && o.driver == w.d && o.epoch == w.e ensures o.gen <= g {
      assert o == OfferKey(w.d, w.e, o.gen) && o.gen in Offered(r.desk, w.d, w.session, w.e);
    }
  }

  /** A desk that still has every offer keeps what was notified before, when a newer generation is added or none. */
  lemma SilenceKeepsLink(w: Binding, l: Link, y: External)
    requires LinkInv(w, l) && (y.offered != l.fields.offered ==> forall g :: !Open(w, l.desk, g))
    ensures LinkInv(w, Link(l.board, l.desk, y, l.notified))
  {
  }

  lemma TellingKeepsLink(w: Binding, l: Link, n: Desk, y: External, g: nat)
    requires LinkInv(w, l) && DeskInv(l.board.latest, n) && Current(n, w.d, w.session, w.e)
    requires forall h :: Has(w, l.desk, h) ==> Has(w, n, h)
    requires Newest(w, n, g) && y.offered == Some(g) && forall i :: 0 <= i < |l.notified| ==> l.notified[i] < g
    ensures LinkInv(w, Link(l.board, n, y, l.notified + [g]))
  {
    var all := l.notified + [g];
    forall i | 0 <= i < |all| ensures Has(w, n, all[i]) {
      if i < |l.notified| { assert Has(w, l.desk, l.notified[i]); }
    }
  }

  /** What a telling poll names is newer than everything told before. */
  lemma TellsNewer(w: Binding, l: Link, n: Desk, g: nat)
    requires LinkInv(w, l) && Newest(w, n, g) && forall h :: Has(w, l.desk, h) ==> Has(w, n, h)
    requires l.fields.offered != Some(g) && Open(w, n, g) && (Has(w, l.desk, g) ==> n == l.desk)
    ensures forall i :: 0 <= i < |l.notified| ==> l.notified[i] < g
  {
    if l.notified != [] {
      var last := l.notified[|l.notified| - 1];
      assert Has(w, l.desk, last) && Has(w, n, last);
      assert OfferKey(w.d, w.e, last) in n.offers && last <= g;
      assert last == g ==> n == l.desk;
    }
  }

  lemma PollKeepsLink(w: Binding, l: Link, now: nat)
    requires LinkInv(w, l)
    ensures LinkInv(w, Next(w, l, Poll(now)))
  {
    var (y, n, r) := Ask(w, l.board, l.desk, l.fields, now);
    AskFacts(w, l.board, l.desk, l.fields, now);
    if r.value.Some? {
      var g := r.value.value.generation;
      TellsNewer(w, l, n, g);
      TellingKeepsLink(w, l, n, y, g);
    } else {
      SilenceKeepsLink(w, l, y);
    }
  }

  lemma ConfirmKeepsLink(w: Binding, l: Link, g: nat)
    requires LinkInv(w, l)
    ensures LinkInv(w, Next(w, l, Confirm(g)))
  {
    var n := Next(w, l, Confirm(g));
    assert DriverInv(l.board.latest, l.desk, w.d);
    ConfirmKeepsInv(l.board.latest, l.desk, w.d, w.session, w.e, g);
    OfferedKeys(l.board.latest, l.desk, w.d, w.session, w.e);
    assert forall h :: Has(w, l.desk, h) ==> Has(w, n.desk, h);
    assert forall h :: Open(w, n.desk, h) ==> Open(w, l.desk, h);
  }

  lemma TurnKeepsLink(w: Binding, l: Link, turn: Turn)
    requires LinkInv(w, l)
    ensures LinkInv(w, Next(w, l, turn))
  {
    match turn
    case Poll(now) => PollKeepsLink(w, l, now);
    case Confirm(g) => ConfirmKeepsLink(w, l, g);
    case Surroundings(env) =>
      SurroundKeeps(w, l.board, l.desk, env);
      var n := Next(w, l, turn);
      forall i | 0 <= i < |n.notified| ensures Has(w, n.desk, n.notified[i]) { assert Has(w, l.desk, l.notified[i]); }
  }

  /** Over one connection the notified generations strictly increase, whatever happens around it. */
  lemma {:induction false} NotificationsIncrease(w: Binding, l: Link, turns: seq<Turn>)
    requires DeskInv(l.board.latest, l.desk) && Current(l.desk, w.d, w.session, w.e) && l.notified == []
    ensures LinkInv(w, After(w, l, turns))
    ensures var s := After(w, l, turns).notified; forall i, j :: 0 <= i < j < |s| ==> s[i] < s[j]
  {
    if turns != [] {
      NotificationsIncrease(w, l, turns[..|turns| - 1]);
      TurnKeepsLink(w, After(w, l, turns[..|turns| - 1]), turns[|turns| - 1]);
    }
  }

  // ---- when a poll notifies ----------------------------------------------------------

  /** When the window that holds this poll back closes: the open one's deadline, or one window from now. */
  function Closes(w: Binding, x: External, now: nat): nat {
    if x.collection.Some? then x.collection.value.deadline else now + w.window
  }

  /** What is pending may be told now: an open offer or redelivery, an urgent change, or a window that is over. */
  predicate Ripe(w: Binding, x: External, now: nat, f: Frontier) {
    f.immediate || f.priority == Urgent || Closes(w, x, now) <= now
  }

  /**
   * A poll notifies iff something is pending that it did not notify last and
   * that is ripe, and then it names exactly that. Otherwise it forgets what it
   * notified iff nothing is pending, and it never puts an open window off.
   */
  lemma PollNotifiesIff(w: Binding, b: Board, k: Desk, x: External, now: nat)
    requires DriverInv(b.latest, k, w.d) && Current(k, w.d, w.session, w.e)
    ensures var (y, n, r) := Ask(w, b, k, x, now);
            var frontier := NotificationFrontier(b, k, w.d, w.session, w.e);
            && frontier.Granted? && r.Granted?
            && (r.value.Some? <==>
                  frontier.value.Some? && x.offered != Some(frontier.value.value.generation)
                  && Ripe(w, x, now, frontier.value.value))
            && (r.value.Some? ==>
                  var f := frontier.value.value;
                  r.value.value.generation == f.generation && r.value.value.priority == f.priority
                  && y.offered == Some(f.generation))
            && (r.value.None? ==> y.offered == if frontier.value.None? then None else x.offered)
            && (frontier.value.None? ==> y.collection == None)
            && (frontier.value.Some? && x.offered != Some(frontier.value.value.generation) ==>
                  && y.collection.Some? && y.collection.value.deadline == Closes(w, x, now)
                  && y.collection.value.generation >= frontier.value.value.generation)
  {
    FrontierAgrees(b, k, w.d, w.session, w.e);
  }

  // ---- no pending change is kept back for ever ------------------------------------------

  /** The polls of a run read a clock that never goes back, and none reads beyond the given time. */
  predicate Clocked(turns: seq<Turn>, now: nat) {
    turns == [] ||
    var last := turns[|turns| - 1];
    if last.Poll? then last.now <= now && Clocked(turns[..|turns| - 1], last.now)
    else Clocked(turns[..|turns| - 1], now)
  }

  lemma TurnInTime(w: Binding, l: Link, turn: Turn, now: nat)
    requires LinkInv(w, l) && OpenInTime(w, l.fields.collection, now) && (turn.Poll? ==> turn.now == now)
    ensures OpenInTime(w, Next(w, l, turn).fields.collection, now)
  {
  }

  /** An open window always closes within one window from now. */
  lemma {:induction false} RunInTime(w: Binding, l: Link, turns: seq<Turn>, now: nat)
    requires DeskInv(l.board.latest, l.desk) && Current(l.desk, w.d, w.session, w.e) && l.notified == []
    requires l.fields.collection == None && Clocked(turns, now)
    ensures LinkInv(w, After(w, l, turns)) && OpenInTime(w, After(w, l, turns).fields.collection, now)
  {
    NotificationsIncrease(w, l, turns);
    if turns != [] {
      var before, last := turns[..|turns| - 1], turns[|turns| - 1];
      NotificationsIncrease(w, l, before);
      var at := if last.Poll? then last.now else now;
      RunInTime(w, l, before, at);
      TurnInTime(w, After(w, l, before), last, at);
    }
  }

  predicate Tells(l: Link, n: Link, g: nat) { n.notified == l.notified + [g] }

  /** Two polls one window apart notify what is pending, unless it was the last thing notified. */
  lemma SecondPollNotifies(w: Binding, l: Link, now: nat, f: Frontier)
    requires LinkInv(w, l) && OpenInTime(w, l.fields.collection, now)
    requires NotificationFrontier(l.board, l.desk, w.d, w.session, w.e) == Granted(Some(f))
    requires l.fields.offered != Some(f.generation)
    ensures var n := Next(w, l, Poll(now));
            Tells(l, n, f.generation) || Tells(l, Next(w, n, Poll(now + w.window)), f.generation)
  {
    assert DriverInv(l.board.latest, l.desk, w.d);
    PollNotifiesIff(w, l.board, l.desk, l.fields, now);
    AskFacts(w, l.board, l.desk, l.fields, now);
    var n := Next(w, l, Poll(now));
    if !Tells(l, n, f.generation) {
      assert n.desk == l.desk && n.notified == l.notified;
      PollNotifiesIff(w, n.board, n.desk, n.fields, now + w.window);
    }
  }

  /**
   * On every connection, after any run of polls, confirmations, bumps,
   * acknowledgements and pulls: what is pending and was not the last thing
   * notified is notified by one of the next two polls, one window apart.
   */
  lemma PendingIsNotified(w: Binding, l: Link, turns: seq<Turn>, now: nat, f: Frontier)
    requires DeskInv(l.board.latest, l.desk) && Current(l.desk, w.d, w.session, w.e) && l.notified == []
    requires l.fields.collection == None && Clocked(turns, now)
    requires var m := After(w, l, turns);
             && NotificationFrontier(m.board, m.desk, w.d, w.session, w.e) == Granted(Some(f))
             && m.fields.offered != Some(f.generation)
    ensures var m := After(w, l, turns);
            var n := Next(w, m, Poll(now));
            Tells(m, n, f.generation) || Tells(m, Next(w, n, Poll(now + w.window)), f.generation)
  {
    RunInTime(w, l, turns, now);
    SecondPollNotifies(w, After(w, l, turns), now, f);
  }
}

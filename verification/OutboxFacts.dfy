/** What the outbox protocol guarantees whatever crashes, and what needs a crash-free run. */
module OutboxFacts {
  import opened Common
  import opened Report
  import opened Store
  import opened StoreRuns
  import opened SessionFold
  import opened Outbox
  import opened OutboxRuns
  import Lifecycle
  import Order = LifecycleOrder

  // ---- whatever crashes -------------------------------------------------------------

  /**
   * After any steps and crashes: every envelope ever reserved is in the spool or
   * in the log, the log holds reserved envelopes only and each id once, and each
   * session's published numbers are exactly 1 to its highest.
   */
  lemma NothingIsLost(acts: seq<Act>)
    ensures var w := Run(START, acts);
            && (forall ev :: ev in w.published ==> Spooled(w.files, ev) || Logged(w, ev))
            && (forall ev :: Logged(w, ev) ==> ev in w.published)
            && UniqueIds(w.store.inbox.events)
            && (forall s, q :: Used(w.published, s, q) <==> 1 <= q <= High(w.published, s))
  {
    StartInv();
    RunKeeps(START, acts);
    var w := Run(START, acts);
    forall ev | ev in w.published ensures Spooled(w.files, ev) || Logged(w, ev) { assert Kept(w, ev); }
  }

  lemma PerformExtends(w: World, act: Act)
    requires WorldInv(w)
    ensures w.store.inbox.events <= Perform(w, act).store.inbox.events && w.published <= Perform(w, act).published
  {
    match act
    case Send(p, folder) => if p in w.stages { AcceptPublished(w, w.stages[p].ev, folder); }
    case ImportCommit(folder) =>
      if w.lock.Importing? && w.lock.rest != [] {
        assert w.lock.rest[0] in w.lock.rest;
        AcceptPublished(w, w.lock.rest[0], folder);
      }
    case StoreAct(step) => if Background(step) { BackgroundLog(w.store, step); }
    case _ =>
  }

  /** The log and the publications only grow at the end, so a durable sequence never changes. */
  lemma {:induction false} PositionsAreFixed(w: World, acts: seq<Act>)
    requires WorldInv(w)
    ensures w.store.inbox.events <= Run(w, acts).store.inbox.events
    ensures w.published <= Run(w, acts).published
  {
    if acts != [] {
      PositionsAreFixed(w, acts[..|acts| - 1]);
      RunKeeps(w, acts[..|acts| - 1]);
      PerformExtends(Run(w, acts[..|acts| - 1]), acts[|acts| - 1]);
    }
  }

  lemma IsDuplicate(t: Tables, i: nat, folder: Folder)
    requires UniqueIds(t.inbox.events) && i < |t.inbox.events|
    ensures AcceptEvent(t, t.inbox.events[i], folder) == (t, Accept(Accepted(i + 1, true, None)))
  {
    var found := Find(t.inbox.events, t.inbox.events[i].id);
    assert found == Some(i);
  }

  /** An accepted envelope keeps its one position through every retry, import and crash. */
  lemma AcceptedOnce(w: World, acts: seq<Act>, i: nat)
    requires WorldInv(w) && i < |w.store.inbox.events|
    ensures var n, ev := Run(w, acts), w.store.inbox.events[i];
            && i < |n.store.inbox.events| && n.store.inbox.events[i] == ev
            && (forall j :: 0 <= j < |n.store.inbox.events| && n.store.inbox.events[j].id == ev.id ==> j == i)
            && (forall folder :: AcceptEvent(n.store, ev, folder) == (n.store, Accept(Accepted(i + 1, true, None))))
  {
    PositionsAreFixed(w, acts);
    RunKeeps(w, acts);
    var n := Run(w, acts);
    OnePosition(n.store.inbox.events, i);
    forall folder ensures AcceptEvent(n.store, w.store.inbox.events[i], folder) == (n.store, Accept(Accepted(i + 1, true, None))) {
      IsDuplicate(n.store, i, folder);
    }
  }

  lemma OnePosition(events: seq<Envelope>, i: nat)
    requires UniqueIds(events) && i < |events|
    ensures forall j :: 0 <= j < |events| && events[j].id == events[i].id ==> j == i
  {
  }

  /** The importer never finds that evidence changed between its commit and its unlink. */
  lemma EvidenceNeverChanges(acts: seq<Act>)
    ensures var w := Run(START, acts);
            w.lock.Importing? && w.lock.committed.Some? ==>
              Spooled(w.files, w.lock.committed.value) && Logged(w, w.lock.committed.value)
  {
    StartInv();
    RunKeeps(START, acts);
  }

  // ---- when a number is new ------------------------------------------------------------

  /** A reservation takes an unused number exactly when the counter or the spool still remembers the highest one. */
  lemma NumberIsNewIff(w: World, c: Candidate, ev: Envelope)
    requires WorldInv(w) && Reserve(w.files, c) == Publish(ev)
    ensures ev.session == c.session && 1 <= ev.seqno <= High(w.published, c.session) + 1
    ensures var high := High(w.published, c.session);
            !Used(w.published, c.session, ev.seqno) <==>
              Saved(w.files, c.session) == high || Holds(w.files.spool, c.session, high)
  {
    FrontierBounded(w, c.session);
    FrontierMeans(w.files, c.session);
  }

  predicate StillSpooled(f: Files, except: string, s: SessionId, q: nat) {
    exists id :: id in f.spool && id != except && f.spool[id].session == s && f.spool[id].seqno == q
  }

  lemma MaxSpooledAtLeast(spool: map<string, Envelope>, id: string)
    requires id in spool && spool[id].seqno > 0
    ensures MaxSpooled(spool, spool[id].session) >= spool[id].seqno
  {
    assert spool[id].seqno in Numbers(spool, spool[id].session);
  }

  /**
   * Removing an entry forgets the highest number exactly when the counter was
   * never saved that far and no other entry of the session still carries it.
   */
  lemma RemovalForgetsIff(w: World, ev: Envelope)
    requires WorldInv(w) && Spooled(w.files, ev)
    requires Frontier(w.files, ev.session) == High(w.published, ev.session)
    ensures var h := High(w.published, ev.session);
            Frontier(Removed(w.files, ev), ev.session) < h <==>
              Saved(w.files, ev.session) < h && !StillSpooled(w.files, ev.id, ev.session, h)
  {
    var s, h, f := ev.session, High(w.published, ev.session), Removed(w.files, ev);
    PublishedPositive(w, ev);
    var n := w.(files := f);
    assert forall x :: x in f.spool <==> x in w.files.spool && x != ev.id;
    assert Saved(f, s) == Saved(w.files, s);
    if StillSpooled(w.files, ev.id, s, h) {
      var id :| id in w.files.spool && id != ev.id && w.files.spool[id].session == s && w.files.spool[id].seqno == h;
      MaxSpooledAtLeast(f.spool, id);
    }
    if MaxSpooled(f.spool, s) >= h {
      var q := Greatest(Numbers(f.spool, s));
      var id :| id in f.spool && f.spool[id].session == s && f.spool[id].seqno == q;
      PublishedPositive(w, w.files.spool[id]);
      assert StillSpooled(w.files, ev.id, s, h);
    }
  }

  // ---- repeating an event id -------------------------------------------------------------

  /** Repeating an event returns its own envelope exactly while that envelope is spooled. */
  lemma RepeatReturnsIff(w: World, ev: Envelope)
    requires WorldInv(w) && ev in w.published
    ensures var c := Candidate(ev.id, ev.session, ev.identity, None, ev.kind);
            Reserve(w.files, c) == Existing(ev) <==> Spooled(w.files, ev)
  {
  }

  /** A repeat that names its number is never published again while the files remember that number. */
  lemma NumberedRepeatIsSafe(w: World, ev: Envelope)
    requires WorldInv(w) && ev in w.published
    ensures var c := Candidate(ev.id, ev.session, ev.identity, Some(ev.seqno), ev.kind);
            Reserve(w.files, c).Publish? ==>
              Frontier(w.files, ev.session) < ev.seqno && Reserve(w.files, c) == Publish(ev)
  {
  }

  /** An entry whose id the log holds with other content is refused and kept by every later run. */
  lemma {:induction false} ConflictStaysSpooled(w: World, acts: seq<Act>, ev: Envelope)
    requires WorldInv(w) && Spooled(w.files, ev) && !Logged(w, ev) && Find(w.store.inbox.events, ev.id).Some?
    ensures var n := Run(w, acts);
            && Spooled(n.files, ev) && !Logged(n, ev)
            && (forall folder :: AcceptEvent(n.store, ev, folder) == (n.store, Reject(ConflictingEnvelope)))
  {
    var n := Run(w, acts);
    var i := Find(w.store.inbox.events, ev.id).value;
    PositionsAreFixed(w, acts);
    RunKeeps(w, acts);
    assert n.store.inbox.events[i].id == ev.id && n.store.inbox.events[i] != ev;
    forall j | 0 <= j < |n.store.inbox.events| ensures n.store.inbox.events[j] != ev {
      assert n.store.inbox.events[j].id == ev.id ==> j == i;
    }
    assert ev in w.published && ev in n.published;
    assert Kept(n, ev);
  }

  function Unnumbered(ev: Envelope): Candidate { Candidate(ev.id, ev.session, ev.identity, None, ev.kind) }

  /**
   * Repeating an event that is logged and no longer spooled: unless another
   * envelope took its place in the spool, or numbers ran out, it is published
   * anew under the next number the files know of.
   */
  lemma RepeatOfLogged(w: World, ev: Envelope)
    requires WorldInv(w) && Logged(w, ev) && !Spooled(w.files, ev)
    ensures var next := Frontier(w.files, ev.session) + 1;
            match Reserve(w.files, Unnumbered(ev))
            case Publish(again) => ev.id !in w.files.spool && again == ev.(seqno := next) && next <= MAX_INTEGER
            case Existing(other) => Spooled(w.files, other) && other.id == ev.id && other != ev
            case Collision => ev.id in w.files.spool
            case Exhausted => ev.id !in w.files.spool && next > MAX_INTEGER
            case _ => false
  {
  }

  /** Over every later run an envelope under a logged id is a duplicate of that entry, or refused. */
  lemma AnswerIsFixed(w: World, acts: seq<Act>, i: nat, again: Envelope, folder: Folder)
    requires WorldInv(w) && i < |w.store.inbox.events| && w.store.inbox.events[i].id == again.id
    ensures var t := Run(w, acts).store;
            AcceptEvent(t, again, folder)
            == (t, if again == w.store.inbox.events[i] then Accept(Accepted(i + 1, true, None))
                   else Reject(ConflictingEnvelope))
  {
    AcceptedOnce(w, acts, i);
    var events := Run(w, acts).store.inbox.events;
    var found := Find(events, again.id);
    assert events[i].id == again.id;
    assert found.Some? && events[found.value].id == events[i].id;
  }

  ghost predicate RefusedForEver(w: World, ev: Envelope) {
    forall acts, folder :: AcceptEvent(Run(w, acts).store, ev, folder).1 == Reject(ConflictingEnvelope)
  }

  /**
   * A republished repeat is refused for ever exactly when its new number
   * differs from the logged one; otherwise it is a duplicate of the logged event.
   */
  lemma RepeatRefusedIff(w: World, p: ProcessId, ev: Envelope)
    requires WorldInv(w) && Logged(w, ev) && w.lock.Free? && p !in w.stages
    requires ev.id !in w.files.spool && Frontier(w.files, ev.session) < MAX_INTEGER
    ensures var next := Frontier(w.files, ev.session) + 1; var n := Perform(w, Prepare(p, Unnumbered(ev)));
            && n.published == w.published + [ev.(seqno := next)]
            && (RefusedForEver(n, ev.(seqno := next)) <==> next != ev.seqno)
  {
    RepeatOfLogged(w, ev);
    var again := ev.(seqno := Frontier(w.files, ev.session) + 1);
    PerformKeeps(w, Prepare(p, Unnumbered(ev)));
    RefusedUnlessSame(Perform(w, Prepare(p, Unnumbered(ev))), ev, again);
  }

  /** Under a logged id only the logged envelope itself is ever accepted. */
  lemma RefusedUnlessSame(w: World, ev: Envelope, again: Envelope)
    requires WorldInv(w) && Logged(w, ev) && again.id == ev.id
    ensures RefusedForEver(w, again) <==> again != ev
  {
    var i :| 0 <= i < |w.store.inbox.events| && w.store.inbox.events[i] == ev;
    if again == ev {
      var folder := Folder(false, Unreadable);
      AnswerIsFixed(w, [], i, again, folder);
      assert AcceptEvent(Run(w, []).store, again, folder).1 != Reject(ConflictingEnvelope);
    } else {
      forall acts, folder ensures AcceptEvent(Run(w, acts).store, again, folder).1 == Reject(ConflictingEnvelope) {
        AnswerIsFixed(w, acts, i, again, folder);
      }
    }
  }

  // ---- runs without a crash between publication and counter save ----------------------------

  ghost predicate CrashFree(w: World, acts: seq<Act>) {
    acts == [] ||
    (var before, act := acts[..|acts| - 1], acts[|acts| - 1];
     CrashFree(w, before) && (act.Crash? ==> !SavingBy(Run(w, before).lock, act.p)))
  }

  /** The kinds reserved by one session, in the order of reservation. */
  function History(published: seq<Envelope>, s: SessionId): seq<Lifecycle.Kind> {
    if published == [] then []
    else
      var before, ev := History(published[..|published| - 1], s), published[|published| - 1];
      if ev.session == s then before + [ev.kind] else before
  }

  /** The k-th event a session reserved carries the number k. */
  ghost predicate Numbered(published: seq<Envelope>) {
    && (forall s :: High(published, s) == |History(published, s)|)
    && (published == [] ||
        (var before, ev := published[..|published| - 1], published[|published| - 1];
         Numbered(before) && ev.seqno == |History(before, ev.session)| + 1))
  }

  ghost predicate CounterInv(w: World) {
    && (w.lock.Saving? ==> w.lock.ev.seqno == High(w.published, w.lock.ev.session))
    && (forall s :: Saved(w.files, s) == High(w.published, s) || SavingFor(w, s))
  }

  predicate SavingFor(w: World, s: SessionId) { w.lock.Saving? && w.lock.ev.session == s }

  lemma NumberedSnoc(published: seq<Envelope>, ev: Envelope)
    requires Numbered(published) && GapFree(published) && ev.seqno == High(published, ev.session) + 1
    ensures Numbered(published + [ev])
    ensures forall s :: High(published + [ev], s) == if s == ev.session then ev.seqno else High(published, s)
  {
    var all := published + [ev];
    GapFreeAppended(published, ev);
    assert all[..|all| - 1] == published;
    assert High(published, ev.session) == |History(published, ev.session)|;
    forall s ensures High(all, s) == |History(all, s)| { assert High(published, s) == |History(published, s)|; }
  }

  lemma PrepareNumbers(w: World, p: ProcessId, c: Candidate)
    requires ProducerInv(w) && Numbered(w.published) && CounterInv(w) && w.lock.Free? && p !in w.stages
    ensures var n := PrepareAct(w, p, c); Numbered(n.published) && CounterInv(n)
  {
    var n := PrepareAct(w, p, c);
    match Reserve(w.files, c)
    case Publish(ev) =>
      FrontierBounded(w, c.session);
      assert Saved(w.files, c.session) == High(w.published, c.session);
      NumberedSnoc(w.published, ev);
      forall s ensures Saved(n.files, s) == High(n.published, s) || SavingFor(n, s) {
        assert Saved(w.files, s) == High(w.published, s);
      }
    case _ => assert n.lock == w.lock && n.files == w.files;
  }

  lemma PerformNumbers(w: World, act: Act)
    requires ProducerInv(w) && Numbered(w.published) && CounterInv(w)
    requires act.Crash? ==> !SavingBy(w.lock, act.p)
    ensures Numbered(Perform(w, act).published) && CounterInv(Perform(w, act))
  {
    var n := Perform(w, act);
    if act.Prepare? {
      if w.lock.Free? && act.p !in w.stages { PrepareNumbers(w, act.p, act.c); }
    } else {
      forall s ensures Saved(n.files, s) == High(n.published, s) || SavingFor(n, s) {
        assert Saved(w.files, s) == High(w.published, s) || SavingFor(w, s);
      }
    }
  }

  /** Without such a crash every session's k-th reservation gets the number k. */
  lemma {:induction false} CrashFreeNumbers(acts: seq<Act>)
    requires CrashFree(START, acts)
    ensures Numbered(Run(START, acts).published) && CounterInv(Run(START, acts))
  {
    if acts == [] {
    } else {
      StartInv();
      RunKeeps(START, acts[..|acts| - 1]);
      CrashFreeNumbers(acts[..|acts| - 1]);
      PerformNumbers(Run(START, acts[..|acts| - 1]), acts[|acts| - 1]);
    }
  }

  lemma {:induction false} NumberedEntry(published: seq<Envelope>, i: nat)
    requires Numbered(published) && i < |published|
    ensures var ev := published[i]; var h := History(published, ev.session);
            1 <= ev.seqno <= |h| && h[ev.seqno - 1] == ev.kind
            && ev.seqno == |History(published[..i], ev.session)| + 1
  {
    if i < |published| - 1 {
      var before := published[..|published| - 1];
      NumberedEntry(before, i);
      assert before[..i] == published[..i];
    }
  }

  lemma {:induction false} HistoryGrows(published: seq<Envelope>, i: nat, s: SessionId)
    requires i <= |published|
    ensures |History(published[..i], s)| <= |History(published, s)|
  {
    if i < |published| {
      var before := published[..|published| - 1];
      HistoryGrows(before, i, s);
      assert before[..i] == published[..i];
    } else {
      assert published[..i] == published;
    }
  }

  /** Without such a crash no two events of a session ever share a number. */
  lemma NumbersAreUnique(acts: seq<Act>, i: nat, j: nat)
    requires CrashFree(START, acts)
    requires var p := Run(START, acts).published; i < j < |p| && p[i].session == p[j].session
    ensures var p := Run(START, acts).published; p[i].seqno < p[j].seqno
  {
    var p := Run(START, acts).published;
    var s := p[i].session;
    CrashFreeNumbers(acts);
    NumberedEntry(p, i);
    NumberedEntry(p, j);
    HistoryGrows(p[..j], i + 1, s);
    assert p[..j][..i + 1] == p[..i + 1];
    assert p[..i + 1][..i] == p[..i] && p[..i + 1][i] == p[i];
  }

  // ---- the accepted events of a session --------------------------------------------------------

  predicate From(events: seq<Envelope>, s: SessionId, q: int, kind: Lifecycle.Kind) {
    exists i :: 0 <= i < |events| && events[i].session == s && events[i].seqno == q && events[i].kind == kind
  }

  /** Every received number came with its kind from some event. */
  ghost predicate AllFrom(m: Order.Received, events: seq<Envelope>, s: SessionId) {
    forall q: nat :: q in m ==> q >= 1 && From(events, s, q, m[q])
  }

  lemma {:induction false} ReceivedFrom(events: seq<Envelope>, s: SessionId)
    ensures AllFrom(Received(events, s), events, s)
    ensures var m := Received(events, s);
            && (forall ev :: ev in events && ev.session == s && ev.seqno > 0 ==> ev.seqno in m)
  {
    if events != [] {
      var before, last := events[..|events| - 1], events[|events| - 1];
      ReceivedFrom(before, s);
      var m := Received(events, s);
      forall q: nat | q in m ensures q >= 1 && From(events, s, q, m[q]) {
        if q in Received(before, s) {
          var i :| 0 <= i < |before| && before[i].session == s && before[i].seqno == q && before[i].kind == m[q];
          assert events[i] == before[i];
        } else {
          assert events[|events| - 1].seqno == q;
        }
      }
      forall ev | ev in events && ev.session == s && ev.seqno > 0 ensures ev.seqno in m {
        assert ev in before || ev == last;
      }
    }
  }

  ghost predicate AllAccepted(w: World, s: SessionId) {
    forall ev :: ev in w.published && ev.session == s ==> Logged(w, ev)
  }

  lemma ReceivedIsUsed(events: seq<Envelope>, published: seq<Envelope>, s: SessionId, q: int, kind: Lifecycle.Kind)
    requires From(events, s, q, kind) && forall ev :: ev in events ==> ev in published
    ensures Used(published, s, q)
  {
    var i :| 0 <= i < |events| && events[i].session == s && events[i].seqno == q && events[i].kind == kind;
    assert events[i] in published;
  }

  /** The received numbers are exactly 1 to the highest, once everything published is in the log. */
  lemma AllReceived(events: seq<Envelope>, published: seq<Envelope>, s: SessionId)
    requires GapFree(published) && forall ev :: ev in events ==> ev in published
    requires forall ev :: ev in published && ev.session == s ==> ev in events
    ensures forall q :: q in Received(events, s) <==> 1 <= q <= High(published, s)
  {
    var m := Received(events, s);
    ReceivedFrom(events, s);
    forall q: nat | q in m ensures 1 <= q <= High(published, s) {
      ReceivedIsUsed(events, published, s, q, m[q]);
      assert Used(published, s, q);
    }
    forall q: nat | 1 <= q <= High(published, s) ensures q in m {
      assert Used(published, s, q);
      var i :| 0 <= i < |published| && published[i].session == s && published[i].seqno == q;
      assert published[i] in events;
    }
  }

  lemma FullPrefix(m: Order.Received, n: nat, observed: Option<bool>)
    requires forall q :: q in m <==> 1 <= q <= n
    ensures var state := Order.Settle(m, observed);
            !state.sequenceGap && state.pending == [] && state.producerSeq == n
  {
    Order.CompleteSettles(m, Order.Taken(m, n), observed);
    Order.SettleFacts(m, observed);
  }

  /**
   * Whatever crashed: once everything a session reserved has been accepted, its
   * persisted state has no gap and nothing buffered, and stands at its highest number.
   */
  lemma AcceptedLeavesNoGap(acts: seq<Act>, s: SessionId)
    requires AllAccepted(Run(START, acts), s)
    ensures var w := Run(START, acts); var state := SessionState(w.store.inbox, s);
            !state.sequenceGap && state.pending == [] && state.producerSeq == High(w.published, s)
  {
    StartInv();
    RunKeeps(START, acts);
    var w := Run(START, acts);
    AllReceived(w.store.inbox.events, w.published, s);
    StoreIsRun(acts);
    RunFolds(Transactions(acts), s);
    FullPrefix(Received(w.store.inbox.events, s), High(w.published, s), LastTold(Transactions(acts), s));
  }

  /** The in-order fold of a history, as last told of the pane. */
  function FoldTold(history: seq<Lifecycle.Kind>, told: Option<bool>): Lifecycle.State {
    match told
    case None => Order.Fold(history)
    case Some(gone) => Lifecycle.ObserveGone(Order.Fold(history), gone)
  }

  lemma ReceivedIsHistory(events: seq<Envelope>, published: seq<Envelope>, s: SessionId)
    requires Numbered(published) && forall ev :: ev in events ==> ev in published
    requires forall q :: q in Received(events, s) <==> 1 <= q <= High(published, s)
    ensures Order.Records(Received(events, s), History(published, s))
  {
    var m, h := Received(events, s), History(published, s);
    ReceivedFrom(events, s);
    assert High(published, s) == |h|;
    forall q | q in m ensures 1 <= q <= |h| && m[q] == h[q - 1] {
      assert From(events, s, q, m[q]);
      var i :| 0 <= i < |events| && events[i].session == s && events[i].seqno == q && events[i].kind == m[q];
      assert events[i] in published;
      var k :| 0 <= k < |published| && published[k] == events[i];
      NumberedEntry(published, k);
    }
  }

  /**
   * End to end: without a crash between publication and counter save, once
   * everything a session reserved has been accepted, by whatever mix of sends,
   * retries and imports, its persisted state is the fold of its events in the
   * order they were reserved, as last told of its pane.
   */
  lemma AcceptedIsFold(acts: seq<Act>, s: SessionId)
    requires CrashFree(START, acts) && AllAccepted(Run(START, acts), s)
    ensures var w := Run(START, acts);
            SessionState(w.store.inbox, s) == FoldTold(History(w.published, s), LastTold(Transactions(acts), s))
  {
    StartInv();
    RunKeeps(START, acts);
    CrashFreeNumbers(acts);
    var w := Run(START, acts);
    AllReceived(w.store.inbox.events, w.published, s);
    ReceivedIsHistory(w.store.inbox.events, w.published, s);
    StoreIsRun(acts);
    RunFolds(Transactions(acts), s);
    Order.CompleteSettles(Received(w.store.inbox.events, s), History(w.published, s), LastTold(Transactions(acts), s));
  }
}

/**
 * Producers, importer and store as one crash-step machine. Every durable effect
 * is one step, and a process may die between any two of them.
 */
module OutboxRuns {
  import opened Common
  import opened Report
  import opened Store
  import opened StoreRuns
  import opened SessionFold
  import opened Outbox

  type ProcessId = string

  /** Who holds the spool lock, and what its holder has made durable so far. */
  datatype Lock =
    | Free
    | Saving(owner: ProcessId, ev: Envelope)
    | Importing(rest: seq<Envelope>, committed: Option<Envelope>)

  /** How far a producer process got with its event. */
  datatype Stage = Reserved(ev: Envelope) | Acked(ev: Envelope)

  /** published: every envelope ever renamed into the spool, in order; history, not a file. */
  datatype World =
    World(files: Files, store: Tables, lock: Lock, stages: map<ProcessId, Stage>, published: seq<Envelope>)

  const START := World(Files(map[], map[]), EMPTY_STORE, Free, map[], [])

  datatype Act =
    | Prepare(p: ProcessId, c: Candidate)
    | SaveCounter(p: ProcessId)
    | Crash(p: ProcessId)
    | Send(p: ProcessId, folder: Folder)
    | Cleanup(p: ProcessId)
    | ImportBegin
    | ImportCommit(folder: Folder)
    | ImportUnlink
    | ImportEnd
    | DaemonCrash
    | StoreAct(step: Step)

  /** Transactions the daemon runs that accept no producer event. */
  predicate Background(step: Step) { !step.AcceptStep? && PanesOnly(step) }

  function PrepareAct(w: World, p: ProcessId, c: Candidate): World {
    match Reserve(w.files, c)
    case Existing(ev) => w.(stages := w.stages[p := Reserved(ev)])
    case Publish(ev) => w.(files := Published(w.files, ev), lock := Saving(p, ev), published := w.published + [ev])
    case _ => w
  }

  function SendAct(w: World, p: ProcessId, ev: Envelope, folder: Folder): World {
    var r := AcceptEvent(w.store, ev, folder);
    w.(store := r.0, stages := if r.1.Accept? then w.stages[p := Acked(ev)] else w.stages - {p})
  }

  function CommitAct(w: World, rest: seq<Envelope>, folder: Folder): World
    requires rest != []
  {
    var r := AcceptEvent(w.store, rest[0], folder);
    w.(store := r.0, lock := Importing(rest[1..], if r.1.Accept? then Some(rest[0]) else None))
  }

  predicate SavingBy(lock: Lock, p: ProcessId) { lock.Saving? && lock.owner == p }

  /** One step; a step whose process or lock stands elsewhere does nothing. */
  ghost function Perform(w: World, act: Act): World {
    match act
    case Prepare(p, c) => if w.lock.Free? && p !in w.stages then PrepareAct(w, p, c) else w
    case SaveCounter(p) =>
      if SavingBy(w.lock, p) && w.lock.ev.seqno >= 0 then
        w.(files := CounterSaved(w.files, w.lock.ev), lock := Free, stages := w.stages[p := Reserved(w.lock.ev)])
      else w
    case Crash(p) => w.(stages := w.stages - {p}, lock := if SavingBy(w.lock, p) then Free else w.lock)
    case Send(p, folder) => if p in w.stages && w.stages[p].Reserved? then SendAct(w, p, w.stages[p].ev, folder) else w
    case Cleanup(p) =>
      if w.lock.Free? && p in w.stages && w.stages[p].Acked? then
        w.(files := Removed(w.files, w.stages[p].ev), stages := w.stages - {p})
      else w
    case ImportBegin =>
      if w.lock.Free? && Named(w.files.spool) then w.(lock := Importing(Listing(w.files.spool), None)) else w
    case ImportCommit(folder) =>
      if w.lock.Importing? && w.lock.committed.None? && w.lock.rest != [] then CommitAct(w, w.lock.rest, folder) else w
    case ImportUnlink =>
      if w.lock.Importing? && w.lock.committed.Some? then
        w.(files := Removed(w.files, w.lock.committed.value), lock := w.lock.(committed := None))
      else w
    case ImportEnd => if w.lock == Importing([], None) then w.(lock := Free) else w
    case DaemonCrash => if w.lock.Importing? then w.(lock := Free) else w
    case StoreAct(step) => if Background(step) then w.(store := Next(w.store, step)) else w
  }

  ghost function Run(w: World, acts: seq<Act>): World {
    if acts == [] then w else Perform(Run(w, acts[..|acts| - 1]), acts[|acts| - 1])
  }

  // ---- the numbers ever published -----------------------------------------------------

  function High(published: seq<Envelope>, s: SessionId): nat {
    if published == [] then 0
    else
      var before, ev := High(published[..|published| - 1], s), published[|published| - 1];
      if ev.session == s && ev.seqno > before then ev.seqno else before
  }

  predicate Used(published: seq<Envelope>, s: SessionId, q: int) {
    exists i :: 0 <= i < |published| && published[i].session == s && published[i].seqno == q
  }

  /** The numbers published for each session are exactly 1 up to its highest. */
  ghost predicate GapFree(published: seq<Envelope>) {
    forall s, q :: Used(published, s, q) <==> 1 <= q <= High(published, s)
  }

  lemma UsedAppended(published: seq<Envelope>, ev: Envelope, s: SessionId, q: int)
    ensures Used(published + [ev], s, q) <==> Used(published, s, q) || (ev.session == s && ev.seqno == q)
  {
    var all := published + [ev];
    assert all[|published|] == ev;
    if Used(published, s, q) {
      var i :| 0 <= i < |published| && published[i].session == s && published[i].seqno == q;
      assert all[i] == published[i];
    }
  }

  lemma GapFreeAppended(published: seq<Envelope>, ev: Envelope)
    requires GapFree(published) && 1 <= ev.seqno <= High(published, ev.session) + 1
    ensures GapFree(published + [ev])
    ensures forall s :: High(published + [ev], s)
                        == if s == ev.session && ev.seqno > High(published, s) then ev.seqno else High(published, s)
  {
    var all := published + [ev];
    assert all[..|all| - 1] == published;
    forall s, q ensures Used(all, s, q) <==> 1 <= q <= High(all, s) {
      UsedAppended(published, ev, s, q);
      assert Used(published, s, q) <==> 1 <= q <= High(published, s);
    }
  }

  // ---- the invariant -------------------------------------------------------------------

  predicate Logged(w: World, ev: Envelope) { ev in w.store.inbox.events }

  predicate Kept(w: World, ev: Envelope) { Spooled(w.files, ev) || Logged(w, ev) }

  ghost predicate FilesInv(w: World) {
    && Named(w.files.spool)
    && (forall id :: id in w.files.spool ==> w.files.spool[id] in w.published)
    && (forall s :: Saved(w.files, s) <= High(w.published, s))
  }

  ghost predicate LogInv(w: World) {
    && StoreInv(w.store)
    && (forall ev :: ev in w.store.inbox.events ==> ev in w.published)
  }

  ghost predicate KeptInv(w: World) { forall ev :: ev in w.published ==> Kept(w, ev) }

  ghost predicate LockInv(w: World) {
    match w.lock
    case Free => true
    case Saving(_, ev) => Spooled(w.files, ev)
    case Importing(rest, committed) =>
      && Ascends(rest) && (forall ev :: ev in rest ==> Spooled(w.files, ev))
      && (committed.Some? ==> Spooled(w.files, committed.value) && Logged(w, committed.value)
                              && forall ev :: ev in rest ==> ev.id != committed.value.id)
  }

  ghost predicate StagesInv(w: World) {
    && (forall p :: p in w.stages ==> w.stages[p].ev in w.published)
    && (forall p :: p in w.stages && w.stages[p].Acked? ==> Logged(w, w.stages[p].ev))
  }

  /** What files, lock and processes keep, given what the log holds. */
  ghost predicate ProducerInv(w: World) {
    FilesInv(w) && KeptInv(w) && LockInv(w) && StagesInv(w) && GapFree(w.published)
  }

  ghost predicate WorldInv(w: World) { LogInv(w) && ProducerInv(w) }

  lemma PublishedPositive(w: World, ev: Envelope)
    requires GapFree(w.published) && ev in w.published
    ensures 1 <= ev.seqno <= High(w.published, ev.session)
  {
    assert Used(w.published, ev.session, ev.seqno);
  }

  /** The files never remember more than was published. */
  lemma FrontierBounded(w: World, s: SessionId)
    requires FilesInv(w) && GapFree(w.published)
    ensures Frontier(w.files, s) <= High(w.published, s)
  {
    var seqs := Numbers(w.files.spool, s);
    if seqs != {} {
      var id :| id in w.files.spool && w.files.spool[id].session == s && w.files.spool[id].seqno == Greatest(seqs);
      PublishedPositive(w, w.files.spool[id]);
    }
  }

  lemma StartInv()
    ensures WorldInv(START)
  {
    EmptyInv();
  }

  // ---- what each step keeps ---------------------------------------------------------------

  lemma PublishKeeps(w: World, p: ProcessId, ev: Envelope)
    requires ProducerInv(w) && w.lock.Free? && ev.id !in w.files.spool
    requires 1 <= ev.seqno <= High(w.published, ev.session) + 1
    ensures ProducerInv(w.(files := Published(w.files, ev), lock := Saving(p, ev), published := w.published + [ev]))
  {
    var n := w.(files := Published(w.files, ev), lock := Saving(p, ev), published := w.published + [ev]);
    GapFreeAppended(w.published, ev);
    forall e | e in n.published ensures Kept(n, e) { assert e == ev || Kept(w, e); }
    forall s ensures Saved(n.files, s) <= High(n.published, s) { assert Saved(w.files, s) <= High(w.published, s); }
    assert FilesInv(n);
    assert StagesInv(n);
  }

  lemma PrepareKeeps(w: World, p: ProcessId, c: Candidate)
    requires ProducerInv(w) && w.lock.Free? && p !in w.stages
    ensures ProducerInv(PrepareAct(w, p, c))
    ensures PrepareAct(w, p, c).store == w.store && w.published <= PrepareAct(w, p, c).published
  {
    var n := PrepareAct(w, p, c);
    match Reserve(w.files, c)
    case Publish(ev) =>
      FrontierBounded(w, c.session);
      PublishKeeps(w, p, ev);
    case _ =>
      forall e | e in n.published ensures Kept(n, e) { assert Kept(w, e); }
  }

  lemma SaveKeeps(w: World, p: ProcessId)
    requires ProducerInv(w) && SavingBy(w.lock, p)
    ensures ProducerInv(Perform(w, SaveCounter(p)))
  {
    var n := Perform(w, SaveCounter(p));
    PublishedPositive(w, w.lock.ev);
    forall ev | ev in n.published ensures Kept(n, ev) { assert Kept(w, ev); }
  }

  /** A store that still holds reserved envelopes only, when more were reserved. */
  lemma LogCarries(w: World, n: World)
    requires LogInv(w) && n.store == w.store && w.published <= n.published
    ensures LogInv(n)
  {
  }

  /** A log that only grew keeps everything the producers rely on. */
  lemma LogGrows(w: World, n: World)
    requires ProducerInv(w) && n == w.(store := n.store)
    requires w.store.inbox.events <= n.store.inbox.events
    ensures ProducerInv(n)
  {
    forall ev | Logged(w, ev) ensures Logged(n, ev) {}
    forall ev | ev in n.published ensures Kept(n, ev) { assert Kept(w, ev); }
  }

  /** Accepting a published envelope, whatever the answer. */
  lemma AcceptPublished(w: World, ev: Envelope, folder: Folder)
    requires LogInv(w) && ev in w.published
    ensures var r := AcceptEvent(w.store, ev, folder); var n := w.(store := r.0);
            && LogInv(n) && w.store.inbox.events <= r.0.inbox.events
            && (r.1.Accept? ==> ev in r.0.inbox.events)
  {
    StepKeeps(w.store, AcceptStep(ev, folder));
    if Find(w.store.inbox.events, ev.id).None? {
      AcceptFresh(w.store, ev, folder);
      if Obstacle(w.store, ev).None? {
        assert InboxAfter(w.store, ev).events == w.store.inbox.events + [ev];
      }
    }
  }

  lemma SendKeeps(w: World, p: ProcessId, ev: Envelope, folder: Folder)
    requires WorldInv(w) && p in w.stages && w.stages[p] == Reserved(ev)
    ensures WorldInv(SendAct(w, p, ev, folder))
  {
    AcceptPublished(w, ev, folder);
    var r := AcceptEvent(w.store, ev, folder);
    var half, n := w.(store := r.0), SendAct(w, p, ev, folder);
    LogGrows(w, half);
    StageMoves(half, n, p, ev);
  }

  /** A process that moved on with its published, perhaps logged, envelope. */
  lemma StageMoves(w: World, n: World, p: ProcessId, ev: Envelope)
    requires ProducerInv(w) && ev in w.published
    requires n == w.(stages := w.stages - {p}) || (n == w.(stages := w.stages[p := Acked(ev)]) && Logged(w, ev))
    ensures ProducerInv(n)
  {
    forall e | e in n.published ensures Kept(n, e) { assert Kept(w, e); }
  }

  lemma CommitKeeps(w: World, folder: Folder)
    requires WorldInv(w) && w.lock.Importing? && w.lock.committed.None? && w.lock.rest != []
    ensures WorldInv(CommitAct(w, w.lock.rest, folder))
  {
    var ev := w.lock.rest[0];
    assert ev in w.lock.rest && Spooled(w.files, ev);
    AcceptPublished(w, ev, folder);
    var r := AcceptEvent(w.store, ev, folder);
    var half := w.(store := r.0);
    LogGrows(w, half);
    CommitMoves(half, r.1.Accept?);
  }

  lemma CommitMoves(w: World, accepted: bool)
    requires ProducerInv(w) && w.lock.Importing? && w.lock.committed.None? && w.lock.rest != []
    requires accepted ==> Logged(w, w.lock.rest[0])
    ensures ProducerInv(w.(lock := Importing(w.lock.rest[1..], if accepted then Some(w.lock.rest[0]) else None)))
  {
    var n := w.(lock := Importing(w.lock.rest[1..], if accepted then Some(w.lock.rest[0]) else None));
    assert w.lock.rest[0] in w.lock.rest;
    forall e | e in n.published ensures Kept(n, e) { assert Kept(w, e); }
  }

  /** An envelope that the log holds may leave the spool. */
  lemma RemovalKeeps(w: World, ev: Envelope)
    requires ProducerInv(w) && Logged(w, ev)
    ensures var n := w.(files := Removed(w.files, ev)); FilesInv(n) && KeptInv(n)
  {
    var n := w.(files := Removed(w.files, ev));
    forall e | e in n.published ensures Kept(n, e) { assert Kept(w, e); }
    forall s ensures Saved(n.files, s) <= High(n.published, s) { assert Saved(w.files, s) <= High(w.published, s); }
  }

  lemma CleanupKeeps(w: World, p: ProcessId)
    requires ProducerInv(w) && w.lock.Free? && p in w.stages && w.stages[p].Acked?
    ensures ProducerInv(Perform(w, Cleanup(p)))
  {
    RemovalKeeps(w, w.stages[p].ev);
    var half := w.(files := Removed(w.files, w.stages[p].ev));
    StageMoves(half, Perform(w, Cleanup(p)), p, w.stages[p].ev);
  }

  lemma UnlinkKeeps(w: World)
    requires ProducerInv(w) && w.lock.Importing? && w.lock.committed.Some?
    ensures ProducerInv(Perform(w, ImportUnlink))
  {
    var ev := w.lock.committed.value;
    RemovalKeeps(w, ev);
    var half, n := w.(files := Removed(w.files, ev)), Perform(w, ImportUnlink);
    forall e | e in n.published ensures Kept(n, e) { assert Kept(half, e); }
  }

  /** Steps that only take or give back the lock, or end a process. */
  lemma IdleKeeps(w: World, act: Act)
    requires ProducerInv(w) && (act.Crash? || act.ImportBegin? || act.ImportEnd? || act.DaemonCrash?)
    ensures ProducerInv(Perform(w, act)) && Perform(w, act).store == w.store && Perform(w, act).published == w.published
  {
    if act.ImportBegin? { ListingFacts(w.files.spool); }
    var n := Perform(w, act);
    forall e | e in n.published ensures Kept(n, e) { assert Kept(w, e); }
  }

  lemma BackgroundKeeps(w: World, step: Step)
    requires WorldInv(w) && Background(step)
    ensures WorldInv(w.(store := Next(w.store, step)))
  {
    StepKeeps(w.store, step);
    BackgroundLog(w.store, step);
    LogGrows(w, w.(store := Next(w.store, step)));
  }

  lemma BackgroundLog(t: Tables, step: Step)
    requires Background(step)
    ensures Next(t, step).inbox.events == t.inbox.events
  {
    if step.LivenessStep? {
      LivenessLog(t, SessionsOf(t.inbox, step.task), step.task, step.pane);
    }
  }

  lemma {:induction false} LivenessLog(t: Tables, rows: seq<SessionId>, task: TaskId, pane: Option<bool>)
    ensures LivenessRows(t, rows, task, pane, None).Some? ==>
              LivenessRows(t, rows, task, pane, None).value.inbox.events == t.inbox.events
    decreases |rows|
  {
    if rows != [] && LivenessRow(t, rows[0], task, pane, None).Some? {
      LivenessLog(LivenessRow(t, rows[0], task, pane, None).value, rows[1..], task, pane);
    }
  }

  lemma PerformKeeps(w: World, act: Act)
    requires WorldInv(w)
    ensures WorldInv(Perform(w, act))
  {
    match act
    case Prepare(p, c) =>
      if w.lock.Free? && p !in w.stages {
        PrepareKeeps(w, p, c);
        LogCarries(w, PrepareAct(w, p, c));
      }
    case SaveCounter(p) => if SavingBy(w.lock, p) { SaveKeeps(w, p); LogCarries(w, Perform(w, act)); }
    case Send(p, folder) => if p in w.stages && w.stages[p].Reserved? { SendKeeps(w, p, w.stages[p].ev, folder); }
    case Cleanup(p) =>
      if w.lock.Free? && p in w.stages && w.stages[p].Acked? { CleanupKeeps(w, p); LogCarries(w, Perform(w, act)); }
    case ImportCommit(folder) =>
      if w.lock.Importing? && w.lock.committed.None? && w.lock.rest != [] { CommitKeeps(w, folder); }
    case ImportUnlink =>
      if w.lock.Importing? && w.lock.committed.Some? { UnlinkKeeps(w); LogCarries(w, Perform(w, act)); }
    case StoreAct(step) => if Background(step) { BackgroundKeeps(w, step); }
    case _ => IdleKeeps(w, act); LogCarries(w, Perform(w, act));
  }

  lemma {:induction false} RunKeeps(w: World, acts: seq<Act>)
    requires WorldInv(w)
    ensures WorldInv(Run(w, acts))
  {
    if acts != [] {
      RunKeeps(w, acts[..|acts| - 1]);
      PerformKeeps(Run(w, acts[..|acts| - 1]), acts[|acts| - 1]);
    }
  }

  // ---- the store inside the machine ---------------------------------------------------------

  /** The store transaction an act performs, if it performs one. */
  function Transaction(w: World, act: Act): Option<Step> {
    match act
    case Send(p, folder) =>
      if p in w.stages && w.stages[p].Reserved? then Some(AcceptStep(w.stages[p].ev, folder)) else None
    case ImportCommit(folder) =>
      if w.lock.Importing? && w.lock.committed.None? && w.lock.rest != [] then Some(AcceptStep(w.lock.rest[0], folder)) else None
    case StoreAct(step) => if Background(step) then Some(step) else None
    case _ => None
  }

  /** Everything the store was asked to do over a run. */
  ghost function Transactions(acts: seq<Act>): seq<Step> {
    if acts == [] then []
    else
      var before := Transactions(acts[..|acts| - 1]);
      match Transaction(Run(START, acts[..|acts| - 1]), acts[|acts| - 1])
      case None => before
      case Some(step) => before + [step]
  }

  lemma PerformTransacts(w: World, act: Act)
    ensures Perform(w, act).store == match Transaction(w, act) case None => w.store case Some(step) => Next(w.store, step)
  {
  }

  lemma TransactionsSnoc(before: seq<Act>, act: Act)
    ensures Transactions(before + [act])
            == match Transaction(Run(START, before), act)
               case None => Transactions(before)
               case Some(step) => Transactions(before) + [step]
    ensures Run(START, before + [act]) == Perform(Run(START, before), act)
  {
    assert (before + [act])[..|before|] == before;
  }

  lemma TransactionPanes(w: World, act: Act)
    ensures Transaction(w, act).Some? ==> PanesOnly(Transaction(w, act).value)
  {
  }

  /** The machine's store is the store after exactly those transactions, all of them production ones. */
  lemma {:induction false} StoreIsRun(acts: seq<Act>)
    ensures Run(START, acts).store == After(Transactions(acts))
    ensures forall i :: 0 <= i < |Transactions(acts)| ==> PanesOnly(Transactions(acts)[i])
  {
    if acts != [] {
      var before, act := acts[..|acts| - 1], acts[|acts| - 1];
      assert acts == before + [act];
      StoreIsRun(before);
      TransactionsSnoc(before, act);
      PerformTransacts(Run(START, before), act);
      TransactionPanes(Run(START, before), act);
      var step := Transaction(Run(START, before), act);
      if step.Some? {
        AfterOne(Transactions(before), step.value);
      }
    }
  }
}

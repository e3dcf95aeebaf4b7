/** What the outbox protocol gets done when nothing interrupts it: an import, a send, and a retry after a crash. */
module OutboxProgress {
  import opened Common
  import opened Report
  import opened Store
  import opened StoreRuns
  import opened Outbox
  import opened OutboxRuns

  // ---- what an import settles ---------------------------------------------------------

  /** After importing a list of entries: each left the spool iff it is in the log, and no other entry or counter moved. */
  ghost predicate Settles(f: Files, t: Tables, rest: seq<Envelope>, g: Files, n: Tables) {
    && StoreInv(n) && t.inbox.events <= n.inbox.events && g.counters == f.counters
    && (forall ev :: ev in rest ==> (Spooled(g, ev) <==> ev !in n.inbox.events))
    && (forall id :: id in g.spool ==> id in f.spool && g.spool[id] == f.spool[id])
    && (forall id :: id in f.spool && id !in g.spool ==> f.spool[id] in rest)
    && (forall ev :: ev in n.inbox.events ==> ev in t.inbox.events || ev in rest)
  }

  /** One entry was committed: it is logged and left the spool, or neither. */
  ghost predicate Committed(f: Files, t: Tables, ev: Envelope, g: Files, n: Tables) {
    && StoreInv(n) && g.counters == f.counters
    && (ev in n.inbox.events ==> g.spool == f.spool - {ev.id})
    && (ev !in n.inbox.events ==> g.spool == f.spool)
    && (n.inbox.events == t.inbox.events || n.inbox.events == t.inbox.events + [ev])
  }

  /** Committing one entry: it is accepted and leaves the spool, or is refused, unlogged, and stays. */
  lemma ImportsOne(f: Files, t: Tables, ev: Envelope, folder: Folder)
    requires StoreInv(t) && Spooled(f, ev)
    ensures var (g, n) := ImportOne(f, t, ev, folder);
            Committed(f, t, ev, g, n) && (ev !in n.inbox.events ==> n == t)
  {
    StepKeeps(t, AcceptStep(ev, folder));
    var found := Find(t.inbox.events, ev.id);
    if found.None? {
      AcceptFresh(t, ev, folder);
      if Obstacle(t, ev).None? {
        assert InboxAfter(t, ev).events == t.inbox.events + [ev];
      }
    } else if t.inbox.events[found.value] != ev {
      assert forall i :: 0 <= i < |t.inbox.events| && t.inbox.events[i].id == ev.id ==> i == found.value;
    }
  }

  predicate DistinctIds(rest: seq<Envelope>) { forall i, j :: 0 <= i < j < |rest| ==> rest[i].id != rest[j].id }

  lemma SettlesMore(f: Files, t: Tables, ev: Envelope, rest: seq<Envelope>, f1: Files, t1: Tables, g: Files, n: Tables)
    requires Spooled(f, ev) && (forall e :: e in rest ==> e.id != ev.id)
    requires Committed(f, t, ev, f1, t1) && Settles(f1, t1, rest, g, n)
    ensures Settles(f, t, [ev] + rest, g, n)
  {
    if ev in t1.inbox.events {
      assert ev in n.inbox.events;
    } else {
      assert ev.id in f1.spool && f1.spool[ev.id] == ev;
    }
  }

  lemma {:induction false} ImportedSettles(f: Files, t: Tables, rest: seq<Envelope>, read: Envelope -> Folder)
    requires StoreInv(t) && DistinctIds(rest) && forall ev :: ev in rest ==> Spooled(f, ev)
    ensures var (g, n) := Imported(f, t, rest, read); Settles(f, t, rest, g, n)
    decreases |rest|
  {
    if rest != [] {
      ImportsOne(f, t, rest[0], read(rest[0]));
      var (f1, t1) := ImportOne(f, t, rest[0], read(rest[0]));
      forall ev | ev in rest[1..] ensures Spooled(f1, ev) {
        var i :| 0 <= i < |rest[1..]| && rest[1..][i] == ev;
        assert rest[i + 1] == ev && ev in rest;
      }
      ImportedSettles(f1, t1, rest[1..], read);
      var (g, n) := Imported(f1, t1, rest[1..], read);
      assert rest == [rest[0]] + rest[1..];
      SettlesMore(f, t, rest[0], rest[1..], f1, t1, g, n);
    }
  }

  /**
   * An import leaves in the spool exactly the entries that the log does not
   * hold: the accepted ones are gone, the refused ones are all still there.
   */
  lemma ImportSettles(f: Files, t: Tables, read: Envelope -> Folder)
    requires StoreInv(t) && Named(f.spool)
    ensures var (g, n) := Imported(f, t, Listing(f.spool), read);
            && StoreInv(n) && t.inbox.events <= n.inbox.events && g.counters == f.counters
            && (forall id :: id in f.spool ==> (id in g.spool <==> f.spool[id] !in n.inbox.events))
            && (forall id :: id in g.spool ==> id in f.spool && g.spool[id] == f.spool[id])
  {
    var rest := Listing(f.spool);
    ListingFacts(f.spool);
    ImportedSettles(f, t, rest, read);
    var (g, n) := Imported(f, t, rest, read);
    forall id | id in f.spool ensures id in g.spool <==> f.spool[id] !in n.inbox.events {
      assert f.spool[id] in rest && f.spool[id].id == id;
    }
  }

  // ---- the machine's own import --------------------------------------------------------

  /** The steps of an undisturbed pass over a listing. */
  function PassActs(rest: seq<Envelope>, read: Envelope -> Folder): seq<Act>
    decreases |rest|
  {
    if rest == [] then []
    else [ImportCommit(read(rest[0]))] + [ImportUnlink] + PassActs(rest[1..], read)
  }

  lemma {:induction false} RunJoins(w: World, a: seq<Act>, b: seq<Act>)
    ensures Run(w, a + b) == Run(Run(w, a), b)
  {
    if b == [] {
      assert a + b == a;
    } else {
      RunJoins(w, a, b[..|b| - 1]);
      assert (a + b)[..|a + b| - 1] == a + b[..|b| - 1];
    }
  }

  lemma RunOne(w: World, act: Act)
    ensures Run(w, [act]) == Perform(w, act)
  {
    assert [act][..0] == [];
  }

  lemma CommitActs(w: World, folder: Folder)
    requires w.lock.Importing? && w.lock.committed.None? && w.lock.rest != []
    ensures Perform(w, ImportCommit(folder)) == CommitAct(w, w.lock.rest, folder)
  {
    var act := ImportCommit(folder);
    match act
    case ImportCommit(_) =>
  }

  lemma CommitIs(w: World, folder: Folder)
    requires w.lock.Importing? && w.lock.committed.None? && w.lock.rest != []
    ensures var r := AcceptEvent(w.store, w.lock.rest[0], folder);
            Perform(w, ImportCommit(folder))
            == w.(store := r.0, lock := Importing(w.lock.rest[1..], if r.1.Accept? then Some(w.lock.rest[0]) else None))
  {
    CommitActs(w, folder);
  }

  lemma UnlinkIs(w: World)
    requires w.lock.Importing?
    ensures Perform(w, ImportUnlink)
            == if w.lock.committed.None? then w
               else w.(files := Removed(w.files, w.lock.committed.value), lock := Importing(w.lock.rest, None))
  {
  }

  lemma OnePasses(w: World, folder: Folder)
    requires w.lock.Importing? && w.lock.committed.None? && w.lock.rest != []
    ensures var n := ImportOne(w.files, w.store, w.lock.rest[0], folder);
            Perform(Perform(w, ImportCommit(folder)), ImportUnlink)
            == w.(files := n.0, store := n.1, lock := Importing(w.lock.rest[1..], None))
  {
    CommitIs(w, folder);
    UnlinkIs(Perform(w, ImportCommit(folder)));
  }

  lemma {:induction false} PassImports(w: World, read: Envelope -> Folder)
    requires w.lock.Importing? && w.lock.committed.None?
    ensures var n := Imported(w.files, w.store, w.lock.rest, read);
            Run(w, PassActs(w.lock.rest, read)) == w.(files := n.0, store := n.1, lock := Importing([], None))
    decreases |w.lock.rest|
  {
    var rest := w.lock.rest;
    if rest != [] {
      var mid := Perform(Perform(w, ImportCommit(read(rest[0]))), ImportUnlink);
      OnePasses(w, read(rest[0]));
      RunOne(w, ImportCommit(read(rest[0])));
      RunOne(Perform(w, ImportCommit(read(rest[0]))), ImportUnlink);
      RunJoins(w, [ImportCommit(read(rest[0]))], [ImportUnlink]);
      RunJoins(w, [ImportCommit(read(rest[0]))] + [ImportUnlink], PassActs(rest[1..], read));
      PassImports(mid, read);
    }
  }

  /** The steps of an undisturbed import of the spool. */
  ghost function ImportActs(w: World, read: Envelope -> Folder): seq<Act>
    requires Named(w.files.spool)
  {
    [ImportBegin] + (PassActs(Listing(w.files.spool), read) + [ImportEnd])
  }

  lemma BeginIs(w: World)
    requires w.lock.Free? && Named(w.files.spool)
    ensures Perform(w, ImportBegin) == w.(lock := Importing(Listing(w.files.spool), None))
  {
  }

  lemma EndIs(w: World)
    requires w.lock == Importing([], None)
    ensures Perform(w, ImportEnd) == w.(lock := Free)
  {
  }

  lemma CrashIs(w: World)
    requires w.lock.Importing?
    ensures Perform(w, DaemonCrash) == w.(lock := Free)
  {
  }

  /** Step by step the machine's undisturbed import is the whole import, and gives the lock back. */
  lemma MachineImports(w: World, read: Envelope -> Folder)
    requires w.lock.Free? && Named(w.files.spool)
    ensures var n := Imported(w.files, w.store, Listing(w.files.spool), read);
            Run(w, ImportActs(w, read)) == w.(files := n.0, store := n.1)
  {
    var pass := PassActs(Listing(w.files.spool), read);
    var begun := Perform(w, ImportBegin);
    BeginIs(w);
    RunOne(w, ImportBegin);
    RunJoins(w, [ImportBegin], pass + [ImportEnd]);
    PassImports(begun, read);
    RunJoins(begun, pass, [ImportEnd]);
    RunOne(Run(begun, pass), ImportEnd);
    EndIs(Run(begun, pass));
  }

  /**
   * Whatever step an import died in: the next one starts over and settles the
   * spool, so that exactly what the log does not hold is still there.
   */
  lemma CrashedImportRecovers(w: World, read: Envelope -> Folder)
    requires StoreInv(w.store) && Named(w.files.spool) && w.lock.Importing?
    ensures var crashed := Perform(w, DaemonCrash);
            && Named(crashed.files.spool)
            && var n := Run(crashed, ImportActs(crashed, read));
            && n.lock.Free? && w.store.inbox.events <= n.store.inbox.events && n.files.counters == w.files.counters
            && forall id :: id in w.files.spool ==> (id in n.files.spool <==> w.files.spool[id] !in n.store.inbox.events)
  {
    CrashIs(w);
    MachineImports(Perform(w, DaemonCrash), read);
    ImportSettles(w.files, w.store, read);
  }

  // ---- one producer, undisturbed ------------------------------------------------------------

  lemma SendIs(w: World, p: ProcessId, ev: Envelope, folder: Folder)
    requires p in w.stages && w.stages[p] == Reserved(ev)
    ensures var r := AcceptEvent(w.store, ev, folder);
            Perform(w, Send(p, folder))
            == w.(store := r.0, stages := if r.1.Accept? then w.stages[p := Acked(ev)] else w.stages - {p})
  {
  }

  lemma CleanupIs(w: World, p: ProcessId)
    requires w.lock.Free?
    ensures Perform(w, Cleanup(p))
            == if p in w.stages && w.stages[p].Acked? then
                 w.(files := Removed(w.files, w.stages[p].ev), stages := w.stages - {p})
               else w
  {
  }

  /** What a producer that holds a spooled envelope leaves behind when it sends it and cleans up. */
  ghost predicate SendsOff(w: World, p: ProcessId, ev: Envelope, folder: Folder, n: World) {
    && n.lock.Free? && p !in n.stages && n.files.counters == w.files.counters && n.published == w.published
    && (ev in n.store.inbox.events <==> AcceptEvent(w.store, ev, folder).1.Accept?)
    && (ev in n.store.inbox.events ==> n.files.spool == w.files.spool - {ev.id})
    && (ev !in n.store.inbox.events ==> n.files.spool == w.files.spool && n.store == w.store)
  }

  lemma StageSendsOff(w: World, p: ProcessId, ev: Envelope, folder: Folder)
    requires StoreInv(w.store) && w.lock.Free? && p in w.stages && w.stages[p] == Reserved(ev) && Spooled(w.files, ev)
    ensures SendsOff(w, p, ev, folder, Perform(Perform(w, Send(p, folder)), Cleanup(p)))
  {
    SendIs(w, p, ev, folder);
    CleanupIs(Perform(w, Send(p, folder)), p);
    AnswerIsLog(w.store, ev, folder);
  }

  lemma PublishIs(w: World, p: ProcessId, c: Candidate)
    requires w.lock.Free? && p !in w.stages && Reserve(w.files, c).Publish?
    ensures var ev := Reserve(w.files, c).ev;
            Perform(Perform(w, Prepare(p, c)), SaveCounter(p))
            == w.(files := CounterSaved(Published(w.files, ev), ev), stages := w.stages[p := Reserved(ev)],
                  published := w.published + [ev])
  {
  }

  /**
   * A producer that reserves, saves its counter, sends and cleans up leaves its
   * event in the log iff the store accepts it, and in the spool iff it does not.
   */
  lemma SendCompletes(w: World, p: ProcessId, c: Candidate, folder: Folder)
    requires StoreInv(w.store) && w.lock.Free? && p !in w.stages && Reserve(w.files, c).Publish?
    ensures var ev := Reserve(w.files, c).ev;
            var saved := Perform(Perform(w, Prepare(p, c)), SaveCounter(p));
            var n := Perform(Perform(saved, Send(p, folder)), Cleanup(p));
            && saved.store == w.store && saved.published == w.published + [ev]
            && saved.files == Files(w.files.spool[ev.id := ev], w.files.counters[c.session := ev.seqno])
            && SendsOff(saved, p, ev, folder, n)
  {
    PublishIs(w, p, c);
    var saved := Perform(Perform(w, Prepare(p, c)), SaveCounter(p));
    StageSendsOff(saved, p, Reserve(w.files, c).ev, folder);
  }

  lemma AdoptIs(w: World, p: ProcessId, c: Candidate)
    requires w.lock.Free? && p !in w.stages && Reserve(w.files, c).Existing?
    ensures Perform(w, Prepare(p, c)) == w.(stages := w.stages[p := Reserved(Reserve(w.files, c).ev)])
  {
  }

  /**
   * A producer that repeats a spooled event takes up that very envelope, and
   * its send and cleanup then settle it in the same way.
   */
  lemma RetryCompletes(w: World, p: ProcessId, c: Candidate, folder: Folder)
    requires StoreInv(w.store) && Named(w.files.spool)
    requires w.lock.Free? && p !in w.stages && Reserve(w.files, c).Existing?
    ensures var ev, again := Reserve(w.files, c).ev, Perform(w, Prepare(p, c));
            && Spooled(w.files, ev) && ev.id == c.id
            && again == w.(stages := w.stages[p := Reserved(ev)])
            && SendsOff(w, p, ev, folder, Perform(Perform(again, Send(p, folder)), Cleanup(p)))
  {
    AdoptIs(w, p, c);
    StageSendsOff(Perform(w, Prepare(p, c)), p, Reserve(w.files, c).ev, folder);
  }

  /** An envelope is accepted exactly when the log holds it afterwards. */
  lemma AnswerIsLog(t: Tables, ev: Envelope, folder: Folder)
    requires StoreInv(t)
    ensures var r := AcceptEvent(t, ev, folder);
            && (r.1.Accept? <==> ev in r.0.inbox.events) && (r.1.Reject? ==> r.0 == t)
  {
    var found := Find(t.inbox.events, ev.id);
    if found.None? {
      AcceptFresh(t, ev, folder);
      if Obstacle(t, ev).None? {
        assert InboxAfter(t, ev).events == t.inbox.events + [ev];
      }
    } else if t.inbox.events[found.value] != ev {
      assert forall i :: 0 <= i < |t.inbox.events| && t.inbox.events[i].id == ev.id ==> i == found.value;
    }
  }
}

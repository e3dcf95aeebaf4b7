/**
 * The producer's durable outbox: numbered envelopes published to a spool before
 * anything is sent, a sequence counter per session saved only afterwards, and
 * the daemon's import of whatever the spool still holds.
 */
module Outbox {
  import opened Common
  import opened Report
  import opened Store
  import opened EventStores
  import Lifecycle

  const MAX_INTEGER: nat := 9_007_199_254_740_991

  /** An event offered for reservation, perhaps with the number it already holds. */
  datatype Candidate =
    Candidate(id: string, session: SessionId, identity: Identity, supplied: Option<int>, kind: Lifecycle.Kind)

  /** The spool by event id, and the saved counter of each session. */
  datatype Files = Files(spool: map<string, Envelope>, counters: map<SessionId, nat>)

  datatype Reservation =
    | Existing(ev: Envelope)
    | Publish(ev: Envelope)
    | Invalid
    | Collision
    | NotNew
    | Exhausted

  function Saved(f: Files, s: SessionId): nat { if s in f.counters then f.counters[s] else 0 }

  predicate Spooled(f: Files, ev: Envelope) { ev.id in f.spool && f.spool[ev.id] == ev }

  /** The numbers a session holds in the spool. */
  function Numbers(spool: map<string, Envelope>, s: SessionId): set<nat> {
    set id | id in spool && spool[id].session == s && spool[id].seqno > 0 :: spool[id].seqno
  }

  function MaxSpooled(spool: map<string, Envelope>, s: SessionId): nat {
    if Numbers(spool, s) == {} then 0 else Greatest(Numbers(spool, s))
  }

  /** The highest number the files still remember of a session. */
  function Frontier(f: Files, s: SessionId): nat {
    if Saved(f, s) >= MaxSpooled(f.spool, s) then Saved(f, s) else MaxSpooled(f.spool, s)
  }

  function Stamp(c: Candidate, n: int): Envelope { Envelope(c.id, c.session, c.identity, n, c.kind) }

  predicate SameLogicalEvent(c: Candidate, ev: Envelope) {
    Stamp(c, ev.seqno) == ev && (c.supplied.None? || c.supplied.value == ev.seqno)
  }

  /** What reserving a candidate answers. */
  function Reserve(f: Files, c: Candidate): Reservation {
    if c.supplied.Some? && !(1 <= c.supplied.value <= MAX_INTEGER) then Invalid
    else if c.id in f.spool then
      if SameLogicalEvent(c, f.spool[c.id]) then Existing(f.spool[c.id]) else Collision
    else
      var previous := Frontier(f, c.session);
      if c.supplied.Some? && c.supplied.value != previous + 1 then NotNew
      else if previous + 1 > MAX_INTEGER then Exhausted
      else Publish(Stamp(c, previous + 1))
  }

  function Published(f: Files, ev: Envelope): Files { f.(spool := f.spool[ev.id := ev]) }

  function CounterSaved(f: Files, ev: Envelope): Files
    requires ev.seqno >= 0
  {
    f.(counters := f.counters[ev.session := ev.seqno])
  }

  /** Remove exactly this envelope; another envelope under its id stays. */
  function Removed(f: Files, ev: Envelope): Files {
    if Spooled(f, ev) then f.(spool := f.spool - {ev.id}) else f
  }

  // ---- what a reservation answers ---------------------------------------------------

  /** Session s holds number q in the spool. */
  predicate Holds(spool: map<string, Envelope>, s: SessionId, q: int) {
    exists id :: id in spool && spool[id].session == s && spool[id].seqno == q
  }

  /** The highest number is the greater of the saved counter and what the spool holds, each without the other. */
  lemma FrontierMeans(f: Files, s: SessionId)
    ensures var top := Frontier(f, s);
            && Saved(f, s) <= top && (top == Saved(f, s) || Holds(f.spool, s, top))
            && forall q :: Holds(f.spool, s, q) ==> q <= top
  {
    var numbers := Numbers(f.spool, s);
    forall id | id in f.spool && f.spool[id].session == s && f.spool[id].seqno > 0 ensures f.spool[id].seqno in numbers {}
    if numbers != {} {
      var id :| id in f.spool && f.spool[id].session == s && f.spool[id].seqno == Greatest(numbers);
      assert Holds(f.spool, s, Greatest(numbers));
    }
  }

  /**
   * What reserving answers, from the candidate, the spool and the highest known
   * number: a spooled id gives its own envelope back iff nothing about it
   * differs, and a new id is published under the next number, or the given one
   * if it is that.
   */
  lemma ReservationMeans(f: Files, c: Candidate)
    ensures var r, next := Reserve(f, c), Frontier(f, c.session) + 1;
            var outside := c.supplied.Some? && (c.supplied.value < 1 || c.supplied.value > MAX_INTEGER);
            && (r == Invalid <==> outside)
            && (!outside && c.id in f.spool ==>
                  var ev := f.spool[c.id];
                  var same := c.id == ev.id && c.session == ev.session && c.identity == ev.identity && c.kind == ev.kind
                              && (c.supplied == None || c.supplied == Some(ev.seqno));
                  r == if same then Existing(ev) else Collision)
            && (!outside && c.id !in f.spool ==>
                  && (r == NotNew <==> c.supplied.Some? && c.supplied.value != next)
                  && (r == Exhausted <==> c.supplied == None && next > MAX_INTEGER)
                  && (r.Publish? <==> next <= MAX_INTEGER && (c.supplied == None || c.supplied.value == next))
                  && (r.Publish? ==> r.ev == Envelope(c.id, c.session, c.identity, next, c.kind)))
  {
  }

  // ---- the order in which the daemon imports --------------------------------------

  predicate Less(a: string, b: string) {
    b != [] && (a == [] || a[0] < b[0] || (a[0] == b[0] && Less(a[1..], b[1..])))
  }

  function FileName(id: string): string { id + ".json" }

  /** Import order: by number, then by file name. */
  predicate Sooner(a: Envelope, b: Envelope) {
    a.seqno < b.seqno || (a.seqno == b.seqno && Less(FileName(a.id), FileName(b.id)))
  }

  /** File names are ordered totally, and name one event each. */
  lemma NamesTotal(a: string, b: string)
    ensures a == b || Less(FileName(a), FileName(b)) || Less(FileName(b), FileName(a))
    ensures !(Less(FileName(a), FileName(b)) && Less(FileName(b), FileName(a))) && !Less(FileName(a), FileName(a))
  {
    LessTotal(FileName(a), FileName(b));
    if FileName(a) == FileName(b) {
      assert |FileName(a)| == |a| + 5 && |FileName(b)| == |b| + 5;
      assert a == FileName(a)[..|a|] && b == FileName(b)[..|b|];
    }
  }

  lemma {:induction false} LessTotal(a: string, b: string)
    ensures a == b || Less(a, b) || Less(b, a)
    ensures !(Less(a, b) && Less(b, a)) && !Less(a, a)
  {
    if a != [] && b != [] {
      LessTotal(a[1..], b[1..]);
      LessTotal(a[1..], a[1..]);
      if a[0] == b[0] && a[1..] == b[1..] {
        assert a == [a[0]] + a[1..] == b;
      }
    } else if a != [] {
      LessTotal(a[1..], a[1..]);
    }
  }

  lemma {:induction false} LessTransitive(a: string, b: string, c: string)
    requires Less(a, b) && Less(b, c)
    ensures Less(a, c)
  {
    if a != [] && a[0] == b[0] && b[0] == c[0] {
      LessTransitive(a[1..], b[1..], c[1..]);
    }
  }

  predicate Named(spool: map<string, Envelope>) { forall id :: id in spool ==> spool[id].id == id }

  predicate IsNext(spool: map<string, Envelope>, id: string) {
    id in spool && forall x :: x in spool && x != id ==> Sooner(spool[id], spool[x])
  }

  lemma {:induction false} NextExists(spool: map<string, Envelope>)
    requires spool != map[] && Named(spool)
    ensures exists id :: IsNext(spool, id)
    decreases |spool|
  {
    var z :| z in spool;
    var rest := spool - {z};
    assert rest.Keys == spool.Keys - {z};
    if rest == map[] {
      assert spool.Keys == rest.Keys + {z} == {z};
      assert IsNext(spool, z);
    } else {
      NextExists(rest);
      var m :| IsNext(rest, m);
      NamesTotal(z, m);
      var id := if Sooner(spool[z], spool[m]) then z else m;
      forall x | x in spool && x != id ensures Sooner(spool[id], spool[x]) {
        if x != z && x != m {
          assert x in rest;
          if id == z && spool[z].seqno == spool[m].seqno == spool[x].seqno {
            LessTransitive(FileName(z), FileName(m), FileName(x));
          }
        }
      }
      assert IsNext(spool, id);
    }
  }

  lemma NextUnique(spool: map<string, Envelope>, a: string, b: string)
    requires Named(spool) && IsNext(spool, a) && IsNext(spool, b)
    ensures a == b
  {
    NamesTotal(a, b);
  }

  /** The whole spool in import order. */
  ghost function Listing(spool: map<string, Envelope>): seq<Envelope>
    requires Named(spool)
    decreases |spool|
  {
    if spool == map[] then []
    else
      NextExists(spool);
      var id :| IsNext(spool, id);
      assert (spool - {id}).Keys == spool.Keys - {id};
      [spool[id]] + Listing(spool - {id})
  }

  lemma ListingStarts(spool: map<string, Envelope>, id: string)
    requires Named(spool) && IsNext(spool, id)
    ensures Listing(spool) == [spool[id]] + Listing(spool - {id})
    ensures (spool - {id}).Keys == spool.Keys - {id}
  {
    var first :| IsNext(spool, first) && Listing(spool) == [spool[first]] + Listing(spool - {first});
    NextUnique(spool, id, first);
  }

  predicate ListsAll(spool: map<string, Envelope>, l: seq<Envelope>) {
    && (forall e :: e in l ==> e.id in spool && spool[e.id] == e)
    && (forall id :: id in spool ==> spool[id] in l)
  }

  predicate Ascends(l: seq<Envelope>) {
    forall i, j :: 0 <= i < j < |l| ==> l[i].id != l[j].id && l[i].seqno <= l[j].seqno
  }

  /** The listing names every entry once, and never a higher number before a lower one. */
  lemma {:induction false} ListingFacts(spool: map<string, Envelope>)
    requires Named(spool)
    ensures ListsAll(spool, Listing(spool)) && Ascends(Listing(spool))
    decreases |spool|
  {
    if spool != map[] {
      NextExists(spool);
      var id :| IsNext(spool, id);
      ListingStarts(spool, id);
      ListingFacts(spool - {id});
      ListsOneMore(spool, id, Listing(spool - {id}));
    }
  }

  lemma ListsOneMore(spool: map<string, Envelope>, id: string, l: seq<Envelope>)
    requires Named(spool) && IsNext(spool, id) && (spool - {id}).Keys == spool.Keys - {id}
    requires ListsAll(spool - {id}, l) && Ascends(l)
    ensures ListsAll(spool, [spool[id]] + l) && Ascends([spool[id]] + l)
  {
    var all := [spool[id]] + l;
    forall x | x in spool ensures spool[x] in all {
      if x != id { assert x in spool - {id}; }
    }
    forall i, j | 0 <= i < j < |all| ensures all[i].id != all[j].id && all[i].seqno <= all[j].seqno {
      assert all[j] == l[j - 1];
      if i > 0 { assert all[i] == l[i - 1]; } else { assert l[j - 1] in l; }
    }
  }

  /** Commit one entry, and unlink it only when the store accepted it. */
  function ImportOne(f: Files, t: Tables, ev: Envelope, folder: Folder): (Files, Tables) {
    var r := AcceptEvent(t, ev, folder);
    (if r.1.Accept? then Removed(f, ev) else f, r.0)
  }

  function Imported(f: Files, t: Tables, rest: seq<Envelope>, read: Envelope -> Folder): (Files, Tables)
    decreases |rest|
  {
    if rest == [] then (f, t)
    else
      var n := ImportOne(f, t, rest[0], read(rest[0]));
      Imported(n.0, n.1, rest[1..], read)
  }

  lemma RemoveOne(spool: map<string, Envelope>, id: string)
    requires id in spool
    ensures |spool - {id}| == |spool| - 1
  {
    assert (spool - {id}).Keys == spool.Keys - {id};
    assert |spool| == |spool.Keys| && |spool - {id}| == |(spool - {id}).Keys|;
  }

  lemma ImportedNext(f: Files, t: Tables, spool: map<string, Envelope>, id: string, read: Envelope -> Folder)
    requires Named(spool) && IsNext(spool, id)
    ensures (spool - {id}).Keys == spool.Keys - {id} && |spool - {id}| == |spool| - 1
    ensures Imported(f, t, Listing(spool), read)
            == var n := ImportOne(f, t, spool[id], read(spool[id]));
               Imported(n.0, n.1, Listing(spool - {id}), read)
  {
    ListingStarts(spool, id);
    RemoveOne(spool, id);
    assert Listing(spool)[1..] == Listing(spool - {id});
  }

  // ---- the files, changed in place --------------------------------------------------

  class SpoolDirectory {
    var spool: map<string, Envelope>
    var counters: map<SessionId, nat>

    function Now(): Files reads this { Files(spool, counters) }

    constructor ()
      ensures Now() == Files(map[], map[])
    {
      spool, counters := map[], map[];
    }

    /** The largest number spooled for a session, by one pass over the directory. */
    method MaxSpooledSeq(session: SessionId) returns (maximum: nat)
      ensures maximum == MaxSpooled(spool, session)
    {
      maximum := 0;
      var todo := spool.Keys;
      while todo != {}
        invariant todo <= spool.Keys
        invariant maximum == 0 || maximum in Numbers(spool, session)
        invariant forall id :: id in spool && id !in todo && spool[id].session == session ==> spool[id].seqno <= maximum
        decreases |todo|
      {
        var name :| name in todo;
        todo := todo - {name};
        var reserved := spool[name];
        if reserved.session == session && reserved.seqno > maximum {
          maximum := reserved.seqno;
        }
      }
    }

    /** Publish under the spool lock: differing content under the same id is never replaced. */
    method PublishLocked(ev: Envelope) returns (ok: bool)
      modifies this`spool
      ensures ok == (ev.id !in old(spool) || old(spool)[ev.id] == ev)
      ensures spool == if ok then old(spool)[ev.id := ev] else old(spool)
    {
      if ev.id in spool {
        assert spool[ev.id] == ev ==> spool == spool[ev.id := ev];
        return spool[ev.id] == ev;
      }
      spool := spool[ev.id := ev];
      return true;
    }

    /** Reserve a candidate: check, publish, and only then advance the counter. */
    method PrepareEvent(c: Candidate) returns (r: Reservation)
      modifies this
      ensures r == Reserve(old(Now()), c)
      ensures Now() == if r.Publish? then CounterSaved(Published(old(Now()), r.ev), r.ev) else old(Now())
    {
      if c.supplied.Some? && !(1 <= c.supplied.value <= MAX_INTEGER) {
        return Invalid;
      }
      if c.id in spool {
        return if SameLogicalEvent(c, spool[c.id]) then Existing(spool[c.id]) else Collision;
      }
      var spooled := MaxSpooledSeq(c.session);
      var counter := if c.session in counters then counters[c.session] else 0;
      var value := (if counter >= spooled then counter else spooled) + 1;
      if c.supplied.Some? && c.supplied.value != value {
        return NotNew;
      }
      if value > MAX_INTEGER {
        return Exhausted;
      }
      var prepared := Stamp(c, value);
      var published := PublishLocked(prepared);
      counters := counters[c.session := value];
      return Publish(prepared);
    }

    /** Acknowledged cleanup; an envelope that changed under its id is refused and kept. */
    method RemoveReserved(ev: Envelope) returns (ok: bool)
      modifies this`spool
      ensures Now() == Removed(old(Now()), ev)
      ensures ok == (ev.id !in old(spool) || old(spool)[ev.id] == ev)
    {
      if ev.id !in spool {
        return true;
      }
      if spool[ev.id] != ev {
        return false;
      }
      spool := spool - {ev.id};
      return true;
    }

    /** Find the entry that comes next in import order. */
    method NextEntry(entries: map<string, Envelope>) returns (next: string)
      requires entries != map[] && Named(entries)
      ensures IsNext(entries, next)
    {
      next :| next in entries;
      var todo := entries.Keys - {next};
      while todo != {}
        invariant next in entries && next !in todo && todo <= entries.Keys
        invariant forall x :: x in entries && x !in todo && x != next ==> Sooner(entries[next], entries[x])
        decreases |todo|
      {
        var name :| name in todo;
        todo := todo - {name};
        NamesTotal(name, next);
        if Sooner(entries[name], entries[next]) {
          forall x | x in entries && x !in todo && x != name ensures Sooner(entries[name], entries[x]) {
            if x != next && entries[name].seqno == entries[next].seqno == entries[x].seqno {
              LessTransitive(FileName(name), FileName(next), FileName(x));
            }
          }
          next := name;
        }
      }
    }

    /** Commit one entry of the listing, then unlink it, or keep it when it was refused. */
    method ImportEntry(store: EventStore, message: Envelope, folder: Folder) returns (ok: bool)
      requires store.Valid() && Spooled(Now(), message)
      modifies this`spool, store
      ensures store.Valid()
      ensures (Now(), store.Now()) == ImportOne(old(Now()), old(store.Now()), message, folder)
      ensures spool == if ok then old(spool) - {message.id} else old(spool)
      ensures |spool| == if ok then |old(spool)| - 1 else |old(spool)|
    {
      RemoveOne(spool, message.id);
      var answer := store.AcceptEvent(message, folder);
      ok := answer.Accept?;
      if ok {
        spool := spool - {message.id};
      }
    }

    /** Import the spool: each entry is committed before it is unlinked, and kept if refused. */
    method ImportSpool(store: EventStore, read: Envelope -> Folder) returns (errors: nat)
      requires Named(spool) && store.Valid()
      modifies this`spool, store
      ensures store.Valid()
      ensures (Now(), store.Now()) == Imported(old(Now()), old(store.Now()), Listing(old(spool)), read)
      ensures errors == |spool|
    {
      var valid := spool;
      errors := 0;
      while valid != map[]
        invariant Named(valid) && store.Valid()
        invariant forall id :: id in valid ==> id in spool && spool[id] == valid[id]
        invariant Imported(Now(), store.Now(), Listing(valid), read)
                  == Imported(old(Now()), old(store.Now()), Listing(old(spool)), read)
        invariant |spool| == errors + |valid|
        decreases |valid|
      {
        var name := NextEntry(valid);
        ImportedNext(Now(), store.Now(), valid, name, read);
        var ok := ImportEntry(store, valid[name], read(valid[name]));
        if !ok {
          errors := errors + 1;
        }
        valid := valid - {name};
      }
    }
  }
}

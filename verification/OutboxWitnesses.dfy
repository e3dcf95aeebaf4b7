/**
 * Outbox runs from the empty state: a crash that makes two events share a
 * number, and repeats of an acknowledged event with and without that crash.
 */
module OutboxWitnesses {
  import opened Common
  import opened Report
  import opened Store
  import opened StoreRuns
  import opened Outbox
  import opened OutboxRuns
  import opened OutboxFacts
  import Delivery
  import Lifecycle

  const SOMEONE := Identity(Delivery.Claude, Watchtower, None, Some("driver"))
  const ABSENT := Folder(false, Unreadable)
  const FIRST := Candidate("first", "session", SOMEONE, None, Lifecycle.SessionRegister)
  const SECOND := Candidate("second", "session", SOMEONE, None, Lifecycle.TurnStart)
  const EVENT := Envelope("first", "session", SOMEONE, 1, Lifecycle.SessionRegister)

  /** Published, crashed before the counter save, found again by the retry, accepted, and cleaned up. */
  const CRASHED: seq<Act> := [Prepare("p", FIRST), Crash("p"), Prepare("p", FIRST), Send("p", ABSENT), Cleanup("p")]

  /** Published, counted, accepted, and cleaned up. */
  const QUIET: seq<Act> := [Prepare("p", FIRST), SaveCounter("p"), Send("p", ABSENT), Cleanup("p")]

  lemma {:induction false} Unfolds(acts: seq<Act>, n: nat)
    requires n <= |acts|
    ensures Run(START, acts[..0]) == START
    ensures forall k :: 0 < k <= n ==> Run(START, acts[..k]) == Perform(Run(START, acts[..k - 1]), acts[k - 1])
  {
    if n > 0 {
      Unfolds(acts, n - 1);
      assert acts[..n][..n - 1] == acts[..n - 1];
    }
  }

  lemma RunSnoc(w: World, acts: seq<Act>, act: Act)
    ensures Run(w, acts + [act]) == Perform(Run(w, acts), act)
  {
    assert (acts + [act])[..|acts + [act]| - 1] == acts;
  }

  /** The first event is spooled and held by p, with these counters saved. */
  function Held(counters: map<SessionId, nat>): World {
    World(Files(map["first" := EVENT], counters), EMPTY_STORE, Free, map["p" := Reserved(EVENT)], [EVENT])
  }

  /** The first event is logged and cleaned up, with these counters saved. */
  predicate Done(w: World, counters: map<SessionId, nat>) {
    && w.files == Files(map[], counters) && w.lock.Free? && w.stages == map[]
    && w.published == [EVENT] && Logged(w, EVENT)
  }

  lemma NothingSpooled(f: Files, s: SessionId)
    requires f.spool == map[]
    ensures Frontier(f, s) == Saved(f, s)
  {
    assert Numbers(f.spool, s) == {};
  }

  lemma FirstPublished()
    ensures Perform(START, Prepare("p", FIRST)) == JustPublished()
  {
    NothingSpooled(START.files, "session");
  }

  lemma FirstAccepted()
    ensures var r := AcceptEvent(EMPTY_STORE, EVENT, ABSENT); r.1.Accept? && r.0.inbox.events == [EVENT]
  {
    EmptyInv();
    assert Obstacle(EMPTY_STORE, EVENT).None?;
    AcceptFresh(EMPTY_STORE, EVENT, ABSENT);
    assert InboxAfter(EMPTY_STORE, EVENT).events == [EVENT];
  }

  lemma SentAndCleaned(counters: map<SessionId, nat>)
    ensures Done(Perform(Perform(Held(counters), Send("p", ABSENT)), Cleanup("p")), counters)
  {
    FirstAccepted();
    var sent := Perform(Held(counters), Send("p", ABSENT));
    assert sent.stages == map["p" := Acked(EVENT)] && sent.files == Held(counters).files && Logged(sent, EVENT);
    assert map["first" := EVENT] - {"first"} == map[] && map["p" := Acked(EVENT)] - {"p"} == map[];
  }

  /** The first step of either run. */
  function JustPublished(): World {
    World(Files(map["first" := EVENT], map[]), EMPTY_STORE, Saving("p", EVENT), map[], [EVENT])
  }

  lemma CrashedHalf()
    ensures Run(START, CRASHED[..3]) == Held(map[])
  {
    Unfolds(CRASHED, 3);
    FirstPublished();
    RetryFindsIt();
    assert Run(START, CRASHED[..1]) == JustPublished();
  }

  lemma CrashedRun()
    ensures Done(Run(START, CRASHED), map[])
  {
    CrashedHalf();
    assert CRASHED == CRASHED[..3] + [Send("p", ABSENT)] + [Cleanup("p")];
    RunSnoc(START, CRASHED[..3], Send("p", ABSENT));
    RunSnoc(START, CRASHED[..3] + [Send("p", ABSENT)], Cleanup("p"));
    SentAndCleaned(map[]);
  }

  lemma RetryFindsIt()
    ensures Perform(Perform(JustPublished(), Crash("p")), Prepare("p", FIRST)) == Held(map[])
  {
  }

  lemma CounterIsSaved()
    ensures Perform(JustPublished(), SaveCounter("p")) == Held(map["session" := 1])
  {
  }

  lemma QuietHalf()
    ensures Run(START, QUIET[..2]) == Held(map["session" := 1])
  {
    Unfolds(QUIET, 2);
    FirstPublished();
    CounterIsSaved();
    assert Run(START, QUIET[..1]) == JustPublished();
  }

  lemma QuietRun()
    ensures Done(Run(START, QUIET), map["session" := 1])
  {
    QuietHalf();
    assert QUIET == QUIET[..2] + [Send("p", ABSENT)] + [Cleanup("p")];
    RunSnoc(START, QUIET[..2], Send("p", ABSENT));
    RunSnoc(START, QUIET[..2] + [Send("p", ABSENT)], Cleanup("p"));
    SentAndCleaned(map["session" := 1]);
  }

  lemma {:induction false} NoCrashIsCrashFree(w: World, acts: seq<Act>)
    requires forall i :: 0 <= i < |acts| ==> !acts[i].Crash?
    ensures CrashFree(w, acts)
  {
    if acts != [] {
      NoCrashIsCrashFree(w, acts[..|acts| - 1]);
    }
  }

  /** After such a crash and cleanup, the next event of the session takes the same number. */
  lemma CrashReusesNumber()
    ensures Run(START, CRASHED + [Prepare("p", SECOND)]).published == [EVENT, Stamp(SECOND, 1)]
  {
    CrashedRun();
    SecondTakesNumber(CRASHED);
  }

  lemma SecondTakesNumber(acts: seq<Act>)
    requires Done(Run(START, acts), map[])
    ensures Run(START, acts + [Prepare("p", SECOND)]).published == [EVENT, Stamp(SECOND, 1)]
  {
    RunSnoc(START, acts, Prepare("p", SECOND));
    SecondReserves(Run(START, acts));
  }

  lemma SecondReserves(w: World)
    requires Done(w, map[])
    ensures Perform(w, Prepare("p", SECOND)).published == [EVENT, Stamp(SECOND, 1)]
  {
    NothingSpooled(w.files, "session");
  }

  lemma RepeatFrom(w: World, counters: map<SessionId, nat>)
    requires WorldInv(w) && Done(w, counters) && Saved(Files(map[], counters), "session") < MAX_INTEGER
    ensures var again := EVENT.(seqno := Saved(Files(map[], counters), "session") + 1);
            var n := Perform(w, Prepare("p", FIRST));
            n.published == [EVENT] + [again] && (RefusedForEver(n, again) <==> again.seqno != 1)
  {
    NothingSpooled(w.files, "session");
    assert Unnumbered(EVENT) == FIRST;
    RepeatRefusedIff(w, "p", EVENT);
  }

  /** Once the first event is done, repeating it publishes the number after the saved counter. */
  lemma RepeatWhenDone(acts: seq<Act>, counters: map<SessionId, nat>)
    requires Done(Run(START, acts), counters) && Saved(Files(map[], counters), "session") < MAX_INTEGER
    ensures var again := EVENT.(seqno := Saved(Files(map[], counters), "session") + 1);
            var w := Run(START, acts + [Prepare("p", FIRST)]);
            w.published == [EVENT] + [again] && (RefusedForEver(w, again) <==> again.seqno != 1)
  {
    StartInv();
    RunKeeps(START, acts);
    RunSnoc(START, acts, Prepare("p", FIRST));
    RepeatFrom(Run(START, acts), counters);
  }

  lemma QuietRepeatIsCrashFree()
    ensures CrashFree(START, QUIET + [Prepare("p", FIRST)])
  {
    NoCrashIsCrashFree(START, QUIET + [Prepare("p", FIRST)]);
  }

  /** In that crash-free run the repeat is published as number 2, and refused for ever. */
  lemma QuietRepeatIsRefused()
    ensures var w := Run(START, QUIET + [Prepare("p", FIRST)]);
            w.published == [EVENT, EVENT.(seqno := 2)] && RefusedForEver(w, EVENT.(seqno := 2))
  {
    QuietRun();
    RepeatWhenDone(QUIET, map["session" := 1]);
  }

  /** After the crash run the repeat gets the logged number again, and is not refused. */
  lemma CrashedRepeatIsDuplicate()
    ensures var w := Run(START, CRASHED + [Prepare("p", FIRST)]);
            w.published == [EVENT, EVENT] && !RefusedForEver(w, EVENT)
  {
    CrashedRun();
    RepeatWhenDone(CRASHED, map[]);
  }
}

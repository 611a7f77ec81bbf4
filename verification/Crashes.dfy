/** Crash injection: a life is killed at the point and the seq that were injected, and nowhere
    else; and no life gets past them. */
module Crashes {
  import opened Diary
  import opened Engine
  import opened Traces
  import opened Timelines
  import opened Protocol
  import opened Store
  import opened Lives
  import Chaos

  /** The injected crash is for the seq `slot`, or for every seq. */
  predicate Pinned(crash: Crash, slot: nat) {
    crash.At? && (crash.pinned == None || crash.pinned == Some(slot))
  }

  /** Where a life has stopped when the crash struck: `need` is what the diary asks for next,
      `own` says that the life committed the last event itself. */
  predicate Struck(crash: Crash, need: Need, seen: seq<Event>, own: bool) {
    var n := |seen|;
    crash.At? &&
    match crash.point
    case BeforeCall => need.Call? && Pinned(crash, n + 1)
    case BeforeAppend => need.Call? && Pinned(crash, n + 1)
    case AfterAppend => own && n > 0 && seen[n - 1].LlmCalled? && Pinned(crash, n + 1)
    case BeforeIntent => need.Intend? && Pinned(crash, n + 1)
    case BeforeEffect => need.Perform? && Pinned(crash, n + 1)
    case BeforeCommit => need.Perform? && Pinned(crash, n + 1)
    case AfterEffect => own && n > 0 && seen[n - 1].ToolCompleted? && Pinned(crash, n)
  }

  /** A killed life was killed at the injected point and seq, and the answer that it had paid
      for and not recorded is lost at BeforeAppend alone. */
  lemma KilledWhereInjected(env: Env, a: Agent, s: Snap, u: Snap, fate: Fate)
    requires Lived(env, a, s, u, fate) && fate == Stopped(Killed)
    ensures |s.seen| <= |u.seen| && Struck(env.crash, NeedOf(a, u.seen), u.seen, |s.seen| < |u.seen|)
    ensures u.calls - s.calls ==
      OwnCalls(u.seen, 0) - OwnCalls(s.seen, 0) + (if env.crash.point == BeforeAppend then 1 else 0)
  {
    hide NeedOf, Grew, Attempt, OwnCalls;
    var n: nat, m :| Grew(env, a, s, m, n) && Fits(env, a, s, n, m, u, fate);
    Chaos.GrewBills(env, a, s, m, n);
    TouchesOwnOnly(env, a, s, m, n, env.id);
  }

  /** The event at seq `k`, which the life committed, is not one before whose commit the crash
      strikes; if it is one after which it strikes, it is the last. */
  predicate Spared(crash: Crash, k: nat, e: Event, last: bool) {
    crash.At? ==>
      match crash.point
      case BeforeCall => Pinned(crash, k) ==> !e.LlmCalled?
      case BeforeAppend => Pinned(crash, k) ==> !e.LlmCalled?
      case AfterAppend => Pinned(crash, k + 1) && e.LlmCalled? ==> last
      case BeforeIntent => Pinned(crash, k) ==> !e.ToolIntent?
      case BeforeEffect => Pinned(crash, k) ==> !e.ToolCompleted?
      case BeforeCommit => Pinned(crash, k) ==> !e.ToolCompleted?
      case AfterEffect => Pinned(crash, k) && e.ToolCompleted? ==> last
  }

  lemma CommitIsSpared(env: Env, need: Need, s: Snap, m: Snap, last: bool)
    requires Lands(env, need, s, m) && BreakOf(env, need, s).None?
    requires last || !DiesAfter(env, m.seen)
    ensures m.seen == s.seen + [m.seen[|s.seen|]]
    ensures Spared(env.crash, |s.seen| + 1, m.seen[|s.seen|], last)
  {
    hide Attempt, Appends, Refusal;
  }

  lemma {:induction false} GrewIsSpared(env: Env, a: Agent, s: Snap, u: Snap, n: nat, k: nat)
    requires Grew(env, a, s, u, n) && |s.seen| < k <= |u.seen|
    ensures Spared(env.crash, k, u.seen[k - 1], k == |u.seen|)
    decreases n
  {
    hide NeedOf, Lands, BreakOf, DiesAfter, Spared;
    if n > 0 {
      var m :| Lands(env, NeedOf(a, s.seen), s, m) && GoesOn(env, n - 1, m.seen) && Grew(env, a, m, u, n - 1);
      TouchesOwnOnly(env, a, m, u, n - 1, env.id);
      CommitIsSpared(env, NeedOf(a, s.seen), s, m, n == 1);
      if k > |m.seen| {
        GrewIsSpared(env, a, m, u, n - 1, k);
      }
    }
  }

  /** No life gets past the injected point: an event before whose commit the crash strikes it
      never commits, and one after which it strikes it does not survive. */
  lemma NoneGetsPast(env: Env, a: Agent, s: Snap, u: Snap, fate: Fate)
    requires Lived(env, a, s, u, fate)
    ensures forall i :: |s.seen| <= i < |u.seen| ==>
      Spared(env.crash, i + 1, u.seen[i], i + 1 == |u.seen| && fate == Stopped(Killed))
  {
    hide NeedOf, Grew, BreakOf, Spared;
    var n: nat, m :| Grew(env, a, s, m, n) && Fits(env, a, s, n, m, u, fate);
    TouchesOwnOnly(env, a, s, m, n, env.id);
    forall i | |s.seen| <= i < |u.seen|
      ensures Spared(env.crash, i + 1, u.seen[i], i + 1 == |u.seen| && fate == Stopped(Killed))
    {
      GrewIsSpared(env, a, s, m, n, i + 1);
      LastIsKilled(env, m.seen, i + 1, fate);
    }
  }

  /** A life that stands at the injected point is killed, unless the model or the database
      stopped it just before. */
  lemma StruckIsKilled(env: Env, a: Agent, s: Snap, u: Snap, fate: Fate)
    requires Lived(env, a, s, u, fate) && Struck(env.crash, NeedOf(a, u.seen), u.seen, |s.seen| < |u.seen|)
    ensures
      || fate == Stopped(Killed)
      || (env.crash.point == BeforeAppend && fate == Stopped(ModelRaised))
      || (env.crash.point == BeforeCommit && fate.Stopped? && fate.why.Refused?)
  {
    hide NeedOf, Grew, Attempt;
    var n: nat, m :| Grew(env, a, s, m, n) && Fits(env, a, s, n, m, u, fate);
    TouchesOwnOnly(env, a, s, m, n, env.id);
  }

  /** If the life survived its last event, the crash does not strike after that one. */
  lemma LastIsKilled(env: Env, seen: seq<Event>, k: nat, fate: Fate)
    requires 0 < k <= |seen| && Spared(env.crash, k, seen[k - 1], k == |seen|)
    requires fate == Stopped(Killed) || !DiesAfter(env, seen)
    ensures Spared(env.crash, k, seen[k - 1], k == |seen| && fate == Stopped(Killed))
  {
  }
}

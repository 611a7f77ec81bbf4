/** The uninterrupted life of a run, when the model, the effects and the humans are
    deterministic: the reference every crashed, resumed or fenced history is held to. */
module Timelines {
  import opened Diary
  import opened Engine
  import opened Traces

  /** A model that is a function of the prompt, effects that are functions of the effects
      committed before, and decisions fixed by their place in the diary. A model or an effect
      without a value raises; in a flaky world they may raise at other times too. */
  datatype World = World(
    model: string -> Option<string>,
    effect: (string, seq<Commit>) -> Option<Value>,
    human: nat -> bool,
    flaky: bool)

  datatype Timeline = Timeline(diary: seq<Event>, commits: seq<Commit>)

  function NeedOf(a: Agent, h: seq<Event>): Need {
    Replay(a, h, Start).need
  }

  predicate Growable(n: Need) {
    Writes(n) || n.Await?
  }

  /** The world has no answer to the need: the model or the effect raises. */
  predicate Raises(world: World, commits: seq<Commit>, need: Need) {
    match need
    case Call(prompt) => world.model(prompt).None?
    case Perform(fn) => world.effect(fn, commits).None?
    case _ => false
  }

  /** The event that the world adds next. */
  function NextEvent(id: RunId, world: World, t: Timeline, need: Need): Event
    requires Growable(need) && !Raises(world, t.commits, need)
  {
    match need
    case Call(prompt) => LlmCalled(prompt, world.model(prompt).value)
    case Intend(_) => ToolIntent(MakeKey(id, |t.diary| + 1))
    case Perform(fn) => ToolCompleted(MakeKey(id, |t.diary|), world.effect(fn, t.commits).value)
    case Request(question) => ApprovalRequested(question)
    case Await(_) => Approval(world.human(|t.diary| + 1))
  }

  /** One step of the uninterrupted life: one more event, or nothing when it has ended. */
  function Grow(a: Agent, id: RunId, world: World, t: Timeline): Timeline {
    var need := NeedOf(a, t.diary);
    if Growable(need) && !Raises(world, t.commits, need) then
      var e := NextEvent(id, world, t, need);
      Timeline(t.diary + [e],
               if need.Perform? then t.commits + [Commit(id, |t.diary|, need.fn, e.result)] else t.commits)
    else t
  }

  function Grown(a: Agent, id: RunId, world: World, t: Timeline, n: nat): Timeline {
    if n == 0 then t else Grow(a, id, world, Grown(a, id, world, t, n - 1))
  }

  /** The agent returned or raised, or the world raises at what it asks for. */
  predicate Ended(a: Agent, world: World, t: Timeline) {
    !Growable(NeedOf(a, t.diary)) || Raises(world, t.commits, NeedOf(a, t.diary))
  }

  lemma {:induction false} EndedStays(a: Agent, id: RunId, world: World, t: Timeline, m: nat, n: nat)
    requires m <= n && Ended(a, world, Grown(a, id, world, t, m))
    ensures Grown(a, id, world, t, n) == Grown(a, id, world, t, m)
    decreases n
  {
    if m < n {
      EndedStays(a, id, world, t, m, n - 1);
    }
  }

  /** There is one ended timeline: however many steps two ended lives took, they agree. */
  lemma EndIsUnique(a: Agent, id: RunId, world: World, t: Timeline, m: nat, n: nat)
    requires Ended(a, world, Grown(a, id, world, t, m)) && Ended(a, world, Grown(a, id, world, t, n))
    ensures Grown(a, id, world, t, m) == Grown(a, id, world, t, n)
  {
    if m <= n {
      EndedStays(a, id, world, t, m, n);
    } else {
      EndedStays(a, id, world, t, n, m);
    }
  }

  /** How many more events a life can add. */
  function Rank(a: Agent, r: Halt): int {
    2 * (a.bound - |r.at.obs|) - (if r.need.Perform? || r.need.Await? then 1 else 0)
  }

  lemma {:induction false} HaltsWithinBound(a: Agent, h: seq<Event>, w: Walk)
    ensures |Replay(a, h, w).at.obs| >= |w.obs|
    ensures Growable(Replay(a, h, w).need) ==> |Replay(a, h, w).at.obs| < a.bound
    decreases if |w.obs| < a.bound then a.bound - |w.obs| else 0
  {
    var t := AgentTurn(a, h, w);
    if t.Go? {
      HaltsWithinBound(a, h, t.next);
    }
  }

  lemma GrowDecreasesRank(a: Agent, id: RunId, world: World, t: Timeline)
    requires !Ended(a, world, t)
    ensures Rank(a, Replay(a, t.diary, Start)) > 0
    ensures Rank(a, Replay(a, Grow(a, id, world, t).diary, Start)) < Rank(a, Replay(a, t.diary, Start))
  {
    var r := Replay(a, t.diary, Start);
    HaltsWithinBound(a, t.diary, Start);
    var e := NextEvent(id, world, t, r.need);
    Resume(a, t.diary, Start, e);
    var u := Answered(r, e);
    if u.Go? {
      HaltsWithinBound(a, t.diary + [e], u.next);
    }
  }

  lemma GrownSplits(a: Agent, id: RunId, world: World, t: Timeline, n: nat)
    ensures Grown(a, id, world, Grow(a, id, world, t), n) == Grown(a, id, world, t, n + 1)
  {
    if n > 0 {
      GrownSplits(a, id, world, t, n - 1);
    }
  }

  /** Every uninterrupted life ends. */
  lemma LivesEnd(a: Agent, id: RunId, world: World, t: Timeline) returns (n: nat)
    ensures Ended(a, world, Grown(a, id, world, t, n))
  {
    var rank := Rank(a, Replay(a, t.diary, Start));
    n := EndsWithin(a, id, world, t, if rank < 0 then 0 else rank);
  }

  lemma {:induction false} EndsWithin(a: Agent, id: RunId, world: World, t: Timeline, rank: nat) returns (n: nat)
    requires Rank(a, Replay(a, t.diary, Start)) <= rank
    ensures Ended(a, world, Grown(a, id, world, t, n))
    decreases rank
  {
    hide Replay, Grow, Rank;
    n := 0;
    if !Ended(a, world, t) {
      GrowDecreasesRank(a, id, world, t);
      var m := EndsWithin(a, id, world, Grow(a, id, world, t), rank - 1);
      GrownSplits(a, id, world, t, m);
      n := m + 1;
    }
  }

  lemma GrowKeepsTrace(a: Agent, id: RunId, world: World, t: Timeline)
    requires Trace(a, t.diary)
    ensures Trace(a, Grow(a, id, world, t).diary)
  {
    if !Ended(a, world, t) {
      TraceExtends(a, t.diary, NextEvent(id, world, t, NeedOf(a, t.diary)));
    }
  }

  lemma EndExists(a: Agent, id: RunId, world: World, birth: Timeline)
    ensures exists n: nat :: Ended(a, world, Grown(a, id, world, birth, n))
  {
    var n := LivesEnd(a, id, world, birth);
  }

  /** The whole uninterrupted life of a run from its birth: exactly one, by EndIsUnique. */
  ghost function Lifetime(a: Agent, id: RunId, world: World, birth: Timeline): (t: Timeline)
    ensures Ended(a, world, t) && exists n: nat :: t == Grown(a, id, world, birth, n)
  {
    EndExists(a, id, world, birth);
    var n: nat :| Ended(a, world, Grown(a, id, world, birth, n));
    Grown(a, id, world, birth, n)
  }

  lemma {:induction false} GrownPrefix(a: Agent, id: RunId, world: World, t: Timeline, m: nat, n: nat)
    requires m <= n
    ensures Grown(a, id, world, t, m).diary <= Grown(a, id, world, t, n).diary
    ensures Grown(a, id, world, t, m).commits <= Grown(a, id, world, t, n).commits
    decreases n
  {
    hide Replay, NextEvent;
    if m < n {
      GrownPrefix(a, id, world, t, m, n - 1);
    }
  }

  lemma GrownLonger(a: Agent, id: RunId, world: World, t: Timeline, n: nat)
    requires !Ended(a, world, Grown(a, id, world, t, n))
    ensures |Grown(a, id, world, t, n + 1).diary| == |Grown(a, id, world, t, n).diary| + 1
  {
    hide Replay;
  }

  /** Whatever point of its life a run has reached, it is a prefix of the whole of it. */
  lemma LifetimeExtends(a: Agent, id: RunId, world: World, birth: Timeline, n: nat)
    ensures var t := Grown(a, id, world, birth, n);
      && t.diary <= Lifetime(a, id, world, birth).diary && t.commits <= Lifetime(a, id, world, birth).commits
      && (Ended(a, world, t) ==> t == Lifetime(a, id, world, birth))
      && (!Ended(a, world, t) ==> |t.diary| < |Lifetime(a, id, world, birth).diary|)
  {
    hide Grown, Ended, Lifetime;
    var t, whole := Grown(a, id, world, birth, n), Lifetime(a, id, world, birth);
    assert Ended(a, world, whole);
    var m: nat :| whole == Grown(a, id, world, birth, m);
    if m < n {
      EndedStays(a, id, world, birth, m, n);
    } else {
      GrownPrefix(a, id, world, birth, n, m);
      if Ended(a, world, t) {
        EndedStays(a, id, world, birth, n, m);
      } else {
        assert n < m;
        GrownPrefix(a, id, world, birth, n + 1, m);
        GrownLonger(a, id, world, birth, n);
      }
    }
  }

  lemma {:induction false} GrownTraces(a: Agent, id: RunId, world: World, t: Timeline, n: nat)
    requires Trace(a, t.diary)
    ensures Trace(a, Grown(a, id, world, t, n).diary)
  {
    hide Trace, Grow;
    if n > 0 {
      GrownTraces(a, id, world, t, n - 1);
      GrowKeepsTrace(a, id, world, Grown(a, id, world, t, n - 1));
    }
  }

  /** At every point of an uninterrupted life its commits are the effects that its diary shows
      as performed since birth: each once, in order, with the recorded result. */
  lemma {:induction false} GrownPerforms(a: Agent, id: RunId, world: World, birth: Timeline, n: nat)
    requires birth.commits == [] && !NeedOf(a, birth.diary).Perform?
    ensures birth.diary <= Grown(a, id, world, birth, n).diary
    ensures var t := Grown(a, id, world, birth, n); t.commits == Performed(a, id, t.diary, Start, |birth.diary|)
  {
    hide Replay, Performed, NextEvent;
    if n == 0 {
      ForkPerformedNothing(a, id, birth.diary);
    } else {
      GrownPerforms(a, id, world, birth, n - 1);
      var t := Grown(a, id, world, birth, n - 1);
      if !Ended(a, world, t) {
        PerformedGrows(a, id, world, birth, t);
      }
    }
  }

  lemma PerformedGrows(a: Agent, id: RunId, world: World, birth: Timeline, t: Timeline)
    requires !Ended(a, world, t) && birth.diary <= t.diary && !NeedOf(a, birth.diary).Perform?
    ensures Performed(a, id, Grow(a, id, world, t).diary, Start, |birth.diary|)
         == Performed(a, id, t.diary, Start, |birth.diary|) + Grow(a, id, world, t).commits[|t.commits|..]
  {
    hide Replay, Performed;
    var need := NeedOf(a, t.diary);
    var e := NextEvent(id, world, t, need);
    PerformedExtends(a, id, t.diary, Start, e, |birth.diary|);
    assert need.Perform? ==> |t.diary| > |birth.diary| by {
      if |t.diary| == |birth.diary| {
        assert t.diary == birth.diary;
      }
    }
  }

  /** The event at seq `slot` is what the world has to say there. */
  predicate OfTheWorld(id: RunId, world: World, slot: nat, e: Event) {
    match e
    case LlmCalled(prompt, response) => world.model(prompt) == Some(response)
    case ToolIntent(key) => key == MakeKey(id, slot)
    case ToolCompleted(key, _) => slot >= 2 && key == MakeKey(id, slot - 1)
    case ApprovalRequested(_) => true
    case Approval(approved) => approved == world.human(slot)
    case PatchApplied(_) => false
  }

  /** The commit `j` has the result that the world gives after those before it. */
  ghost predicate WorldsCommit(id: RunId, world: World, commits: seq<Commit>, j: nat)
    requires j < |commits|
  {
    commits[j].run == id && world.effect(commits[j].fn, commits[..j]) == Some(commits[j].result)
  }

  lemma GrowSays(a: Agent, id: RunId, world: World, t: Timeline)
    requires !Ended(a, world, t)
    ensures var u := Grow(a, id, world, t);
      && t.diary <= u.diary && |u.diary| == |t.diary| + 1 && OfTheWorld(id, world, |u.diary|, u.diary[|t.diary|])
      && (u.commits == t.commits || (u.commits == t.commits + [u.commits[|t.commits|]]
                                     && WorldsCommit(id, world, u.commits, |t.commits|)))
  {
    hide Replay, MakeKey;
    NeedsAtTheEnd(a, t.diary, Start);
  }

  /** Since its birth an uninterrupted life consists of what the world says, in its place: the
      model's answers, the humans' decisions, the results of the effects, and its own keys. */
  lemma {:induction false} GrownSays(a: Agent, id: RunId, world: World, birth: Timeline, n: nat)
    ensures var t := Grown(a, id, world, birth, n);
      && birth.diary <= t.diary && birth.commits <= t.commits
      && (forall i :: |birth.diary| <= i < |t.diary| ==> OfTheWorld(id, world, i + 1, t.diary[i]))
      && (forall j :: |birth.commits| <= j < |t.commits| ==> WorldsCommit(id, world, t.commits, j))
  {
    hide Replay, Grow, OfTheWorld, NextEvent;
    if n > 0 {
      GrownSays(a, id, world, birth, n - 1);
      var t := Grown(a, id, world, birth, n - 1);
      if Ended(a, world, t) {
        EndedStays(a, id, world, birth, n - 1, n);
      } else {
        GrowSays(a, id, world, t);
        var u := Grow(a, id, world, t);
        forall j | |birth.commits| <= j < |u.commits| ensures WorldsCommit(id, world, u.commits, j) {
          if j < |t.commits| {
            assert WorldsCommit(id, world, t.commits, j) && u.commits[..j] == t.commits[..j];
          }
        }
      }
    }
  }
}

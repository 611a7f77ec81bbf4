/** What replay promises: appending resumes, traces stay traces, and a diary can be
    cut and patched exactly at the end of an operation. */
module Traces {
  import opened Diary
  import opened Engine

  /** From a position at the end of the history nothing can diverge. */
  lemma {:induction false} TailNeverDiverges(a: Agent, h: seq<Event>, w: Walk)
    requires w.cursor == |h|
    ensures !Replay(a, h, w).need.Diverge?
    ensures Replay(a, h, w).at.cursor == |h|
    decreases if |w.obs| < a.bound then a.bound - |w.obs| else 0
  {
    var t := AgentTurn(a, h, w);
    if t.Go? {
      TailNeverDiverges(a, h, t.next);
    }
  }

  /** A life halts for something to be written, or for a human, only at the very end
      of its diary; a half-open operation is the diary's last event. */
  lemma {:induction false} NeedsAtTheEnd(a: Agent, h: seq<Event>, w: Walk)
    requires w.cursor <= |h|
    ensures var r := Replay(a, h, w);
      && w.cursor <= r.at.cursor <= |h|
      && (Writes(r.need) || r.need.Await? ==> r.at.cursor == |h|)
      && (r.need.Perform? ==> |h| > w.cursor && h[|h| - 1].ToolIntent?)
      && (r.need.Await? ==> |h| > w.cursor && h[|h| - 1] == ApprovalRequested(r.need.question))
    decreases if |w.obs| < a.bound then a.bound - |w.obs| else 0
  {
    var t := AgentTurn(a, h, w);
    if t.Go? {
      NeedsAtTheEnd(a, h, t.next);
    }
  }

  lemma {:induction false} PendingPrefix(h: seq<Event>, e: Event, c: nat, config: Config)
    requires !e.PatchApplied?
    ensures c <= |h| ==> Pending(h + [e], c, config) == Pending(h, c, config)
    decreases |h| - c
  {
    var h' := h + [e];
    assert c == |h| ==> h'[c] == e;
    if c < |h| && h[c].PatchApplied? {
      assert h'[c] == h[c];
      PendingPrefix(h, e, c + 1, config + h[c].patch);
    }
  }

  /** A turn that the history answers is not changed by what is appended later. */
  lemma TurnKept(a: Agent, h: seq<Event>, w: Walk, e: Event)
    requires w.cursor <= |h| && !e.PatchApplied?
    requires AgentTurn(a, h, w).Go?
    ensures AgentTurn(a, h + [e], w) == AgentTurn(a, h, w)
  {
    PendingPrefix(h, e, w.cursor, w.config);
  }

  lemma TurnAnswered(h: seq<Event>, w: Walk, op: Op, e: Event)
    requires w.cursor <= |h|
    requires OpTurn(h, w, op).Stop? && Answers(OpTurn(h, w, op).halt.need, e)
    ensures OpTurn(h + [e], w, op) == Answered(OpTurn(h, w, op).halt, e)
  {
    PendingPrefix(h, e, w.cursor, w.config);
    assert (h + [e])[|h|] == e;
    assert forall i :: 0 <= i < |h| ==> (h + [e])[i] == h[i];
  }

  /** Replaying a diary to which the awaited event was appended comes to exactly the
      point where the life that appended it stands. */
  lemma {:induction false} Resume(a: Agent, h: seq<Event>, w: Walk, e: Event)
    requires w.cursor <= |h|
    requires Answers(Replay(a, h, w).need, e)
    ensures Replay(a, h + [e], w) == Advance(a, h, Replay(a, h, w), e)
    decreases if |w.obs| < a.bound then a.bound - |w.obs| else 0
  {
    var t := AgentTurn(a, h, w);
    if t.Go? {
      TurnKept(a, h, w, e);
      Resume(a, h, t.next, e);
    } else {
      TurnAnswered(h, w, a.next(w.obs), e);
    }
  }

  lemma TraceExtends(a: Agent, h: seq<Event>, e: Event)
    requires Trace(a, h) && Answers(Replay(a, h, Start).need, e)
    ensures Trace(a, h + [e])
    ensures Replay(a, h + [e], Start).at.cursor == |h| + 1
  {
    NeedsAtTheEnd(a, h, Start);
    Resume(a, h, Start, e);
    var t := Answered(Replay(a, h, Start), e);
    if t.Go? {
      TailNeverDiverges(a, h + [e], t.next);
    }
  }

  lemma EmptyTrace(a: Agent)
    ensures Trace(a, [])
  {
    TailNeverDiverges(a, [], Start);
  }

  // ----- cutting a diary at k and patching it -----

  function Cut(h: seq<Event>, k: nat, patch: Config): seq<Event>
    requires k <= |h|
  {
    h[..k] + [PatchApplied(patch)]
  }

  predicate HalfOpen(e: Event) {
    e.ToolIntent? || e.ApprovalRequested?
  }

  lemma {:induction false} PendingCut(h: seq<Event>, k: nat, patch: Config, c: nat, config: Config)
    requires c <= k <= |h|
    ensures var r := Pending(h, c, config);
      if r.0 < k then Pending(Cut(h, k, patch), c, config) == r
      else Pending(Cut(h, k, patch), c, config).0 == k + 1
    decreases k - c
  {
    var g := Cut(h, k, patch);
    assert forall i :: 0 <= i < k ==> g[i] == h[i];
    if c < k && h[c].PatchApplied? {
      PendingCut(h, k, patch, c + 1, config + h[c].patch);
    } else if c == k {
      assert g[k] == PatchApplied(patch);
    }
  }

  /** What a turn at `w` on a diary `g`, cut at k and patched, may come to. */
  ghost predicate CutTurn(h: seq<Event>, g: seq<Event>, k: nat, w: Walk, op: Op)
    requires w.cursor <= k && 1 <= k <= |h|
  {
    match OpTurn(g, w, op)
    case Go(next) =>
      || (next.cursor == k + 1 && (w.cursor < k ==> !HalfOpen(h[k - 1])))
      || (next.cursor <= k && OpTurn(h, w, op) == Go(next))
    case Stop(halt) =>
      match halt.need
      case Diverge(slot) => OpTurn(h, w, op) == Stop(halt) || (slot == k + 1 && HalfOpen(h[k - 1]))
      case Finish(_) => OpTurn(h, w, op) == Stop(halt) && halt.at == w
      case Fail => OpTurn(h, w, op) == Stop(halt) && halt.at == w
      case _ => halt.at.cursor == k + 1 && (w.cursor < k ==> !HalfOpen(h[k - 1]))
  }

  /** A turn whose operation starts before the cut. */
  lemma TurnBeforeCut(h: seq<Event>, g: seq<Event>, k: nat, w: Walk, op: Op)
    requires w.cursor <= k && 1 <= k <= |h| && |g| == k + 1
    requires forall i :: 0 <= i < k ==> g[i] == h[i]
    requires g[k].PatchApplied?
    requires Pending(g, w.cursor, w.config) == Pending(h, w.cursor, w.config)
    requires Pending(h, w.cursor, w.config).0 < k
    ensures CutTurn(h, g, k, w, op)
  {
    var c := Pending(h, w.cursor, w.config).0;
    assert g[c] == h[c];
    assert c + 1 < k ==> g[c + 1] == h[c + 1];
  }

  /** A turn that reaches the cut before its operation starts. */
  lemma TurnAtCut(h: seq<Event>, g: seq<Event>, k: nat, w: Walk, op: Op)
    requires w.cursor <= k && 1 <= k <= |h| && |g| == k + 1
    requires Pending(g, w.cursor, w.config).0 == k + 1
    requires Pending(h, w.cursor, w.config).0 >= k
    ensures CutTurn(h, g, k, w, op)
  {
    assert w.cursor < k ==> h[k - 1].PatchApplied?;
  }

  lemma TurnOnCut(h: seq<Event>, k: nat, patch: Config, w: Walk, op: Op)
    requires w.cursor <= k && 1 <= k <= |h|
    ensures CutTurn(h, Cut(h, k, patch), k, w, op)
  {
    PendingCut(h, k, patch, w.cursor, w.config);
    if Pending(h, w.cursor, w.config).0 < k {
      TurnBeforeCut(h, Cut(h, k, patch), k, w, op);
    } else {
      TurnAtCut(h, Cut(h, k, patch), k, w, op);
    }
  }

  /** A diary cut after a complete operation replays through the patch. */
  lemma {:induction false} CleanCut(a: Agent, h: seq<Event>, k: nat, patch: Config, w: Walk)
    requires w.cursor <= k && 1 <= k <= |h| && !HalfOpen(h[k - 1])
    requires !Replay(a, h, w).need.Diverge? && AllPatches(h, Replay(a, h, w).at.cursor)
    ensures var g, r := Cut(h, k, patch), Replay(a, Cut(h, k, patch), w);
      !r.need.Diverge? && AllPatches(g, r.at.cursor)
    decreases if |w.obs| < a.bound then a.bound - |w.obs| else 0
  {
    var g := Cut(h, k, patch);
    TurnOnCut(h, k, patch, w, a.next(w.obs));
    var u := AgentTurn(a, g, w);
    if u.Go? {
      if u.next.cursor == k + 1 {
        TailNeverDiverges(a, g, u.next);
      } else {
        CleanCut(a, h, k, patch, u.next);
      }
    }
  }

  /** A diary cut inside an operation makes the life that reaches the cut diverge there. */
  lemma {:induction false} SplitCut(a: Agent, h: seq<Event>, k: nat, patch: Config, w: Walk)
    requires w.cursor < k <= |h| && HalfOpen(h[k - 1])
    requires !Replay(a, h, w).need.Diverge? && AllPatches(h, Replay(a, h, w).at.cursor)
    ensures Replay(a, Cut(h, k, patch), w).need == Diverge(k + 1)
    decreases if |w.obs| < a.bound then a.bound - |w.obs| else 0
  {
    TurnOnCut(h, k, patch, w, a.next(w.obs));
    var t, u := AgentTurn(a, h, w), AgentTurn(a, Cut(h, k, patch), w);
    if u.Go? {
      assert u.next.cursor < k by {
        if u.next.cursor == k { AtHalfOpen(h, k, w, a.next(w.obs)); }
      }
      SplitCut(a, h, k, patch, u.next);
    }
  }

  /** No answered turn ends right after the first half of an operation. */
  lemma AtHalfOpen(h: seq<Event>, k: nat, w: Walk, op: Op)
    requires w.cursor < k <= |h| && HalfOpen(h[k - 1])
    requires OpTurn(h, w, op).Go?
    ensures OpTurn(h, w, op).next.cursor != k
  {
  }

  /** The fork guard is exact: a trace of the agent, cut at k and patched, is again a
      trace exactly when the cut is not inside an operation; a cut inside one makes
      every life of the child raise a divergence right after the cut. */
  lemma ForkGuardExact(a: Agent, h: seq<Event>, k: nat, patch: Config)
    requires Trace(a, h) && 1 <= k <= |h|
    ensures Trace(a, Cut(h, k, patch)) <==> !HalfOpen(h[k - 1])
    ensures HalfOpen(h[k - 1]) ==> Replay(a, Cut(h, k, patch), Start).need == Diverge(k + 1)
  {
    if HalfOpen(h[k - 1]) {
      SplitCut(a, h, k, patch, Start);
    } else {
      CleanCut(a, h, k, patch, Start);
    }
  }

  // ----- the shape of a trace -----

  /** `h` parses, from `c`, as complete operations, with at most one half-open one at the end. */
  predicate WellFormed(h: seq<Event>, c: nat)
    decreases |h| - c
  {
    if c >= |h| then true
    else match h[c]
      case LlmCalled(_, _) => WellFormed(h, c + 1)
      case PatchApplied(_) => WellFormed(h, c + 1)
      case ToolIntent(_) => c + 1 == |h| || (h[c + 1].ToolCompleted? && WellFormed(h, c + 2))
      case ApprovalRequested(_) => c + 1 == |h| || (h[c + 1].Approval? && WellFormed(h, c + 2))
      case _ => false
  }

  lemma {:induction false} PatchesParse(h: seq<Event>, c: nat, d: nat)
    requires c <= d <= |h| && forall i :: c <= i < d ==> h[i].PatchApplied?
    ensures WellFormed(h, c) <==> WellFormed(h, d)
    decreases d - c
  {
    if c < d {
      PatchesParse(h, c + 1, d);
    }
  }

  lemma TurnParses(h: seq<Event>, w: Walk, op: Op)
    requires w.cursor <= |h| && !Ends(op)
    ensures var t := OpTurn(h, w, op);
      && (t.Go? ==> t.next.cursor <= |h| && (WellFormed(h, t.next.cursor) ==> WellFormed(h, w.cursor)))
      && (t.Stop? && !t.halt.need.Diverge? ==> WellFormed(h, w.cursor))
  {
    PatchesParse(h, w.cursor, Pending(h, w.cursor, w.config).0);
  }

  lemma {:induction false} WalkParses(a: Agent, h: seq<Event>, w: Walk)
    requires w.cursor <= |h|
    requires !Replay(a, h, w).need.Diverge? && AllPatches(h, Replay(a, h, w).at.cursor)
    ensures WellFormed(h, w.cursor)
    decreases if |w.obs| < a.bound then a.bound - |w.obs| else 0
  {
    var t := AgentTurn(a, h, w);
    if Ends(a.next(w.obs)) {
      PatchesParse(h, w.cursor, |h|);
    } else {
      TurnParses(h, w, a.next(w.obs));
      if t.Go? {
        WalkParses(a, h, t.next);
      }
    }
  }

  /** In a diary that parses, a completion follows its intent. */
  lemma {:induction false} CompletionFollowsIntent(h: seq<Event>, c: nat, i: nat)
    requires WellFormed(h, c) && c <= i < |h| && h[i].ToolCompleted?
    ensures c < i && h[i - 1].ToolIntent?
    decreases |h| - c
  {
    if i > c {
      var step := if HalfOpen(h[c]) then 2 else 1;
      if i >= c + step {
        CompletionFollowsIntent(h, c + step, i);
      }
    }
  }

  lemma TraceParses(a: Agent, h: seq<Event>)
    requires Trace(a, h)
    ensures WellFormed(h, 0)
  {
    WalkParses(a, h, Start);
  }

  /** A trace that ends on a question is a life waiting for the answer to that question. */
  lemma {:induction false} EndsOnQuestion(a: Agent, h: seq<Event>, w: Walk)
    requires w.cursor < |h| && h[|h| - 1].ApprovalRequested?
    requires !Replay(a, h, w).need.Diverge? && AllPatches(h, Replay(a, h, w).at.cursor)
    ensures Replay(a, h, w).need == Await(h[|h| - 1].question)
    decreases if |w.obs| < a.bound then a.bound - |w.obs| else 0
  {
    var t := AgentTurn(a, h, w);
    if t.Go? {
      EndsOnQuestion(a, h, t.next);
    }
  }

  // ----- config is a fold -----

  /** The last-wins fold of all the patches in `h`. */
  function Patched(h: seq<Event>): Config {
    if h == [] then map[]
    else
      var rest, last := Patched(h[..|h| - 1]), h[|h| - 1];
      if last.PatchApplied? then rest + last.patch else rest
  }

  predicate Sets(h: seq<Event>, i: nat, key: string) {
    i < |h| && h[i].PatchApplied? && key in h[i].patch
  }

  /** A key has the value of the last patch that sets it, or none if no patch does. */
  lemma {:induction false} LastPatchWins(h: seq<Event>, key: string, i: nat)
    requires Sets(h, i, key) && forall j :: i < j < |h| ==> !Sets(h, j, key)
    ensures key in Patched(h) && Patched(h)[key] == h[i].patch[key]
  {
    var g := h[..|h| - 1];
    if i < |h| - 1 {
      assert Sets(g, i, key);
      forall j | i < j < |g| ensures !Sets(g, j, key) {
        assert !Sets(h, j, key);
      }
      LastPatchWins(g, key, i);
      assert !Sets(h, |h| - 1, key);
    }
  }

  lemma {:induction false} PatchedOnlyBySetting(h: seq<Event>, key: string)
    ensures key in Patched(h) <==> exists i :: Sets(h, i, key)
  {
    if h != [] {
      var g, last := h[..|h| - 1], |h| - 1;
      PatchedOnlyBySetting(g, key);
      if Sets(h, last, key) {
        assert key in Patched(h);
      } else {
        assert forall i :: Sets(g, i, key) <==> Sets(h, i, key);
      }
    } else {
      assert forall i :: !Sets(h, i, key);
    }
  }

  lemma {:induction false} PendingFolds(h: seq<Event>, c: nat)
    requires c <= |h|
    ensures var r := Pending(h, c, Patched(h[..c])); r.1 == Patched(h[..r.0])
    decreases |h| - c
  {
    if c < |h| && h[c].PatchApplied? {
      assert h[..c + 1][..c] == h[..c];
      PendingFolds(h, c + 1);
    }
  }

  lemma PatchedSkips(h: seq<Event>, c: nat, d: nat)
    requires c <= d <= c + 2 && d <= |h| && forall i :: c <= i < d ==> !h[i].PatchApplied?
    ensures Patched(h[..d]) == Patched(h[..c])
  {
    if c < d {
      assert h[..d][..d - 1] == h[..d - 1];
      if c < d - 1 {
        assert h[..d - 1][..d - 2] == h[..d - 2];
      }
    }
  }

  lemma TurnFolds(h: seq<Event>, w: Walk, op: Op)
    requires w.cursor <= |h| && w.config == Patched(h[..w.cursor])
    ensures var t := OpTurn(h, w, op);
      var at := if t.Go? then t.next else t.halt.at;
      at.cursor <= |h| && at.config == Patched(h[..at.cursor])
  {
    PendingFolds(h, w.cursor);
    var c := Pending(h, w.cursor, w.config).0;
    var t := OpTurn(h, w, op);
    var at := if t.Go? then t.next else t.halt.at;
    if at.cursor > c {
      PatchedSkips(h, c, at.cursor);
    }
  }

  /** Whatever life reads it, and through however many forks it came about, the
      config at a position is the fold of the patches the cursor has passed. */
  lemma {:induction false} ConfigIsFold(a: Agent, h: seq<Event>, w: Walk)
    requires w.cursor <= |h| && w.config == Patched(h[..w.cursor])
    ensures var at := Replay(a, h, w).at;
      at.cursor <= |h| && at.config == Patched(h[..at.cursor])
    decreases if |w.obs| < a.bound then a.bound - |w.obs| else 0
  {
    TurnFolds(h, w, a.next(w.obs));
    var t := AgentTurn(a, h, w);
    if t.Go? {
      ConfigIsFold(a, h, t.next);
    }
  }

  // ----- the effects a diary records -----

  predicate RecordsEffect(h: seq<Event>, slot: nat) {
    1 <= slot < |h| && h[slot - 1].ToolIntent? && h[slot].ToolCompleted?
  }

  lemma {:induction false} TailPerformsNothing(a: Agent, id: RunId, h: seq<Event>, w: Walk, floor: nat)
    requires w.cursor == |h|
    ensures Performed(a, id, h, w, floor) == []
    decreases if |w.obs| < a.bound then a.bound - |w.obs| else 0
  {
    var t := AgentTurn(a, h, w);
    if t.Go? {
      TailPerformsNothing(a, id, h, t.next, floor);
    }
  }

  /** The effect that the event `e` completes when it answers the need of a life on `h`. */
  function Completes(id: RunId, h: seq<Event>, need: Need, e: Event, floor: nat): seq<Commit> {
    if need.Perform? && e.ToolCompleted? && |h| > floor then [Commit(id, |h|, need.fn, e.result)] else []
  }

  lemma PerformedAtEnd(a: Agent, id: RunId, h: seq<Event>, w: Walk, e: Event, floor: nat)
    requires w.cursor <= |h|
    requires AgentTurn(a, h, w).Stop? && Answers(AgentTurn(a, h, w).halt.need, e)
    ensures Performed(a, id, h + [e], w, floor) == Completes(id, h, AgentTurn(a, h, w).halt.need, e, floor)
  {
    var g, halt := h + [e], AgentTurn(a, h, w).halt;
    TurnAnswered(h, w, a.next(w.obs), e);
    assert g[|h|] == e;
    assert halt.at.cursor == |h| by {
      NeedsAtTheEnd(a, h, w);
    }
    var u := AgentTurn(a, g, w);
    if u.Go? {
      TailPerformsNothing(a, id, g, u.next, floor);
      assert Performed(a, id, g, w, floor) == PerformedBy(a.next(w.obs), id, g, u.next, floor);
    }
  }

  lemma {:induction false} PerformedExtends(a: Agent, id: RunId, h: seq<Event>, w: Walk, e: Event, floor: nat)
    requires w.cursor <= |h|
    requires Answers(Replay(a, h, w).need, e)
    ensures Performed(a, id, h + [e], w, floor)
         == Performed(a, id, h, w, floor) + Completes(id, h, Replay(a, h, w).need, e, floor)
    decreases if |w.obs| < a.bound then a.bound - |w.obs| else 0
  {
    var t := AgentTurn(a, h, w);
    if t.Go? {
      TurnKept(a, h, w, e);
      PerformedExtends(a, id, h, t.next, e, floor);
      TurnPerforms(a.next(w.obs), id, h, w, e, floor);
    } else {
      PerformedAtEnd(a, id, h, w, e, floor);
    }
  }

  lemma TurnPerforms(op: Op, id: RunId, h: seq<Event>, w: Walk, e: Event, floor: nat)
    requires w.cursor <= |h| && OpTurn(h, w, op).Go?
    ensures var next := OpTurn(h, w, op).next;
      next.cursor <= |h| && PerformedBy(op, id, h + [e], next, floor) == PerformedBy(op, id, h, next, floor)
  {
    assert forall i :: 0 <= i < |h| ==> (h + [e])[i] == h[i];
  }

  /** Each commit sits at a TOOL_INTENT beyond `from` and the floor, with the result
      that its TOOL_COMPLETED recorded. */
  ghost predicate Faithful(id: RunId, h: seq<Event>, ps: seq<Commit>, from: nat, floor: nat) {
    forall p :: p in ps ==>
      p.run == id && from < p.slot && floor < p.slot && RecordsEffect(h, p.slot) && p.result == h[p.slot].result
  }

  ghost predicate Increasing(ps: seq<Commit>) {
    forall i, j :: 0 <= i < j < |ps| ==> ps[i].slot < ps[j].slot
  }

  lemma JoinIncreasing(first: seq<Commit>, rest: seq<Commit>, slot: nat)
    requires |first| <= 1 && Increasing(rest)
    requires forall p :: p in first ==> p.slot <= slot
    requires forall p :: p in rest ==> slot < p.slot
    ensures Increasing(first + rest)
  {
    var ps := first + rest;
    forall i, j | 0 <= i < j < |ps| ensures ps[i].slot < ps[j].slot {
      assert ps[j] == rest[j - |first|] && ps[j] in rest;
      if i < |first| {
        assert ps[i] in first;
      }
    }
  }

  lemma TurnPerformsOwn(op: Op, id: RunId, h: seq<Event>, w: Walk, floor: nat)
    requires w.cursor <= |h| && OpTurn(h, w, op).Go?
    ensures var next := OpTurn(h, w, op).next;
      && !Ends(op) && |next.obs| == |w.obs| + 1
      && w.cursor <= next.cursor <= |h|
      && |PerformedBy(op, id, h, next, floor)| <= 1
      && Faithful(id, h, PerformedBy(op, id, h, next, floor), w.cursor, floor)
      && forall p :: p in PerformedBy(op, id, h, next, floor) ==> p.slot <= next.cursor
  {
  }

  /** The performed effects are listed in diary order, each at its own TOOL_INTENT. */
  lemma {:induction false} PerformedSound(a: Agent, id: RunId, h: seq<Event>, w: Walk, floor: nat)
    requires w.cursor <= |h|
    ensures Faithful(id, h, Performed(a, id, h, w, floor), w.cursor, floor)
    ensures Increasing(Performed(a, id, h, w, floor))
    decreases if |w.obs| < a.bound then a.bound - |w.obs| else 0
  {
    hide OpTurn, PerformedBy;
    var t, op := AgentTurn(a, h, w), a.next(w.obs);
    if t.Go? {
      TurnPerformsOwn(op, id, h, w, floor);
      PerformedSound(a, id, h, t.next, floor);
      JoinIncreasing(PerformedBy(op, id, h, t.next, floor), Performed(a, id, h, t.next, floor), t.next.cursor);
    }
  }

  /** Every effect a trace records beyond the floor is among the performed ones. */
  lemma {:induction false} PerformedComplete(a: Agent, id: RunId, h: seq<Event>, w: Walk, floor: nat, slot: nat)
    returns (i: nat)
    requires w.cursor < slot && floor < slot && RecordsEffect(h, slot)
    requires !Replay(a, h, w).need.Diverge? && AllPatches(h, Replay(a, h, w).at.cursor)
    ensures i < |Performed(a, id, h, w, floor)| && Performed(a, id, h, w, floor)[i].slot == slot
    decreases if |w.obs| < a.bound then a.bound - |w.obs| else 0
  {
    var t := AgentTurn(a, h, w);
    var c := Pending(h, w.cursor, w.config).0;
    assert t.Go? && t.next.cursor != slot;
    var first := PerformedBy(a.next(w.obs), id, h, t.next, floor);
    if t.next.cursor == slot + 1 {
      i := 0;
    } else {
      var j := PerformedComplete(a, id, h, t.next, floor, slot);
      i := |first| + j;
    }
  }

  /** A fresh fork has performed nothing of its own. */
  lemma ForkPerformedNothing(a: Agent, id: RunId, h: seq<Event>)
    ensures Performed(a, id, h, Start, |h|) == []
  {
    var ps := Performed(a, id, h, Start, |h|);
    assert ps != [] ==> ps[0] in ps;
    PerformedSound(a, id, h, Start, |h|);
  }

  // ----- divergence is loud -----

  /** The life that stands at `w` comes to stand at `v` without leaving the diary. */
  ghost predicate Reaches(a: Agent, h: seq<Event>, w: Walk, v: Walk)
    decreases if |w.obs| < a.bound then a.bound - |w.obs| else 0
  {
    w == v || (AgentTurn(a, h, w).Go? && Reaches(a, h, AgentTurn(a, h, w).next, v))
  }

  predicate Opens(op: Op, e: Event) {
    match op
    case Llm(prompt) => e.LlmCalled? && e.prompt == prompt
    case Effect(_) => e.ToolIntent?
    case Ask(question) => e == ApprovalRequested(question)
    case _ => false
  }

  predicate Closes(op: Op, e: Event) {
    (op.Effect? && e.ToolCompleted?) || (op.Ask? && e.Approval?)
  }

  /** The call `op`, replayed at `c`, is not the one that the diary has there: the event
      at `slot` differs from it in type, prompt or question. */
  predicate Mismatch(h: seq<Event>, c: nat, op: Op, slot: nat) {
    (op.Llm? || op.Effect? || op.Ask?) && c < |h| &&
    if Opens(op, h[c]) then
      !op.Llm? && c + 1 < |h| && !Closes(op, h[c + 1]) && slot == c + 2
    else slot == c + 1
  }

  /** Any code, changed or not, raises ReplayDivergenceError at `slot` exactly when its
      life comes to a call that differs from the diary there. */
  lemma {:induction false} DivergesExactlyOnMismatch(b: Agent, h: seq<Event>, w: Walk, slot: nat)
    ensures Replay(b, h, w).need == Diverge(slot) <==>
      exists v :: Reaches(b, h, w, v) && Mismatch(h, Pending(h, v.cursor, v.config).0, b.next(v.obs), slot)
    decreases if |w.obs| < b.bound then b.bound - |w.obs| else 0
  {
    var t := AgentTurn(b, h, w);
    if t.Go? {
      DivergesExactlyOnMismatch(b, h, t.next, slot);
      assert !Mismatch(h, Pending(h, w.cursor, w.config).0, b.next(w.obs), slot);
      assert forall v :: Reaches(b, h, t.next, v) ==> Reaches(b, h, w, v);
    } else {
      assert Reaches(b, h, w, w);
      assert forall v :: Reaches(b, h, w, v) ==> v == w;
    }
  }
}

/** What an agent is told, in terms of the diary alone: every answer it was given stands in the
    diary, in order, and every setting is the last one that a patch made. */
module Hearing {
  import opened Diary
  import opened Engine
  import opened Traces

  /** What an event has to tell the agent, if anything. */
  function Says(e: Event): seq<Obs> {
    match e
    case LlmCalled(_, response) => [Answer(response)]
    case ToolCompleted(_, result) => [Outcome(result)]
    case Approval(approved) => [Decision(approved)]
    case _ => []
  }

  /** What a diary has to tell its agent, in order: each model answer, result and decision. */
  function Told(h: seq<Event>): seq<Obs> {
    if h == [] then [] else Told(h[..|h| - 1]) + Says(h[|h| - 1])
  }

  /** The answers without the settings, which no event records. */
  function Spoken(obs: seq<Obs>): seq<Obs> {
    if obs == [] then []
    else
      var before, last := Spoken(obs[..|obs| - 1]), obs[|obs| - 1];
      if last.Setting? then before else before + [last]
  }

  /** A position that has heard what the diary says up to its cursor, no more and no less. */
  ghost predicate Follows(h: seq<Event>, w: Walk) {
    && w.cursor <= |h|
    && w.config == Patched(h[..w.cursor])
    && Spoken(w.obs) == Told(h[..w.cursor])
  }

  /** What the last patch in `h` that sets the key makes of it, or the default if none does. */
  ghost predicate LastSetting(h: seq<Event>, key: string, default: Value, value: Value) {
    || ((forall i: nat :: !Sets(h, i, key)) && value == default)
    || exists i: nat :: Sets(h, i, key) && (forall j :: i < j < |h| ==> !Sets(h, j, key)) && value == h[i].patch[key]
  }

  /** The answer `o` to the call `op` is what the diary records just before `c`. */
  ghost predicate Recorded(h: seq<Event>, op: Op, c: nat, o: Obs) {
    c <= |h| &&
    match op
    case Llm(prompt) => o.Answer? && c >= 1 && h[c - 1] == LlmCalled(prompt, o.text)
    case Effect(_) =>
      o.Outcome? && c >= 2 && h[c - 2].ToolIntent? && h[c - 1].ToolCompleted? && o.result == h[c - 1].result
    case Ask(question) =>
      o.Decision? && c >= 2 && h[c - 2] == ApprovalRequested(question) && h[c - 1] == Approval(o.approved)
    case Read(key, default) =>
      o.Setting? && (c < |h| ==> !h[c].PatchApplied?) && LastSetting(h[..c], key, default, o.value)
    case _ => false
  }

  // ----- one turn -----

  /** What the patched config holds of a key is what the last patch made of it. */
  lemma ConfigSetting(h: seq<Event>, key: string, default: Value)
    ensures LastSetting(h, key, default, if key in Patched(h) then Patched(h)[key] else default)
  {
    PatchedOnlyBySetting(h, key);
    if key in Patched(h) {
      var k :| Sets(h, k, key);
      var i := LastSetter(h, key, k);
      LastPatchWins(h, key, i);
    }
  }

  lemma {:induction false} LastSetter(h: seq<Event>, key: string, k: nat) returns (i: nat)
    requires Sets(h, k, key)
    ensures Sets(h, i, key) && forall j :: i < j < |h| ==> !Sets(h, j, key)
    decreases |h| - k
  {
    i := k;
    if j :| k < j < |h| && Sets(h, j, key) {
      i := LastSetter(h, key, j);
    }
  }

  /** Patches, intents and questions tell the agent nothing. */
  predicate Silent(e: Event) {
    e.PatchApplied? || e.ToolIntent? || e.ApprovalRequested?
  }

  lemma {:induction false} SilenceTells(h: seq<Event>, c: nat, d: nat)
    requires c <= d <= |h| && forall i :: c <= i < d ==> Silent(h[i])
    ensures Told(h[..d]) == Told(h[..c])
    decreases d - c
  {
    if c < d {
      assert h[..d][..d - 1] == h[..d - 1];
      SilenceTells(h, c, d - 1);
    }
  }

  lemma ToldMore(h: seq<Event>, c: nat)
    requires c < |h|
    ensures Told(h[..c + 1]) == Told(h[..c]) + Says(h[c])
  {
    assert h[..c + 1][..c] == h[..c];
  }

  lemma SpokenMore(obs: seq<Obs>, o: Obs)
    ensures Spoken(obs + [o]) == if o.Setting? then Spoken(obs) else Spoken(obs) + [o]
  {
    assert (obs + [o])[..|obs|] == obs;
  }

  /** The setting that a turn gives. */
  lemma ReadTells(h: seq<Event>, w: Walk, op: Op)
    requires Follows(h, w) && op.Read?
    ensures OpTurn(h, w, op).Go? && Follows(h, OpTurn(h, w, op).next)
    ensures var next := OpTurn(h, w, op).next;
      |next.obs| > 0 && next.obs == w.obs + [Latest(next)] && Recorded(h, op, next.cursor, Latest(next))
  {
    hide Told, Spoken, Patched, LastSetting;
    TurnFolds(h, w, op);
    var next := OpTurn(h, w, op).next;
    SilenceTells(h, w.cursor, next.cursor);
    SpokenMore(w.obs, Latest(next));
    ConfigSetting(h[..next.cursor], op.key, op.default);
  }

  /** The answer that a turn gives, and where the diary has it. */
  lemma CallAnswers(h: seq<Event>, w: Walk, op: Op)
    requires w.cursor <= |h| && OpTurn(h, w, op).Go? && !op.Read?
    ensures var next, c := OpTurn(h, w, op).next, Pending(h, w.cursor, w.config).0;
      && c < next.cursor <= c + 2 && next.cursor <= |h|
      && |next.obs| > 0 && next.obs == w.obs + [Latest(next)] && Recorded(h, op, next.cursor, Latest(next))
      && Says(h[next.cursor - 1]) == [Latest(next)] && !Latest(next).Setting?
      && (next.cursor == c + 2 ==> Silent(h[c]))
  {
    hide LastSetting, Follows;
  }

  lemma CallTells(h: seq<Event>, w: Walk, op: Op)
    requires Follows(h, w) && OpTurn(h, w, op).Go? && !op.Read?
    ensures Follows(h, OpTurn(h, w, op).next)
  {
    hide Told, Spoken, Patched, Recorded, OpTurn;
    TurnFolds(h, w, op);
    CallAnswers(h, w, op);
    var next, c := OpTurn(h, w, op).next, Pending(h, w.cursor, w.config).0;
    SilenceTells(h, w.cursor, c);
    SilenceTells(h, c, next.cursor - 1);
    SpokenMore(w.obs, Latest(next));
    ToldMore(h, next.cursor - 1);
  }

  lemma StopTells(h: seq<Event>, w: Walk, op: Op)
    requires Follows(h, w) && OpTurn(h, w, op).Stop?
    ensures Follows(h, OpTurn(h, w, op).halt.at)
  {
    hide Told, Spoken, Patched;
    TurnFolds(h, w, op);
    SilenceTells(h, w.cursor, OpTurn(h, w, op).halt.at.cursor);
  }

  /** A turn brings a life that follows the diary to where it still does; and when it answers,
      it answers what the diary has recorded of that call. */
  lemma TurnTells(h: seq<Event>, w: Walk, op: Op)
    requires Follows(h, w)
    ensures var t := OpTurn(h, w, op);
      && Follows(h, if t.Go? then t.next else t.halt.at)
      && (t.Go? ==> |t.next.obs| > 0 && t.next.obs == w.obs + [Latest(t.next)]
                    && Recorded(h, op, t.next.cursor, Latest(t.next)))
  {
    hide Follows, Recorded, OpTurn;
    if op.Read? {
      ReadTells(h, w, op);
    } else if OpTurn(h, w, op).Go? {
      CallTells(h, w, op);
      assert w.cursor <= |h| by { FollowsWithin(h, w); }
      CallAnswers(h, w, op);
    } else {
      StopTells(h, w, op);
    }
  }

  lemma FollowsWithin(h: seq<Event>, w: Walk)
    requires Follows(h, w)
    ensures w.cursor <= |h|
  {
  }

  // ----- a whole life -----

  /** The i-th answer was a recorded answer to the i-th call, at the place in the diary that
      what was said before leads to. */
  ghost predicate Heard(a: Agent, h: seq<Event>, obs: seq<Obs>, i: nat)
    requires i < |obs|
  {
    exists c: nat :: Recorded(h, a.next(obs[..i]), c, obs[i]) && Told(h[..c]) == Spoken(obs[..i + 1])
  }

  ghost predicate AllHeard(a: Agent, h: seq<Event>, obs: seq<Obs>) {
    forall i :: 0 <= i < |obs| ==> Heard(a, h, obs, i)
  }

  lemma HearsMore(a: Agent, h: seq<Event>, w: Walk)
    requires Follows(h, w) && AllHeard(a, h, w.obs) && AgentTurn(a, h, w).Go?
    ensures AllHeard(a, h, AgentTurn(a, h, w).next.obs) && Follows(h, AgentTurn(a, h, w).next)
  {
    hide OpTurn, Recorded, Told, Spoken, Patched;
    var next, n := AgentTurn(a, h, w).next, |w.obs|;
    TurnTells(h, w, a.next(w.obs));
    forall i | 0 <= i < |next.obs| ensures Heard(a, h, next.obs, i) {
      assert next.obs[..n] == w.obs && next.obs[..n + 1] == next.obs;
      if i < n {
        assert next.obs[..i] == w.obs[..i] && next.obs[..i + 1] == w.obs[..i + 1];
        assert Heard(a, h, w.obs, i);
      }
    }
  }

  /** Whatever agent replays it, and however often: the answers it was given, settings aside,
      are precisely those that the diary holds up to the cursor, in order; each is the answer
      to the call that the agent then made; and each setting is the last that a patch made. */
  lemma {:induction false} AnswersAreTheDiary(a: Agent, h: seq<Event>, w: Walk)
    requires Follows(h, w) && AllHeard(a, h, w.obs)
    ensures var at := Replay(a, h, w).at;
      && Follows(h, at) && AllHeard(a, h, at.obs) && w.obs <= at.obs
    decreases if |w.obs| < a.bound then a.bound - |w.obs| else 0
  {
    hide OpTurn, Follows, AllHeard;
    LifeTurn(a, h, w);
    var t := AgentTurn(a, h, w);
    if t.Go? {
      HearsMore(a, h, w);
      AnswersAreTheDiary(a, h, t.next);
    }
  }

  lemma LifeTurn(a: Agent, h: seq<Event>, w: Walk)
    requires Follows(h, w)
    ensures var t := AgentTurn(a, h, w);
      && (t.Stop? ==> Follows(h, t.halt.at) && t.halt.at.obs == w.obs)
      && (t.Go? ==> w.obs <= t.next.obs && |t.next.obs| == |w.obs| + 1 && !Ends(a.next(w.obs)))
  {
    hide Follows;
    TurnTells(h, w, a.next(w.obs));
  }

  /** What a life stops for is what its agent, told just that, calls next. */
  ghost predicate Wants(op: Op, need: Need) {
    match op
    case Llm(prompt) => need == Call(prompt) || need.Diverge?
    case Effect(fn) => need == Intend(fn) || need == Perform(fn) || need.Diverge?
    case Ask(question) => need == Request(question) || need == Await(question) || need.Diverge?
    case Read(_, _) => false
    case Done(output) => need == Finish(output)
    case Raise => need == Fail
  }

  lemma {:induction false} StopsForTheNextCall(a: Agent, h: seq<Event>, w: Walk)
    ensures Wants(a.next(Replay(a, h, w).at.obs), Replay(a, h, w).need)
    decreases if |w.obs| < a.bound then a.bound - |w.obs| else 0
  {
    var t := AgentTurn(a, h, w);
    if t.Go? {
      StopsForTheNextCall(a, h, t.next);
    }
  }

  /** The whole of what replay means: from its start, a life on any diary is told what the
      diary holds and comes to the call that its agent makes then. */
  lemma ReplayReadsTheDiary(a: Agent, h: seq<Event>)
    ensures var r := Replay(a, h, Start);
      && r.at.cursor <= |h| && Spoken(r.at.obs) == Told(h[..r.at.cursor])
      && (forall i :: 0 <= i < |r.at.obs| ==> Heard(a, h, r.at.obs, i))
      && Wants(a.next(r.at.obs), r.need)
  {
    AnswersAreTheDiary(a, h, Start);
    StopsForTheNextCall(a, h, Start);
  }
}

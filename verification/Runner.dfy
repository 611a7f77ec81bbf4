/** The agent's loop: one life, from a fresh Context to its end. */
module Runner {
  import opened Diary
  import opened Engine
  import opened Traces
  import opened Hearing
  import opened Timelines
  import opened Tables
  import opened Store
  import opened Databases
  import opened Models
  import opened Lives
  import opened Contexts

  method LiveOnce(a: Agent, ctx: Context) returns (fate: Fate)
    requires ctx.Valid() && ctx.Position() == Start
    modifies ctx, ctx.db, ctx.llm
    ensures ctx.Valid() && Lived(ctx.Env(), a, old(ctx.Snapshot()), ctx.Snapshot(), fate)
    ensures fate.Returned? ==> a.next(ctx.obs) == Done(fate.output)
    ensures fate.AgentRaised? ==> a.next(ctx.obs).Raise?
    ensures !fate.Stopped? ==> ctx.cursor <= |ctx.seen| && Spoken(ctx.obs) == Told(ctx.seen[..ctx.cursor])
    ensures !fate.Stopped? ==> AllHeard(a, ctx.seen, ctx.obs)
  {
    hide Lived, Unfolds, Grew, Replay, Stands, OpTurn, Fits, DiesAfter;
    hide Told, Spoken, AllHeard, Follows;
    ghost var first := ctx.Snapshot();
    ghost var n: nat := 0;
    var answers: seq<Obs> := [];
    Begins(ctx.Env(), a, first);
    while true
      invariant ctx.Valid() && answers == ctx.obs
      invariant Grew(ctx.Env(), a, first, ctx.Snapshot(), n) && Stands(a, ctx.seen, ctx.Position())
      invariant GoesOn(ctx.Env(), n, ctx.seen) && Follows(ctx.seen, ctx.Position())
      decreases if |answers| < a.bound then a.bound - |answers| else 0
    {
      var op := a.next(answers);
      ghost var s, w, t := ctx.Snapshot(), ctx.Position(), AgentTurn(a, ctx.seen, ctx.Position());
      TurnComes(a, ctx.seen, ctx.Position());
      CallCarries(ctx.seen, ctx.Position(), op);
      var r: Reply<Obs>;
      match op {
        case Done(output) =>
          Finishes(ctx.Env(), a, first, n, s, w);
          return Returned(output);
        case Raise =>
          Finishes(ctx.Env(), a, first, n, s, w);
          return AgentRaised;
        case Read(key, default) =>
          var value := ctx.Config(key, default);
          r := Got(Setting(value));
          ReadUnfolds(ctx.Env(), s, ctx.Position());
        case Llm(prompt) =>
          var reply := ctx.Llm(prompt);
          r := if reply.Got? then Got(Answer(reply.value)) else Raised(reply.why);
        case Effect(fn) =>
          var reply := ctx.SideEffect(fn);
          r := if reply.Got? then Got(Outcome(reply.value)) else Raised(reply.why);
        case Ask(question) =>
          var reply := ctx.Approval(question);
          r := if reply.Got? then Got(Decision(reply.value)) else Raised(reply.why);
      }
      n := CallIsLife(ctx.Env(), a, first, n, t, 0, s, ctx.Snapshot(), ctx.Position(), r, w.obs);
      if r.Raised? {
        return Stopped(r.why);
      }
      CallFollows(ctx.Env(), op, s, w, ctx.Snapshot(), ctx.Position(), r);
      answers := answers + [r.value];
    }
  }

  lemma Begins(env: Env, a: Agent, s: Snap)
    ensures Grew(env, a, s, s, 0) && Stands(a, s.seen, Start) && Follows(s.seen, Start)
  {
  }

  lemma ReadUnfolds(env: Env, s: Snap, at: Walk)
    requires |at.obs| > 0
    ensures Unfolds(env, Go(at), 0, s, s, at, Got(Latest(at)))
  {
  }

  lemma Finishes(env: Env, a: Agent, first: Snap, n: nat, s: Snap, w: Walk)
    requires Grew(env, a, first, s, n) && Stands(a, s.seen, w) && Ends(a.next(w.obs)) && GoesOn(env, n, s.seen)
    ensures Lived(env, a, first, s, if a.next(w.obs).Done? then Returned(a.next(w.obs).output) else AgentRaised)
    ensures w.cursor <= |s.seen| && Spoken(w.obs) == Told(s.seen[..w.cursor]) && AllHeard(a, s.seen, w.obs)
  {
    hide Grew, DiesAfter, Told, Spoken;
    ReplayReadsTheDiary(a, s.seen);
    var fate := if a.next(w.obs).Done? then Returned(a.next(w.obs).output) else AgentRaised;
    assert Fits(env, a, first, n, s, s, fate);
  }
}

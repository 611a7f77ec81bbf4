/** What an execution of the fleet keeps for ever: diaries only grow, tokens only rise, and
    ancestry never changes. */
module History {
  import opened Diary
  import opened Engine
  import opened Tables
  import opened Protocol
  import opened Store
  import opened Fleet
  import opened FleetSafety
  import Safety

  /** Every run of `f` is in `g`, its diary longer only by entries that no older token wrote. */
  ghost predicate Later(f: State, g: State) {
    && Extends(f, g)
    && forall q :: q in f.db.runs ==>
         && q in g.db.runs && f.db.runs[q].token <= g.db.runs[q].token
         && Safety.GrewUnder(View(f, q).diary, View(g, q).diary, f.db.runs[q].token)
  }

  lemma LocalLater(code: Code, f: State, r: RunId, act: Action)
    requires FleetInv(code, f) && Enables(code, f, Local(r, act))
    ensures Later(f, Next(code, f, Local(r, act)))
  {
    hide Inv, Lineage, Owned, Do, LocalStep, Enabled, Moves, View, Extends;
    var a := code(f.db.runs[r].agent);
    var g, d := LocalStep(a, f, r, act), Do(a, View(f, r), act);
    LocalMoves(a, f, r, act);
    OnlyAppends(a, View(f, r), act);
    ViewRow(f, r);
    MovesExtends(f, g, r, d);
    Safety.ActionTokens(a, View(f, r), act);
    MovedTokens(f, g, r, d);
  }

  lemma MovedTokens(f: State, g: State, r: RunId, d: Cell)
    requires AllKnown(f) && r in f.db.runs && Moves(f, g, r, d)
    requires f.db.runs[r].token <= d.run.token && Safety.GrewUnder(View(f, r).diary, d.diary, f.db.runs[r].token)
    ensures forall q :: q in f.db.runs ==>
      && q in g.db.runs && Known(g, q) && f.db.runs[q].token <= g.db.runs[q].token
      && Safety.GrewUnder(View(f, q).diary, View(g, q).diary, f.db.runs[q].token)
  {
    hide DiaryOf, Dense;
    forall q | q in f.db.runs
      ensures q in g.db.runs && Known(g, q) && g.db.runs[q] == View(g, q).run && f.db.runs[q] == View(f, q).run
    {
      assert Known(g, q);
    }
  }

  lemma BornLater(f: State, g: State, r: RunId)
    requires Bears(f, g, r)
    ensures Later(f, g)
  {
    hide View, Extends, Dense;
    BearsExtends(f, g, r);
  }

  lemma SweptLater(f: State, now: int)
    requires AllKnown(f)
    ensures Later(f, f.(db := SweepAll(f.db, now)))
  {
    hide View, Extends, Dense;
    SweepMoves(f, now);
    SweepExtends(f, now);
  }

  lemma StepLater(code: Code, f: State, step: Step)
    requires FleetInv(code, f) && Enables(code, f, step)
    ensures Later(f, Next(code, f, step))
  {
    hide Inv, View, Later, LocalStep, Owned, Lineage, Bears, Fork;
    match step {
      case Local(r, act) => LocalLater(code, f, r, act);
      case Enqueue(r, agent, input) =>
        EnqueueBears(f, r, agent, input);
        BornLater(f, Next(code, f, step), r);
      case Forking(parent, at, patch, child) =>
        AnyPatchForks(f.db, parent, at, patch, child);
        ForkBears(f, parent, at, patch, child);
        BornLater(f, Next(code, f, step), child);
      case Sweeping(now) => SweptLater(f, now);
    }
  }

  lemma LaterStill(f: State, g: State, h: State)
    requires Later(f, g) && Later(g, h)
    ensures Later(f, h)
  {
    hide View, Dense;
  }

  /** Fencing over whole executions: from any state on, no diary loses or changes an entry,
      and no entry with a token older than the run's current one is ever added. */
  lemma {:induction false} NoLateEvent(code: Code, fs: seq<State>, steps: seq<Step>, i: nat, j: nat)
    requires Execution(code, fs, steps) && i <= j < |fs|
    ensures Later(fs[i], fs[j])
    decreases j - i
  {
    hide Later, FleetInv, Next, Enables;
    if i == j {
      AlwaysSafe(code, fs, steps, i);
      LaterSelf(code, fs[i]);
    } else {
      NoLateEvent(code, fs, steps, i, j - 1);
      AlwaysSafe(code, fs, steps, j - 1);
      assert Enables(code, fs[j - 1], steps[j - 1]) && fs[j - 1 + 1] == Next(code, fs[j - 1], steps[j - 1]);
      StepLater(code, fs[j - 1], steps[j - 1]);
      LaterStill(fs[i], fs[j - 1], fs[j]);
    }
  }

  lemma LaterSelf(code: Code, f: State)
    requires FleetInv(code, f)
    ensures Later(f, f)
  {
    hide View, Inv, Lineage;
  }

  lemma ClaimIssues(code: Code, f: State, r: RunId, act: Action)
    requires FleetInv(code, f) && Enables(code, f, Local(r, act)) && act.Claim?
    ensures var g := Next(code, f, Local(r, act));
      && r in g.db.runs && g.db.runs[r].token == f.db.runs[r].token + 1
      && act.life in g.lives && g.lives[act.life].run == r && g.lives[act.life].it.token == g.db.runs[r].token
  {
    hide Inv, Lineage, Owned, KeysFor, CommitsOf, ReadEvents, Dense, Its;
  }

  /** No (run, token) pair is ever handed to two claims. */
  lemma TokensAreFresh(code: Code, fs: seq<State>, steps: seq<Step>, r: RunId, i: nat, j: nat)
    requires Execution(code, fs, steps) && i < j < |steps|
    requires steps[i].Local? && steps[i].run == r && steps[i].act.Claim?
    requires steps[j].Local? && steps[j].run == r && steps[j].act.Claim?
    ensures steps[i].act.life in fs[i + 1].lives && steps[j].act.life in fs[j + 1].lives
    ensures fs[i + 1].lives[steps[i].act.life].it.token < fs[j + 1].lives[steps[j].act.life].it.token
  {
    hide FleetInv, Next, Enables, Extends, View;
    AlwaysSafe(code, fs, steps, i);
    AlwaysSafe(code, fs, steps, j);
    ClaimIssues(code, fs[i], r, steps[i].act);
    ClaimIssues(code, fs[j], r, steps[j].act);
    NoLateEvent(code, fs, steps, i + 1, j);
  }
}

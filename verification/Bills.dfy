/** The bill of a run against the history of the fleet: what its counters count. */
module Bills {
  import opened Diary
  import opened Engine
  import opened Tables
  import opened Protocol
  import opened Store
  import opened Fleet
  import opened FleetSafety
  import opened Timelines

  /** The model is called for run `r` in this step. */
  predicate Calls(step: Step, r: RunId) {
    step.Local? && step.run == r && step.act.Consult?
  }

  /** A life of run `r` is lost in this step: it is killed, or it writes under a stale token. */
  predicate Loses(f: State, step: Step, r: RunId) {
    step.Local? && step.run == r && r in f.db.runs &&
    match step.act
    case Die(l) => l in f.lives
    case Write(l) => l in f.lives && f.lives[l].it.token != f.db.runs[r].token
    case Act(l, _) => l in f.lives && f.lives[l].it.token != f.db.runs[r].token
    case _ => false
  }

  /** ... with an answer of the model in its hand. */
  predicate Spills(f: State, step: Step, r: RunId) {
    Loses(f, step, r) && Holding(f.lives[step.act.life].it)
  }

  /** What a step adds to the bill of run `r`. */
  function Added(bill: Bill, f: State, step: Step, r: RunId): Bill {
    Bill(bill.calls + (if Calls(step, r) then 1 else 0), bill.lost + (if Loses(f, step, r) then 1 else 0),
         bill.spilled + (if Spills(f, step, r) then 1 else 0))
  }

  /** How often that happened in the first `n` steps. */
  ghost function Tally(fs: seq<State>, steps: seq<Step>, r: RunId, n: nat): Bill
    requires n <= |fs| && n <= |steps|
  {
    if n == 0 then Bill(0, 0, 0)
    else
      Added(Tally(fs, steps, r, n - 1), fs[n - 1], steps[n - 1], r)
  }

  predicate OfLife(act: Action) {
    act.Build? || act.Consult? || act.Write? || act.Act? || act.End? || act.Throw? || act.Die?
  }

  lemma WriteBills(a: Agent, f: State, r: RunId, act: Action, q: RunId)
    requires act.Write? || act.Act?
    requires LiveIn(f, r, act.life) && f.lives[act.life].run == r
    requires var need := LifeNeed(a, f.lives[act.life].it);
      if act.Write? then WritesAlone(need, f.lives[act.life].it.phase.hand) else need.Perform?
    ensures var g := if act.Write? then WriteIt(a, f, r, act.life) else ActIt(a, f, r, act.life, act.result);
      BillOf(g.bills, q) == Added(BillOf(f.bills, q), f, Local(r, act), q)
  {
    hide NeedOf, MakeKey, WrittenEvent;
  }

  lemma LifeFacts(a: Agent, f: State, r: RunId, act: Action)
    requires Known(f, r) && Enabled(a, View(f, r), act) && OfLife(act)
    ensures act.life in f.lives && f.lives[act.life].run == r
    ensures act.Consult? || act.Write? || act.Act? ==> LiveIn(f, r, act.life)
    ensures act.Write? ==> WritesAlone(LifeNeed(a, f.lives[act.life].it), f.lives[act.life].it.phase.hand)
    ensures act.Act? ==> LifeNeed(a, f.lives[act.life].it).Perform?
  {
    hide NeedOf, DiaryOf, CommitsOf, KeysFor, Dense;
    LifeIsHeld(f, r, act.life);
  }

  lemma LocalBills(a: Agent, f: State, r: RunId, act: Action, q: RunId)
    requires Known(f, r) && Enabled(a, View(f, r), act)
    ensures BillOf(LocalStep(a, f, r, act).bills, q) == Added(BillOf(f.bills, q), f, Local(r, act), q)
  {
    hide View, Enabled, Dense, WriteIt, ActIt, ReadEvents, LifeNeed;
    if OfLife(act) {
      LifeFacts(a, f, r, act);
    }
    if act.Write? || act.Act? {
      WriteBills(a, f, r, act, q);
    }
  }

  lemma StepBills(code: Code, f: State, step: Step, r: RunId)
    requires Enables(code, f, step)
    ensures BillOf(Next(code, f, step).bills, r) == Added(BillOf(f.bills, r), f, step, r)
  {
    hide LocalStep, View, Dense, Enabled;
    if step.Local? {
      LocalBills(code(f.db.runs[step.run].agent), f, step.run, step.act, r);
    }
  }

  /** The counters of the bill are the history: the model calls made for the run, the lives it
      lost, and those that were lost with an answer in hand. */
  lemma {:induction false} BillIsTheHistory(code: Code, fs: seq<State>, steps: seq<Step>, r: RunId, n: nat)
    requires Execution(code, fs, steps) && n < |fs|
    ensures BillOf(fs[n].bills, r) == Tally(fs, steps, r, n)
  {
    hide Next, Enables, Added;
    if n > 0 {
      BillIsTheHistory(code, fs, steps, r, n - 1);
      assert Enables(code, fs[n - 1], steps[n - 1]) && fs[n - 1 + 1] == Next(code, fs[n - 1], steps[n - 1]);
      StepBills(code, fs[n - 1], steps[n - 1], r);
    }
  }
}

/** The objects do what the fleet model says: each event that a Context commits, and each
    row that a worker settles, is a step of the fleet. */
module Conformance {
  import opened Diary
  import opened Engine
  import opened Timelines
  import opened Tables
  import opened Protocol
  import opened Store
  import opened Databases
  import opened Fleet
  import opened Models
  import opened Lives
  import opened Workers

  /** The life `l` of the fleet, as its Context sees the world. */
  ghost predicate Seat(f: State, r: RunId, l: nat, env: Env, s: Snap) {
    && Fleet.LiveIn(f, r, l) && f.lives[l].run == r && env.id == r && env.lease == Some(f.lives[l].it.token)
    && s.db == f.db && s.seen == f.lives[l].it.phase.seen && f.lives[l].it.phase.hand.None?
  }

  /** The model was consulted, if the life needs it. */
  function Asked(a: Agent, f: State, r: RunId, l: nat, env: Env, s: Snap): State
    requires Fleet.LiveIn(f, r, l)
  {
    match LifeNeed(a, f.lives[l].it)
    case Call(prompt) =>
      var answer := env.llm.AnswerAt(s.calls, prompt);
      if answer.Completed? then ConsultIt(f, r, l, answer.text) else f
    case _ => f
  }

  /** What an effect yields, for the step that performs it. */
  function Yield(attempt: Attempted): Value {
    if attempt.Yields? then attempt.result else ""
  }

  predicate CanTry(a: Agent, f: State, r: RunId, l: nat, env: Env, s: Snap) {
    Fleet.LiveIn(f, r, l) &&
    var need := LifeNeed(a, f.lives[l].it);
    Writes(need) && (need.Call? ==> env.llm.AnswerAt(s.calls, need.prompt).Completed?)
  }

  /** The steps of the fleet by which a life tries to commit its next event: the model is
      consulted and its answer appended, or an event is appended, or an effect is performed. */
  function Tried(a: Agent, f: State, r: RunId, l: nat, env: Env, s: Snap): State
    requires CanTry(a, f, r, l, env, s)
  {
    var g := Asked(a, f, r, l, env, s);
    match LifeNeed(a, f.lives[l].it)
    case Perform(fn) => ActIt(a, g, r, l, Yield(env.effects(fn, s.db.journal)))
    case _ => WriteIt(a, g, r, l)
  }

  /** What a Context commits is what the fleet's steps commit, and the life has seen as much. */
  lemma LandingIsSteps(a: Agent, f: State, r: RunId, l: nat, env: Env, s: Snap, u: Snap)
    requires Seat(f, r, l, env, s) && Lands(env, LifeNeed(a, f.lives[l].it), s, u)
    ensures CanTry(a, f, r, l, env, s) && Seat(Tried(a, f, r, l, env, s), r, l, env, u)
  {
    hide NeedOf, MakeKey, Tried, Lands;
    LandAnswers(env, LifeNeed(a, f.lives[l].it), s, u);
    LandingIsPossible(a, f, r, l, env, s, u);
    if LifeNeed(a, f.lives[l].it).Perform? {
      PerformingIsAStep(a, f, r, l, env, s, u);
    } else {
      AppendingIsSteps(a, f, r, l, env, s, u);
    }
  }

  lemma LandingIsPossible(a: Agent, f: State, r: RunId, l: nat, env: Env, s: Snap, u: Snap)
    requires Seat(f, r, l, env, s) && Lands(env, LifeNeed(a, f.lives[l].it), s, u)
    ensures CanTry(a, f, r, l, env, s)
  {
    hide NeedOf, MakeKey;
  }

  lemma PerformingIsAStep(a: Agent, f: State, r: RunId, l: nat, env: Env, s: Snap, u: Snap)
    requires Seat(f, r, l, env, s) && Lands(env, LifeNeed(a, f.lives[l].it), s, u)
    requires CanTry(a, f, r, l, env, s) && LifeNeed(a, f.lives[l].it).Perform?
    ensures Seat(Tried(a, f, r, l, env, s), r, l, env, u)
  {
    hide NeedOf, MakeKey;
  }

  lemma AppendingIsSteps(a: Agent, f: State, r: RunId, l: nat, env: Env, s: Snap, u: Snap)
    requires Seat(f, r, l, env, s) && Lands(env, LifeNeed(a, f.lives[l].it), s, u)
    requires CanTry(a, f, r, l, env, s) && !LifeNeed(a, f.lives[l].it).Perform?
    ensures Seat(Tried(a, f, r, l, env, s), r, l, env, u)
  {
    hide NeedOf, MakeKey;
  }

  /** A fenced-out Context, at an append, at an effect, or with a model answer in hand, is a
      life that the fleet loses, and no table changes. */
  lemma FencedIsLost(a: Agent, f: State, r: RunId, l: nat, env: Env, s: Snap)
    requires Seat(f, r, l, env, s) && CanTry(a, f, r, l, env, s) && !LeaseOk(s.db, r, env.lease)
    ensures Tried(a, f, r, l, env, s) == LoseLife(Asked(a, f, r, l, env, s), l)
    ensures Tried(a, f, r, l, env, s).db == s.db
  {
    hide NeedOf, MakeKey;
  }

  /** A Context whose seq was taken is a life that the fleet breaks off, parking its run. */
  lemma DuplicateIsBroken(a: Agent, f: State, r: RunId, l: nat, env: Env, s: Snap)
    requires Seat(f, r, l, env, s) && CanTry(a, f, r, l, env, s)
    requires LeaseOk(s.db, r, env.lease) && |s.seen| + 1 in Rows(s.db, r)
    ensures Tried(a, f, r, l, env, s) == BreakLife(Asked(a, f, r, l, env, s), r, l)
  {
    hide NeedOf, MakeKey;
  }

  /** The model raised, or the effect did in its transaction. */
  predicate Threw(a: Agent, f: State, r: RunId, l: nat, env: Env, s: Snap)
    requires Fleet.LiveIn(f, r, l)
  {
    match LifeNeed(a, f.lives[l].it)
    case Call(prompt) => !env.llm.AnswerAt(s.calls, prompt).Completed?
    case Perform(fn) =>
      LeaseOk(s.db, r, env.lease) && MakeKey(r, |s.seen|) !in s.db.keys && !env.effects(fn, s.db.journal).Yields?
    case _ => false
  }

  /** The last step of a life that broke off or came to its end: it is killed, it throws, its
      write is refused, or it ends. */
  function LastStep(a: Agent, f: State, r: RunId, l: nat, env: Env, s: Snap, fate: Fate): State
    requires Fleet.LiveIn(f, r, l)
  {
    if fate == Stopped(Killed) then LoseLife(f, l)
    else if !Writes(LifeNeed(a, f.lives[l].it)) then EndIt(a, f, r, l)
    else if Threw(a, f, r, l, env, s) || !CanTry(a, f, r, l, env, s) then BreakLife(f, r, l)
    else Tried(a, f, r, l, env, s)
  }

  /** What a worker makes of the row of a run when a life is over, however it ended, is the
      fleet's last step of that life; and where that step is a throw, the fleet may throw. */
  lemma SettlingIsAStep(
    a: Agent, f: State, r: RunId, l: nat, env: Env, s: Snap, n: nat, m: Snap, u: Snap, fate: Fate)
    requires Seat(f, r, l, env, m) && Fits(env, a, s, n, m, u, fate)
    ensures Settled(u.db, r, f.lives[l].it.token, fate) == LastStep(a, f, r, l, env, m, fate).db
    ensures l !in LastStep(a, f, r, l, env, m, fate).lives
    ensures Threw(a, f, r, l, env, m) ==> MayThrow(LifeNeed(a, f.lives[l].it), f.lives[l].it.phase.hand)
  {
    hide NeedOf, BreakOf, DiesAfter, Threw, LastStep, Settled;
    OnlyTheseThrow(a, f, r, l, env, m);
    if BreakOf(env, NeedOf(a, m.seen), m).Some? {
      BreakCauses(env, NeedOf(a, m.seen), m);
    }
    if fate == Stopped(Killed) {
      KilledRow(a, f, r, l, env, m);
    } else if Writes(NeedOf(a, m.seen)) {
      BrokenRow(a, f, r, l, env, m, fate);
    } else {
      EndedRow(a, f, r, l, env, m, fate);
    }
  }

  lemma OnlyTheseThrow(a: Agent, f: State, r: RunId, l: nat, env: Env, s: Snap)
    requires Fleet.LiveIn(f, r, l)
    ensures Threw(a, f, r, l, env, s) ==> MayThrow(LifeNeed(a, f.lives[l].it), None)
  {
    hide NeedOf;
  }

  lemma KilledRow(a: Agent, f: State, r: RunId, l: nat, env: Env, m: Snap)
    requires Seat(f, r, l, env, m)
    ensures Settled(m.db, r, f.lives[l].it.token, Stopped(Killed)) == LastStep(a, f, r, l, env, m, Stopped(Killed)).db
    ensures l !in LastStep(a, f, r, l, env, m, Stopped(Killed)).lives
  {
    hide NeedOf;
  }

  lemma EndedRow(a: Agent, f: State, r: RunId, l: nat, env: Env, m: Snap, fate: Fate)
    requires Seat(f, r, l, env, m) && !Writes(NeedOf(a, m.seen)) && fate != Stopped(Killed)
    requires fate.Returned? <==> NeedOf(a, m.seen).Finish?
    requires fate.Stopped? && fate.why.PausedForApproval? <==> NeedOf(a, m.seen).Await?
    requires fate.Stopped? ==> fate.why.PausedForApproval? || fate.why.Divergence?
    ensures Settled(m.db, r, f.lives[l].it.token, fate) == LastStep(a, f, r, l, env, m, fate).db
    ensures l !in LastStep(a, f, r, l, env, m, fate).lives
  {
    hide NeedOf;
  }

  lemma BrokenRow(a: Agent, f: State, r: RunId, l: nat, env: Env, m: Snap, fate: Fate)
    requires Seat(f, r, l, env, m) && fate.Stopped? && fate.why != Killed && Writes(LifeNeed(a, f.lives[l].it))
    requires BreakOf(env, LifeNeed(a, f.lives[l].it), m).Some?
    requires BreakOf(env, LifeNeed(a, f.lives[l].it), m).value.why == fate.why
    ensures Settled(m.db, r, f.lives[l].it.token, fate) == LastStep(a, f, r, l, env, m, fate).db
    ensures l !in LastStep(a, f, r, l, env, m, fate).lives
  {
    hide NeedOf, MakeKey, Tried, BreakOf;
    BreakCauses(env, LifeNeed(a, f.lives[l].it), m);
    if CanTry(a, f, r, l, env, m) && !Threw(a, f, r, l, env, m) {
      if !LeaseOk(m.db, r, env.lease) {
        FencedIsLost(a, f, r, l, env, m);
      } else {
        DuplicateIsBroken(a, f, r, l, env, m);
      }
    }
  }

  // ----- the steps are steps -----

  /** The step that tries to commit the next event, once the model has been consulted. */
  function TrialOf(a: Agent, f: State, r: RunId, l: nat, env: Env, s: Snap): Step
    requires Fleet.LiveIn(f, r, l)
  {
    match LifeNeed(a, f.lives[l].it)
    case Perform(fn) => Local(r, Act(l, Yield(env.effects(fn, s.db.journal))))
    case _ => Local(r, Write(l))
  }

  /** What a life tries, the fleet can do: the consultation, if one is due, and then the commit
      are enabled, and come to what is tried. */
  lemma TryingIsEnabled(code: Code, f: State, r: RunId, l: nat, env: Env, s: Snap)
    requires Seat(f, r, l, env, s) && Known(f, r) && CanTry(code(f.db.runs[r].agent), f, r, l, env, s)
    ensures var a := code(f.db.runs[r].agent);
      var g, need := Asked(a, f, r, l, env, s), LifeNeed(a, f.lives[l].it);
      && (if need.Call? then
            var consult := Local(r, Consult(l, env.llm.AnswerAt(s.calls, need.prompt).text));
            Enables(code, f, consult) && g == Next(code, f, consult)
          else g == f)
      && Enables(code, g, TrialOf(a, f, r, l, env, s))
      && Tried(a, f, r, l, env, s) == Next(code, g, TrialOf(a, f, r, l, env, s))
  {
    hide NeedOf, MakeKey, DiaryOf, CommitsOf, KeysFor, Dense;
  }

  /** A life may die, end or throw in the fleet where it does. */
  lemma EndingIsEnabled(code: Code, f: State, r: RunId, l: nat, env: Env, s: Snap)
    requires Seat(f, r, l, env, s) && Known(f, r)
    ensures var a := code(f.db.runs[r].agent);
      && Enables(code, f, Local(r, Die(l))) && Next(code, f, Local(r, Die(l))) == LoseLife(f, l)
      && (!Writes(LifeNeed(a, f.lives[l].it)) ==>
            Enables(code, f, Local(r, End(l))) && Next(code, f, Local(r, End(l))) == EndIt(a, f, r, l))
      && (MayThrow(LifeNeed(a, f.lives[l].it), None) ==>
            Enables(code, f, Local(r, Throw(l))) && Next(code, f, Local(r, Throw(l))) == BreakLife(f, r, l))
  {
    hide NeedOf, DiaryOf, CommitsOf, KeysFor, Dense;
  }

  /** The last step, if it is not a try, is one that the fleet can take. */
  lemma LastStepIsEnabled(code: Code, f: State, r: RunId, l: nat, env: Env, s: Snap, fate: Fate)
    requires Seat(f, r, l, env, s) && Known(f, r)
    ensures var a := code(f.db.runs[r].agent);
      var step := if fate == Stopped(Killed) then Local(r, Die(l))
                  else if !Writes(LifeNeed(a, f.lives[l].it)) then Local(r, End(l)) else Local(r, Throw(l));
      (step.act.Throw? ==> Threw(a, f, r, l, env, s)) ==>
        Enables(code, f, step) && LastStep(a, f, r, l, env, s, fate) == Next(code, f, step)
  {
    hide NeedOf, Threw, CanTry, Tried, Enables, Next, Known;
    EndingIsEnabled(code, f, r, l, env, s);
    OnlyTheseThrow(code(f.db.runs[r].agent), f, r, l, env, s);
  }

  // ----- the statements of the queue and of the humans -----

  /** A claim as ClaimRun makes it is an enabled claim of the fleet, by a new life that will
      write under the token it returned. */
  lemma ClaimIsAStep(code: Code, f: State, r: RunId, l: nat, worker: string, expiry: int, token: nat, e: Db)
    requires Known(f, r) && l !in f.lives && f.db.runs[r].status == Queued && token == f.db.runs[r].token + 1
    requires e.runs == f.db.runs[r := f.db.runs[r].(
                                   status := Running, owner := Some(worker), expiry := Some(expiry), token := token)]
    requires e.events == f.db.events && e.keys == f.db.keys && e.journal == f.db.journal
    ensures var step := Local(r, Claim(l, worker, expiry));
      && Enables(code, f, step)
      && Next(code, f, step) == f.(db := e, lives := f.lives[l := Of(r, Life(worker, token, Fresh))])
  {
    hide DiaryOf, CommitsOf, KeysFor, Dense;
  }

  /** And when ClaimRun finds nothing, the fleet has no claim for such a worker. */
  lemma NoClaimIsEnabled(
    code: Code, f: State, agent: Option<string>, r: RunId, l: nat, worker: string, expiry: int)
    requires forall q :: q in f.db.runs && f.db.runs[q].status == Queued ==>
      agent.Some? && f.db.runs[q].agent != agent.value
    ensures Enables(code, f, Local(r, Claim(l, worker, expiry))) ==> agent.Some? && f.db.runs[r].agent != agent.value
  {
    hide DiaryOf, CommitsOf, KeysFor, Dense;
  }

  /** A heartbeat is a step of the fleet, whether or not it found the lease. */
  lemma BeatIsAStep(code: Code, f: State, r: RunId, worker: string, expiry: int, e: Db)
    requires Known(f, r) && e.events == f.db.events && e.keys == f.db.keys && e.journal == f.db.journal
    requires e.runs == if f.db.runs[r].status == Running && f.db.runs[r].owner == Some(worker)
                       then f.db.runs[r := f.db.runs[r].(expiry := Some(expiry))] else f.db.runs
    ensures var step := Local(r, Beat(worker, expiry)); Enables(code, f, step) && Next(code, f, step) == f.(db := e)
  {
    hide DiaryOf, CommitsOf, KeysFor, Dense;
    assert f.db.runs == f.db.runs[r := f.db.runs[r]];
  }

  /** So is a sweep, of all lapsed leases at once. */
  lemma SweepIsAStep(code: Code, f: State, now: int, e: Db)
    requires e.events == f.db.events && e.keys == f.db.keys && e.journal == f.db.journal
    requires e.runs.Keys == f.db.runs.Keys
    requires forall r :: r in f.db.runs ==>
      var run := f.db.runs[r];
      e.runs[r] == if run.status == Running && run.expiry.Some? && run.expiry.value < now
                   then run.(status := Queued, owner := None, expiry := None) else run
    ensures Enables(code, f, Sweeping(now)) && Next(code, f, Sweeping(now)) == f.(db := e)
  {
    assert SweepAll(f.db, now).runs == e.runs;
  }

  lemma DecideIsAStep(code: Code, f: State, r: RunId, g: nat, approved: bool)
    requires Known(f, r) && g !in f.grants
    ensures Enables(code, f, Local(r, Decide(g, approved))) <==> EndsOnRequest(Rows(f.db, r))
    ensures EndsOnRequest(Rows(f.db, r)) ==>
      Next(code, f, Local(r, Decide(g, approved)))
      == f.(grants := f.grants[g := Of(r, Decided(|Rows(f.db, r)| + 1, approved))])
  {
    hide CommitsOf, KeysFor, Rows;
    ReadsDense(Rows(f.db, r));
    LastRow(Rows(f.db, r));
  }

  lemma RecordIsAStep(code: Code, f: State, r: RunId, g: nat, approved: bool)
    requires Known(f, r) && g in f.grants && f.grants[g] == Of(r, Decided(|Rows(f.db, r)| + 1, approved))
    ensures Enables(code, f, Local(r, Record(g)))
    ensures var entry := Entry(Approval(approved), 0);
      Next(code, f, Local(r, Record(g))) ==
      f.(db := f.db.(events := f.db.events[r := Rows(f.db, r)[|Rows(f.db, r)| + 1 := entry]]),
         grants := f.grants[g := Of(r, Recorded)])
  {
    hide CommitsOf, KeysFor, DiaryOf, Rows;
  }

  lemma RequeueIsAStep(code: Code, f: State, r: RunId, g: nat)
    requires Known(f, r) && g in f.grants && f.grants[g] == Of(r, Recorded)
    ensures Enables(code, f, Local(r, Requeue(g)))
    ensures Next(code, f, Local(r, Requeue(g))) ==
      f.(db := f.db.(runs := f.db.runs[r := f.db.runs[r].(status := Queued)]), grants := f.grants - {g})
  {
    hide CommitsOf, KeysFor, DiaryOf, Rows;
  }

  /** A grant, if nothing comes between its commits, is three steps of the fleet: the decision
      on the question at the tail, its record, the requeue. Without a question there is none. */
  lemma GrantIsSteps(code: Code, f: State, r: RunId, g: nat, approved: bool, e: Db)
    requires Known(f, r) && g !in f.grants
    requires var rows := Rows(f.db, r);
      && e.runs == f.db.runs[r := f.db.runs[r].(status := Queued)] && e.keys == f.db.keys && e.journal == f.db.journal
      && e.events == f.db.events[r := rows[|rows| + 1 := Entry(Approval(approved), 0)]]
    ensures Enables(code, f, Local(r, Decide(g, approved))) <==> EndsOnRequest(Rows(f.db, r))
    ensures EndsOnRequest(Rows(f.db, r)) ==>
      var first := Next(code, f, Local(r, Decide(g, approved)));
      && Enables(code, first, Local(r, Record(g)))
      && var second := Next(code, first, Local(r, Record(g)));
         && Enables(code, second, Local(r, Requeue(g)))
         && Next(code, second, Local(r, Requeue(g))) == f.(db := e)
  {
    hide Next, Enables, EndsOnRequest, Dense;
    DecideIsAStep(code, f, r, g, approved);
    if EndsOnRequest(Rows(f.db, r)) {
      var rows := Rows(f.db, r);
      var first := Next(code, f, Local(r, Decide(g, approved)));
      RecordIsAStep(code, first, r, g, approved);
      var second := Next(code, first, Local(r, Record(g)));
      DenseAppend(rows, Entry(Approval(approved), 0));
      assert Rows(second.db, r) == rows[|rows| + 1 := Entry(Approval(approved), 0)];
      RequeueIsAStep(code, second, r, g);
    }
  }
}

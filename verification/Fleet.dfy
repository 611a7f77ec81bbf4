/** The whole fleet over one database: many runs, workers, zombies, humans and forks,
    interleaved in any order. Each step is a transaction of Store on the shared tables. */
module Fleet {
  import opened Diary
  import opened Engine
  import opened Timelines
  import opened Tables
  import opened Protocol
  import opened Store

  /** A process working on a run. */
  datatype Of<+T> = Of(run: RunId, it: T)

  datatype State = State(
    db: Db, lives: map<nat, Of<Life>>, grants: map<nat, Of<Grant>>, bills: map<RunId, Bill>)

  datatype Step =
    | Local(run: RunId, act: Action)
    | Enqueue(run: RunId, agent: string, input: Value)
    | Forking(parent: RunId, at: nat, patch: Config, child: RunId)
    | Sweeping(now: int)

  const Initial := State(Empty, map[], map[], map[])

  // ----- one run of the fleet -----

  function CommitsOf(journal: seq<Commit>, r: RunId): seq<Commit> {
    if journal == [] then []
    else
      var rest, last := CommitsOf(journal[..|journal| - 1], r), journal[|journal| - 1];
      if last.run == r then rest + [last] else rest
  }

  ghost predicate KeyOf(k: string, r: RunId) {
    exists slot: nat :: k == MakeKey(r, slot)
  }

  ghost function KeysFor(keys: map<string, Value>, r: RunId): map<string, Value> {
    map k | k in keys && KeyOf(k, r) :: keys[k]
  }

  function Its<T>(m: map<nat, Of<T>>, r: RunId): map<nat, T> {
    map l | l in m && m[l].run == r :: m[l].it
  }

  function BillOf(bills: map<RunId, Bill>, r: RunId): Bill {
    if r in bills then bills[r] else Bill(0, 0, 0)
  }

  /** Run `r` as the fleet sees it. */
  ghost function View(f: State, r: RunId): Cell
    requires r in f.db.runs && Dense(Rows(f.db, r))
  {
    Cell(r, f.db.runs[r], DiaryOf(Rows(f.db, r)), KeysFor(f.db.keys, r), CommitsOf(f.db.journal, r),
         Its(f.lives, r), Its(f.grants, r), BillOf(f.bills, r))
  }

  // ----- steps -----

  /** `code` is what the deployed agents do, by agent name; it does not change. */
  type Code = string -> Agent

  ghost predicate Known(f: State, r: RunId) {
    r in f.db.runs && Dense(Rows(f.db, r))
  }

  /** Process ids are never reused across runs. */
  ghost predicate Enables(code: Code, f: State, step: Step) {
    match step
    case Local(r, act) =>
      && Known(f, r)
      && Enabled(code(f.db.runs[r].agent), View(f, r), act)
      && !act.Sweep?  // sweep_expired takes all lapsed rows at once: Sweeping
      && (act.Claim? ==> act.life !in f.lives)
      && (act.Decide? ==> act.grant !in f.grants)
    case Enqueue(r, _, _) => r !in f.db.runs
    case Forking(parent, at, _, child) =>
      child !in f.db.runs && Fork(f.db, parent, at, map[], child).Ok?
    case Sweeping(_) => true
  }

  function LoseLife(f: State, l: nat): State
    requires l in f.lives
  {
    var r := f.lives[l].run;
    f.(lives := f.lives - {l}, bills := f.bills[r := Charged(BillOf(f.bills, r), f.lives[l].it)])
  }

  function BreakLife(f: State, r: RunId, l: nat): State
    requires r in f.db.runs && l in f.lives
  {
    f.(db := WithRow(f.db, r, ParkedBy(f.db.runs[r], f.lives[l].it.token, Failed)), lives := f.lives - {l})
  }

  function SeeMore(f: State, r: RunId, l: nat, db: Db, e: Event): State
    requires l in f.lives && f.lives[l].it.phase.Live?
  {
    var life := f.lives[l].it;
    f.(db := db, lives := f.lives[l := Of(r, life.(phase := Live(life.phase.seen + [e], None)))])
  }

  /** A worker's fenced transaction came back: it landed, it was fenced out, or it broke. */
  function AfterWrite(f: State, r: RunId, l: nat, result: Result<Db>, e: Event): State
    requires r in f.db.runs && l in f.lives && f.lives[l].it.phase.Live?
  {
    match result
    case Ok(db) => SeeMore(f, r, l, db, e)
    case Err(StaleFence) => LoseLife(f, l)
    case Err(_) => BreakLife(f, r, l)
  }

  function WithLife(f: State, r: RunId, l: nat, life: Life): State {
    f.(lives := f.lives[l := Of(r, life)])
  }

  function ClaimIt(f: State, r: RunId, l: nat, worker: string, expiry: int): State
    requires r in f.db.runs
  {
    var claimed := Claimed(f.db.runs[r], worker, expiry);
    WithLife(f.(db := WithRow(f.db, r, claimed)), r, l, Life(worker, claimed.token, Fresh))
  }

  function BuildIt(f: State, r: RunId, l: nat): State
    requires l in f.lives
  {
    var rows := ReadEvents(Rows(f.db, r));
    var history := seq(|rows|, i requires 0 <= i < |rows| => rows[i].entry.event);
    WithLife(f, r, l, f.lives[l].it.(phase := Live(history, None)))
  }

  function ConsultIt(f: State, r: RunId, l: nat, answer: string): State
    requires l in f.lives && f.lives[l].it.phase.Live?
  {
    var life, bill := f.lives[l].it, BillOf(f.bills, r);
    WithLife(f, r, l, life.(phase := Live(life.phase.seen, Some(answer)))).(
      bills := f.bills[r := bill.(calls := bill.calls + 1)])
  }

  predicate LiveIn(f: State, r: RunId, l: nat) {
    r in f.db.runs && l in f.lives && f.lives[l].it.phase.Live?
  }

  function WriteIt(a: Agent, f: State, r: RunId, l: nat): State
    requires LiveIn(f, r, l) && WritesAlone(LifeNeed(a, f.lives[l].it), f.lives[l].it.phase.hand)
  {
    var life := f.lives[l].it;
    var e := WrittenEvent(r, life.phase.seen, LifeNeed(a, life), life.phase.hand);
    AfterWrite(f, r, l, AppendEvent(f.db, r, |life.phase.seen| + 1, e, Some(life.token)), e)
  }

  function ActIt(a: Agent, f: State, r: RunId, l: nat, outcome: Value): State
    requires LiveIn(f, r, l) && LifeNeed(a, f.lives[l].it).Perform?
  {
    var life := f.lives[l].it;
    var intent := |life.phase.seen|;
    match PerformOnce(f.db, r, intent, intent + 1, LifeNeed(a, life).fn, Yields(outcome), Some(life.token))
    case Ok((after, result)) => SeeMore(f, r, l, after, ToolCompleted(MakeKey(r, intent), result))
    case Err(error) => AfterWrite(f, r, l, Err(error), ToolCompleted(MakeKey(r, intent), outcome))
  }

  function EndIt(a: Agent, f: State, r: RunId, l: nat): State
    requires LiveIn(f, r, l)
  {
    var need, token, run := LifeNeed(a, f.lives[l].it), f.lives[l].it.token, f.db.runs[r];
    var settled :=
      if need.Finish? then CompletedBy(run, token)
      else ParkedBy(run, token, if need.Await? then Paused else Failed);
    f.(db := WithRow(f.db, r, settled), lives := f.lives - {l})
  }

  function BeatIt(f: State, r: RunId, worker: string, expiry: int): State
    requires r in f.db.runs
  {
    f.(db := WithRow(f.db, r, Beaten(f.db.runs[r], worker, expiry)))
  }

  function DecideIt(f: State, r: RunId, g: nat, approved: bool): State {
    f.(grants := f.grants[g := Of(r, Decided(|ReadEvents(Rows(f.db, r))| + 1, approved))])
  }

  function RecordIt(f: State, r: RunId, g: nat): State
    requires g in f.grants && f.grants[g].it.Decided?
  {
    var grant := f.grants[g].it;
    match AppendEvent(f.db, r, grant.slot, Approval(grant.approved), None)
    case Ok(after) => f.(db := after, grants := f.grants[g := Of(r, Recorded)])
    case Err(_) => f.(grants := f.grants - {g})
  }

  function RequeueIt(f: State, r: RunId, g: nat): State {
    match SetStatus(f.db, r, Queued)
    case Ok(after) => f.(db := after, grants := f.grants - {g})
    case Err(_) => f.(grants := f.grants - {g})
  }

  ghost function LocalStep(a: Agent, f: State, r: RunId, act: Action): State
    requires Known(f, r) && Enabled(a, View(f, r), act)
  {
    match act
    case Claim(l, worker, expiry) => ClaimIt(f, r, l, worker, expiry)
    case Build(l) => BuildIt(f, r, l)
    case Consult(l, answer) => ConsultIt(f, r, l, answer)
    case Write(l) => WriteIt(a, f, r, l)
    case Act(l, outcome) => ActIt(a, f, r, l, outcome)
    case End(l) => EndIt(a, f, r, l)
    case Throw(l) => BreakLife(f, r, l)
    case Die(l) => LoseLife(f, l)
    case Beat(worker, expiry) => BeatIt(f, r, worker, expiry)
    case Sweep(_) => f
    case Decide(g, approved) => DecideIt(f, r, g, approved)
    case Record(g) => RecordIt(f, r, g)
    case Requeue(g) => RequeueIt(f, r, g)
  }

  ghost function Next(code: Code, f: State, step: Step): State
    requires Enables(code, f, step)
  {
    match step
    case Local(r, act) => LocalStep(code(f.db.runs[r].agent), f, r, act)
    case Enqueue(r, agent, input) => f.(db := Insert(f.db, r, agent, input, Queued))
    case Forking(parent, at, patch, child) => f.(db := Fork(f.db, parent, at, patch, child).value)
    case Sweeping(now) => f.(db := SweepAll(f.db, now))
  }

  // ----- the invariant of the fleet -----

  /** Every table row belongs to a run that exists. */
  ghost predicate Owned(f: State) {
    && (forall r :: r in f.db.events ==> r in f.db.runs)
    && (forall k :: k in f.db.keys ==> exists r :: r in f.db.runs && KeyOf(k, r))
    && (forall i :: 0 <= i < |f.db.journal| ==> f.db.journal[i].run in f.db.runs)
    && (forall l :: l in f.lives ==> f.lives[l].run in f.db.runs)
    && (forall g :: g in f.grants ==> f.grants[g].run in f.db.runs)
    && (forall r :: r in f.bills ==> r in f.db.runs)
  }

  /** A fork's parent is an older run whose diary still starts with what the fork copied. */
  ghost predicate Copies(f: State, child: RunId)
    requires child in f.db.runs && f.db.runs[child].parent.Some?
  {
    var Origin(parent, at) := f.db.runs[child].parent.value;
    && Known(f, parent) && Known(f, child)
    && f.db.runs[parent].created < f.db.runs[child].created
    && 1 <= at <= |Rows(f.db, parent)| && at + 1 <= |Rows(f.db, child)|
    && Events(View(f, child).diary)[..at] == Events(View(f, parent).diary)[..at]
    && Events(View(f, child).diary)[at].PatchApplied?
  }

  ghost predicate Lineage(f: State) {
    && (forall r :: r in f.db.runs ==> f.db.runs[r].created < |f.db.runs|)
    && (forall r :: r in f.db.runs && f.db.runs[r].parent.Some? ==> Copies(f, r))
  }

  ghost predicate AllKnown(f: State) {
    forall r :: r in f.db.runs ==> Known(f, r)
  }

  ghost predicate FleetInv(code: Code, f: State) {
    && Owned(f)
    && AllKnown(f)
    && (forall r :: r in f.db.runs ==> Inv(code(f.db.runs[r].agent), View(f, r)))
    && Lineage(f)
  }

  /** An execution of the fleet: from the empty database, one enabled step after another. */
  ghost predicate Execution(code: Code, fs: seq<State>, steps: seq<Step>) {
    && |fs| == |steps| + 1
    && fs[0] == Initial
    && forall i :: 0 <= i < |steps| ==> Enables(code, fs[i], steps[i]) && fs[i + 1] == Next(code, fs[i], steps[i])
  }
}

/** Everything the fleet does to one run, as a transition system: any number of worker
    lives, zombies among them, the sweeper, and humans who record decisions in two
    separate commits. Each action is one database transaction, or none. */
module Protocol {
  import opened Diary
  import opened Engine
  import opened Timelines
  import opened Tables

  /** Where one life of the run is. `seen` is the history its Context read, followed by
      what it appended itself; `hand` is a model answer not yet appended. */
  datatype Phase = Fresh | Live(seen: seq<Event>, hand: Option<string>)

  datatype Life = Life(worker: string, token: nat, phase: Phase)

  /** A human's decision: not yet inserted at seq `slot`, or inserted but the run not yet requeued. */
  datatype Grant = Decided(slot: nat, approved: bool) | Recorded

  /** Model calls made for the run; lives that ended by a crash or were fenced out; and how
      many of those held a model answer that they had not recorded. */
  datatype Bill = Bill(calls: nat, lost: nat, spilled: nat)

  predicate Holding(life: Life) {
    life.phase.Live? && life.phase.hand.Some?
  }

  function Charged(bill: Bill, life: Life): Bill {
    bill.(lost := bill.lost + 1, spilled := bill.spilled + if Holding(life) then 1 else 0)
  }

  /** One run with its rows in every table and the processes working on it. */
  datatype Cell = Cell(
    id: RunId, run: Run, diary: seq<Entry>, keys: map<string, Value>, commits: seq<Commit>,
    lives: map<nat, Life>, grants: map<nat, Grant>, bill: Bill)

  datatype Action =
    | Claim(life: nat, worker: string, expiry: int)  // claim_run
    | Build(life: nat)                               // Context.__init__ reads the diary
    | Consult(life: nat, answer: string)             // the model answers
    | Write(life: nat)                               // fenced append_event
    | Act(life: nat, result: Value)                  // fenced _perform_once
    | End(life: nat)                                 // complete, park as paused, park as failed
    | Throw(life: nat)                               // the model or the effect raised: park as failed
    | Die(life: nat)                                 // the worker process is killed
    | Beat(worker: string, expiry: int)              // heartbeat
    | Sweep(now: int)                                // sweep_expired
    | Decide(grant: nat, approved: bool)             // grant_approval reads the diary
    | Record(grant: nat)                             // its unfenced append_event
    | Requeue(grant: nat)                            // its set_run_status

  function LifeNeed(a: Agent, life: Life): Need
    requires life.phase.Live?
  {
    NeedOf(a, life.phase.seen)
  }

  predicate IsLive(c: Cell, l: nat) {
    l in c.lives && c.lives[l].phase.Live?
  }

  predicate Enabled(a: Agent, c: Cell, act: Action) {
    match act
    case Claim(l, _, _) => c.run.status == Queued && l !in c.lives
    case Build(l) => l in c.lives && c.lives[l].phase.Fresh?
    case Consult(l, _) => IsLive(c, l) && c.lives[l].phase.hand.None? && LifeNeed(a, c.lives[l]).Call?
    case Write(l) => IsLive(c, l) && WritesAlone(LifeNeed(a, c.lives[l]), c.lives[l].phase.hand)
    case Act(l, _) => IsLive(c, l) && LifeNeed(a, c.lives[l]).Perform?
    case End(l) => IsLive(c, l) && !Writes(LifeNeed(a, c.lives[l]))
    case Throw(l) => IsLive(c, l) && MayThrow(LifeNeed(a, c.lives[l]), c.lives[l].phase.hand)
    case Die(l) => l in c.lives
    case Beat(_, _) => true
    case Sweep(_) => true
    case Decide(g, _) => g !in c.grants && AwaitsDecision(Events(c.diary))
    case Record(g) => g in c.grants && c.grants[g].Decided?
    case Requeue(g) => g in c.grants && c.grants[g].Recorded?
  }

  /** A plain append is due: a model answer in hand, an intent, or a question. */
  predicate WritesAlone(need: Need, hand: Option<string>) {
    (need.Call? && hand.Some?) || need.Intend? || need.Request?
  }

  /** The model is being called, or an effect runs. */
  predicate MayThrow(need: Need, hand: Option<string>) {
    (need.Call? && hand.None?) || need.Perform?
  }

  predicate AwaitsDecision(h: seq<Event>) {
    |h| > 0 && h[|h| - 1].ApprovalRequested?
  }

  /** The event a plain append writes at seq |seen| + 1. */
  function WrittenEvent(id: RunId, seen: seq<Event>, need: Need, hand: Option<string>): Event
    requires WritesAlone(need, hand)
  {
    match need
    case Call(prompt) => LlmCalled(prompt, hand.value)
    case Intend(_) => ToolIntent(MakeKey(id, |seen| + 1))
    case Request(question) => ApprovalRequested(question)
  }

  /** The life `l` is over. */
  function Without(c: Cell, l: nat): Cell {
    c.(lives := c.lives - {l})
  }

  /** The life `l` ended by a crash or by StaleFenceError; the database is untouched. */
  function Lose(c: Cell, l: nat): Cell
    requires l in c.lives
  {
    Without(c, l).(bill := Charged(c.bill, c.lives[l]))
  }

  /** The life `l` committed the event `e` as the next row of its diary. */
  function Appended(c: Cell, l: nat, e: Event): Cell
    requires IsLive(c, l)
  {
    var life := c.lives[l];
    c.(diary := c.diary + [Entry(e, life.token)],
       lives := c.lives[l := life.(phase := Live(life.phase.seen + [e], None))])
  }

  /** An exception in the life `l`: the run is parked as failed, if the lease is still held. */
  function Broken(c: Cell, l: nat): Cell
    requires l in c.lives
  {
    Without(c.(run := ParkedBy(c.run, c.lives[l].token, Failed)), l)
  }

  function DoWrite(a: Agent, c: Cell, l: nat): Cell
    requires Enabled(a, c, Write(l))
  {
    var life := c.lives[l];
    if life.token != c.run.token then Lose(c, l)
    else if |life.phase.seen| < |c.diary| then Broken(c, l)
    else Appended(c, l, WrittenEvent(c.id, life.phase.seen, LifeNeed(a, life), life.phase.hand))
  }

  function DoAct(a: Agent, c: Cell, l: nat, result: Value): Cell
    requires Enabled(a, c, Act(l, result))
  {
    var life := c.lives[l];
    var slot := |life.phase.seen|;
    var key := MakeKey(c.id, slot);
    if life.token != c.run.token then Lose(c, l)
    else if slot < |c.diary| then Broken(c, l)
    else if key in c.keys then Appended(c, l, ToolCompleted(key, c.keys[key]))
    else
      Appended(c, l, ToolCompleted(key, result)).(
        keys := c.keys[key := result],
        commits := c.commits + [Commit(c.id, slot, LifeNeed(a, life).fn, result)])
  }

  function DoEnd(a: Agent, c: Cell, l: nat): Cell
    requires Enabled(a, c, End(l))
  {
    var life := c.lives[l];
    match LifeNeed(a, life)
    case Finish(_) => Without(c.(run := CompletedBy(c.run, life.token)), l)
    case Await(_) => Without(c.(run := ParkedBy(c.run, life.token, Paused)), l)
    case _ => Broken(c, l)
  }

  function DoRecord(c: Cell, g: nat): Cell
    requires g in c.grants && c.grants[g].Decided?
  {
    var grant := c.grants[g];
    if grant.slot <= |c.diary| then c.(grants := c.grants - {g})
    else c.(diary := c.diary + [Entry(Approval(grant.approved), 0)], grants := c.grants[g := Recorded])
  }

  function Do(a: Agent, c: Cell, act: Action): Cell
    requires Enabled(a, c, act)
  {
    match act
    case Claim(l, worker, expiry) =>
      var run := Claimed(c.run, worker, expiry);
      c.(run := run, lives := c.lives[l := Life(worker, run.token, Fresh)])
    case Build(l) => c.(lives := c.lives[l := c.lives[l].(phase := Live(Events(c.diary), None))])
    case Consult(l, answer) =>
      c.(lives := c.lives[l := c.lives[l].(phase := Live(c.lives[l].phase.seen, Some(answer)))],
         bill := c.bill.(calls := c.bill.calls + 1))
    case Write(l) => DoWrite(a, c, l)
    case Act(l, result) => DoAct(a, c, l, result)
    case End(l) => DoEnd(a, c, l)
    case Throw(l) => Broken(c, l)
    case Die(l) => Lose(c, l)
    case Beat(worker, expiry) => c.(run := Beaten(c.run, worker, expiry))
    case Sweep(now) => c.(run := Swept(c.run, now))
    case Decide(g, approved) => c.(grants := c.grants[g := Decided(|c.diary| + 1, approved)])
    case Record(g) => DoRecord(c, g)
    case Requeue(g) => c.(run := c.run.(status := Queued), grants := c.grants - {g})
  }

  // ----- what every reachable state satisfies -----

  /** The diary is a trace of the agent; beyond its floor it holds no patch. */
  ghost predicate Diarized(a: Agent, run: Run, h: seq<Event>) {
    && Trace(a, h)
    && Floor(run) <= |h|
    && (Floor(run) > 0 ==> h[Floor(run) - 1].PatchApplied?)
    && (forall i :: Floor(run) <= i < |h| ==> !h[i].PatchApplied?)
  }

  /** The intents and completions a run wrote itself carry its own keys. */
  ghost predicate OwnKeys(id: RunId, floor: nat, h: seq<Event>) {
    forall i :: floor <= i < |h| ==>
      && (h[i].ToolIntent? ==> h[i].key == MakeKey(id, i + 1))
      && (h[i].ToolCompleted? ==> h[i].key == MakeKey(id, i))
  }

  /** Each effect the diary shows as performed by this run committed, once, with the
      recorded result, and nothing else did; completed_keys says the same. */
  ghost predicate Exact(a: Agent, c: Cell) {
    && c.commits == Performed(a, c.id, Events(c.diary), Start, Floor(c.run))
    && c.keys == KeysOf(c.commits)
    && OwnKeys(c.id, Floor(c.run), Events(c.diary))
  }

  /** Lease tokens in the diary are non-decreasing, zeroes aside, and never in the future. */
  ghost predicate Stamped(run: Run, d: seq<Entry>) {
    && (forall i :: 0 <= i < |d| ==> d[i].token <= run.token)
    && (forall i :: 0 <= i < |d| && i < Floor(run) ==> d[i].token == 0)
    && (forall i, j :: 0 <= i < j < |d| && d[j].token != 0 ==> d[i].token <= d[j].token)
  }

  /** A life that holds the current token has seen the whole diary, except that a human
      may have answered the question it halted at. */
  ghost predicate CaughtUp(a: Agent, h: seq<Event>, seen: seq<Event>) {
    seen == h || (NeedOf(a, seen).Await? && |h| == |seen| + 1 && h[|seen|].Approval?)
  }

  ghost predicate LifeOk(a: Agent, run: Run, h: seq<Event>, life: Life) {
    && 1 <= life.token <= run.token
    && (life.phase.Live? ==>
        var seen := life.phase.seen;
        && Floor(run) <= |seen| <= |h|
        && seen == h[..|seen|]
        && Trace(a, seen)
        && (life.phase.hand.Some? ==> NeedOf(a, seen).Call?)
        && (life.token == run.token ==> CaughtUp(a, h, seen)))
  }

  ghost predicate Leased(a: Agent, c: Cell) {
    && (forall l :: l in c.lives ==> LifeOk(a, c.run, Events(c.diary), c.lives[l]))
    && (forall l, m :: l in c.lives && m in c.lives && l != m ==> c.lives[l].token != c.lives[m].token)
    && (c.run.status == Paused || c.run.status == Completed || c.run.status == Failed ==>
        forall l :: l in c.lives ==> c.lives[l].token != c.run.token)
  }

  ghost predicate InFlight(c: Cell) {
    exists g :: g in c.grants && c.grants[g].Recorded?
  }

  /** The current life waits for an answer that is already in the diary. */
  predicate Overtaken(c: Cell, l: nat) {
    IsLive(c, l) && c.lives[l].token == c.run.token && |c.lives[l].phase.seen| < |c.diary|
  }

  ghost predicate SomeOvertaken(c: Cell) {
    exists l :: Overtaken(c, l)
  }

  /** Where a life can raise: in the agent, in the model or in an effect. */
  predicate Failing(need: Need) {
    need.Fail? || need.Call? || need.Perform?
  }

  /** What the status column promises. */
  ghost predicate Gated(a: Agent, c: Cell) {
    && (c.run.status == Running ==> c.run.owner.Some? && c.run.expiry.Some?)
    && (c.run.status == Completed ==> NeedOf(a, Events(c.diary)).Finish?)
    && (c.run.status == Failed ==> Failing(NeedOf(a, Events(c.diary))))
    && (c.run.status == Paused ==> NeedOf(a, Events(c.diary)).Await? || InFlight(c))
    && (c.run.status == Running && SomeOvertaken(c) ==> InFlight(c))
    && GrantsOk(c)
  }

  /** A decision not yet inserted was taken on a question that is in the diary. */
  ghost predicate GrantsOk(c: Cell) {
    forall g :: g in c.grants && c.grants[g].Decided? ==>
      2 <= c.grants[g].slot <= |c.diary| + 1 && c.diary[c.grants[g].slot - 2].event.ApprovalRequested?
  }

  function OwnCalls(h: seq<Event>, floor: nat): nat
    decreases |h|
  {
    if |h| <= floor then 0
    else OwnCalls(h[..|h| - 1], floor) + if h[|h| - 1].LlmCalled? then 1 else 0
  }

  function InHand(lives: map<nat, Life>): set<nat> {
    set l | l in lives && Holding(lives[l])
  }

  /** The model was called once for every recorded call, every answer in hand, and every
      answer that was lost with the life that held it; nothing else was ever paid for. */
  ghost predicate Billed(c: Cell) {
    && c.bill.calls == OwnCalls(Events(c.diary), Floor(c.run)) + |InHand(c.lives)| + c.bill.spilled
    && c.bill.spilled <= c.bill.lost
  }

  ghost predicate Inv(a: Agent, c: Cell) {
    && Diarized(a, c.run, Events(c.diary))
    && Exact(a, c)
    && Stamped(c.run, c.diary)
    && Leased(a, c)
    && Gated(a, c)
    && Billed(c)
  }
}

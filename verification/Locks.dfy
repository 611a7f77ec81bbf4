/** Below the atomic actions: the statements of concurrent transactions on one run, with
    the row lock of the runs table and the unique index of the events table. A statement
    that takes the row lock waits for it and evaluates its WHERE clause on the row as last
    committed; SKIP LOCKED does not see a locked row; what a transaction wrote is invisible
    until it commits; an insert waits while another transaction has inserted the same key. */
module Locks {
  import opened Diary
  import opened Engine
  import opened Timelines
  import opened Tables
  import opened Protocol
  import opened Store

  /** How far a transaction is, with what its statements have read and written. */
  datatype Stage =
    | Begun
    | Locked                                   // holds the row lock, the WHERE clause matched
    | Keyed(completion: Event, commit: Option<Commit>) // completed_keys consulted, effect run if new
    | Staged(row: Option<Run>, entry: Option<Row>, commit: Option<Commit>)

  datatype Tx = Tx(act: Action, stage: Stage)

  /** The committed tables and processes of one run, the row lock, and the open transactions. */
  datatype Low = Low(
    id: RunId, run: Run, rows: map<nat, Entry>, keys: map<string, Value>, commits: seq<Commit>,
    lives: map<nat, Life>, grants: map<nat, Grant>, bill: Bill,
    lock: Option<nat>, txs: map<nat, Tx>)

  /** What the committed tables show: the state of the atomic protocol. */
  ghost function Abs(s: Low): Cell
    requires Dense(s.rows)
  {
    Cell(s.id, s.run, DiaryOf(s.rows), s.keys, s.commits, s.lives, s.grants, s.bill)
  }

  datatype Statement =
    | Begin(tx: nat, act: Action)
    | Acquire(tx: nat)            // SELECT ... FOR UPDATE [SKIP LOCKED], or UPDATE ... WHERE
    | LookUp(tx: nat)       // SELECT from completed_keys, the effect, INSERT of its key
    | WriteRow(tx: nat)          // the UPDATE of a claim, the INSERT of an event
    | CommitTx(tx: nat)
    | Rollback(tx: nat)           // an exception, or the death of the connection
    | Alone(act: Action)          // an action that is a single read, or no statement at all
    | Kill(life: nat)             // the process dies; its transaction rolls back

  /** A transaction that a life runs under its token. */
  predicate OfLife(act: Action) {
    act.Write? || act.Act? || act.End? || act.Throw?
  }

  predicate Transactional(act: Action) {
    OfLife(act) || act.Claim? || act.Beat? || act.Sweep? || act.Record? || act.Requeue?
  }

  datatype Subject = LifeOf(life: nat) | GrantOf(grant: nat) | Nobody

  /** The process that runs the transaction, and does nothing else meanwhile. */
  function SubjectOf(act: Action): Subject {
    match act
    case Claim(l, _, _) => LifeOf(l)
    case Build(l) => LifeOf(l)
    case Consult(l, _) => LifeOf(l)
    case Write(l) => LifeOf(l)
    case Act(l, _) => LifeOf(l)
    case End(l) => LifeOf(l)
    case Throw(l) => LifeOf(l)
    case Die(l) => LifeOf(l)
    case Decide(g, _) => GrantOf(g)
    case Record(g) => GrantOf(g)
    case Requeue(g) => GrantOf(g)
    case _ => Nobody
  }

  predicate Busy(s: Low, x: Subject) {
    x != Nobody && exists t :: t in s.txs && SubjectOf(s.txs[t].act) == x
  }

  /** The process is where the program issues this transaction; what the database will
      say to it is not known yet. */
  predicate Issues(a: Agent, s: Low, act: Action) {
    match act
    case Claim(l, _, _) => l !in s.lives
    case Write(l) => Alive(s, l) && WritesAlone(LifeNeed(a, s.lives[l]), s.lives[l].phase.hand)
    case Act(l, _) => Alive(s, l) && LifeNeed(a, s.lives[l]).Perform?
    case End(l) => Alive(s, l) && !Writes(LifeNeed(a, s.lives[l]))
    case Throw(l) => Alive(s, l) && MayThrow(LifeNeed(a, s.lives[l]), s.lives[l].phase.hand)
    case Record(g) => g in s.grants && s.grants[g].Decided?
    case Requeue(g) => g in s.grants && s.grants[g].Recorded?
    case _ => true
  }

  predicate Alive(s: Low, l: nat) {
    l in s.lives && s.lives[l].phase.Live?
  }

  function SlotOf(s: Low, act: Action): nat
    requires act.Write? || act.Act? ==> Alive(s, act.life)
    requires act.Record? ==> act.grant in s.grants && s.grants[act.grant].Decided?
  {
    if act.Write? || act.Act? then |s.lives[act.life].phase.seen| + 1
    else if act.Record? then s.grants[act.grant].slot
    else 0
  }

  predicate Inserts(act: Action) {
    act.Write? || act.Act? || act.Record?
  }

  /** No other open transaction has inserted this seq: the unique index lets us go on. */
  predicate IndexFree(s: Low, t: nat, slot: nat) {
    forall u :: u in s.txs && u != t && s.txs[u].stage.Staged? && s.txs[u].stage.entry.Some? ==>
      s.txs[u].stage.entry.value.slot != slot
  }

  predicate At(s: Low, t: nat, stage: Stage) {
    t in s.txs && s.txs[t].stage == stage
  }

  /** The WHERE clause of the locking statement, on the row as last committed. When it
      matches, the statement needs the lock; when it does not, it finds no row. */
  predicate Matches(a: Agent, s: Low, act: Action)
    requires Issues(a, s, act)
  {
    match act
    case Claim(_, _, _) => s.run.status == Queued
    case Write(l) => s.run.token == s.lives[l].token
    case Act(l, _) => s.run.token == s.lives[l].token
    case _ => Updated(a, s, act).Some?
  }

  ghost predicate Executable(a: Agent, s: Low, st: Statement) {
    match st
    case Begin(t, act) =>
      t !in s.txs && Transactional(act) && Issues(a, s, act) && !Busy(s, SubjectOf(act))
    case Acquire(t) =>
      && At(s, t, Begun) && !s.txs[t].act.Record? && Issues(a, s, s.txs[t].act)
      && (Matches(a, s, s.txs[t].act) ==> s.lock.None?)
      && (s.txs[t].act.Claim? ==> Matches(a, s, s.txs[t].act))
    case LookUp(t) => At(s, t, Locked) && s.txs[t].act.Act? && Issues(a, s, s.txs[t].act)
    case WriteRow(t) =>
      && t in s.txs
      && ((s.txs[t].act.Claim? && s.txs[t].stage.Locked?)
       || (s.txs[t].act.Write? && s.txs[t].stage.Locked?)
       || (s.txs[t].act.Act? && s.txs[t].stage.Keyed?)
       || (s.txs[t].act.Record? && s.txs[t].stage.Begun?))
      && Issues(a, s, s.txs[t].act)
      && (Inserts(s.txs[t].act) ==> IndexFree(s, t, SlotOf(s, s.txs[t].act)))
    case CommitTx(t) => t in s.txs && s.txs[t].stage.Staged? && Issues(a, s, s.txs[t].act)
    case Rollback(t) => t in s.txs
    case Alone(act) =>
      && (act.Build? || act.Consult? || act.Decide?)
      && Dense(s.rows) && Enabled(a, Abs(s), act) && !Busy(s, SubjectOf(act))
    case Kill(l) => l in s.lives
  }

  // ----- effects of the statements -----

  function Close(s: Low, t: nat): Low {
    s.(txs := s.txs - {t}, lock := if s.lock == Some(t) then None else s.lock)
  }

  function Move(s: Low, t: nat, stage: Stage): Low
    requires t in s.txs
  {
    s.(txs := s.txs[t := s.txs[t].(stage := stage)])
  }

  function Take(s: Low, t: nat, stage: Stage): Low
    requires t in s.txs
  {
    Move(s, t, stage).(lock := Some(t))
  }

  function Drop(s: Low, l: nat): Low {
    s.(lives := s.lives - {l})
  }

  function DropLost(s: Low, l: nat): Low
    requires l in s.lives
  {
    Drop(s, l).(bill := Charged(s.bill, s.lives[l]))
  }

  /** What the UPDATE of this action makes of a row that its WHERE clause matches. */
  function Updated(a: Agent, s: Low, act: Action): Option<Run>
    requires Issues(a, s, act)
  {
    match act
    case End(l) =>
      var need, token := LifeNeed(a, s.lives[l]), s.lives[l].token;
      if !Held(s.run, token) then None
      else if need.Finish? then Some(s.run.(status := Completed))
      else Some(s.run.(status := if need.Await? then Paused else Failed, owner := None, expiry := None))
    case Throw(l) =>
      if Held(s.run, s.lives[l].token) then Some(s.run.(status := Failed, owner := None, expiry := None)) else None
    case Beat(worker, expiry) => if Beats(s.run, worker) then Some(s.run.(expiry := Some(expiry))) else None
    case Sweep(now) =>
      if Lapsed(s.run, now) then Some(s.run.(status := Queued, owner := None, expiry := None)) else None
    case Requeue(_) => Some(s.run.(status := Queued))
    case _ => None
  }

  /** The conditional update that settles the run at the end of the life `l`. */
  function Settling(a: Agent, s: Low, t: nat, l: nat): Low
    requires t in s.txs && Issues(a, s, s.txs[t].act)
  {
    var row := Updated(a, s, s.txs[t].act);
    if row.Some? then Take(s, t, Staged(row, None, None)) else Drop(Close(s, t), l)
  }

  function Acquired(a: Agent, s: Low, t: nat): Low
    requires t in s.txs && Issues(a, s, s.txs[t].act)
  {
    var act := s.txs[t].act;
    match act
    case Claim(_, _, _) => Take(s, t, Locked)
    case Write(l) => if s.run.token == s.lives[l].token then Take(s, t, Locked) else DropLost(Close(s, t), l)
    case Act(l, _) => if s.run.token == s.lives[l].token then Take(s, t, Locked) else DropLost(Close(s, t), l)
    case End(l) => Settling(a, s, t, l)
    case Throw(l) => Settling(a, s, t, l)
    case _ =>
      var row := Updated(a, s, act);
      if row.Some? then Take(s, t, Staged(row, None, None)) else Close(s, t)
  }

  function Consulted(a: Agent, s: Low, t: nat): Low
    requires t in s.txs && s.txs[t].act.Act? && Issues(a, s, s.txs[t].act)
  {
    var Act(l, result) := s.txs[t].act;
    var slot := |s.lives[l].phase.seen|;
    var key := MakeKey(s.id, slot);
    if key in s.keys then Move(s, t, Keyed(ToolCompleted(key, s.keys[key]), None))
    else Move(s, t, Keyed(ToolCompleted(key, result), Some(Commit(s.id, slot, LifeNeed(a, s.lives[l]).fn, result))))
  }

  function Written(a: Agent, s: Low, t: nat): Low
    requires t in s.txs && Issues(a, s, s.txs[t].act)
    requires s.txs[t].act.Act? ==> s.txs[t].stage.Keyed?
  {
    var tx := s.txs[t];
    match tx.act
    case Claim(_, worker, expiry) => Move(s, t, Staged(Some(Claimed(s.run, worker, expiry)), None, None))
    case Write(l) =>
      var life, slot := s.lives[l], SlotOf(s, tx.act);
      var e := WrittenEvent(s.id, life.phase.seen, LifeNeed(a, life), life.phase.hand);
      if slot in s.rows then Drop(Close(s, t), l).(run := ParkedBy(s.run, life.token, Failed))
      else Move(s, t, Staged(None, Some(Row(slot, Entry(e, life.token))), None))
    case Act(l, _) =>
      var life, slot := s.lives[l], SlotOf(s, tx.act);
      if slot in s.rows then Drop(Close(s, t), l).(run := ParkedBy(s.run, life.token, Failed))
      else Move(s, t, Staged(None, Some(Row(slot, Entry(tx.stage.completion, life.token))), tx.stage.commit))
    case Record(g) =>
      var slot, e := SlotOf(s, tx.act), Approval(s.grants[g].approved);
      if slot in s.rows then Close(s, t).(grants := s.grants - {g})
      else Move(s, t, Staged(None, Some(Row(slot, Entry(e, 0))), None))
    case _ => s
  }

  /** The buffered writes become visible and the lock is released. */
  function Published(s: Low, t: nat): Low
    requires t in s.txs && s.txs[t].stage.Staged?
  {
    var Staged(row, entry, commit) := s.txs[t].stage;
    Close(s, t).(
      run := if row.Some? then row.value else s.run,
      rows := if entry.Some? then s.rows[entry.value.slot := entry.value.entry] else s.rows,
      keys :=
        if commit.Some? then s.keys[MakeKey(commit.value.run, commit.value.slot) := commit.value.result] else s.keys,
      commits := if commit.Some? then s.commits + [commit.value] else s.commits)
  }

  /** The call returns to the process that made it. */
  function Returned(s: Low, act: Action, entry: Option<Row>): Low {
    match act
    case Claim(l, worker, _) => s.(lives := s.lives[l := Life(worker, s.run.token, Fresh)])
    case Write(l) => Returns(s, l, entry)
    case Act(l, _) => Returns(s, l, entry)
    case End(l) => Drop(s, l)
    case Throw(l) => Drop(s, l)
    case Record(g) => s.(grants := s.grants[g := Recorded])
    case Requeue(g) => s.(grants := s.grants - {g})
    case _ => s
  }

  function Committed(s: Low, t: nat): Low
    requires t in s.txs && s.txs[t].stage.Staged?
  {
    Returned(Published(s, t), s.txs[t].act, s.txs[t].stage.entry)
  }

  /** The life has seen one more event: the one it wrote. */
  function Returns(s: Low, l: nat, entry: Option<Row>): Low {
    if entry.Some? && Alive(s, l) then
      s.(lives := s.lives[l := s.lives[l].(phase := Live(s.lives[l].phase.seen + [entry.value.entry.event], None))])
    else s
  }

  ghost function Killed(s: Low, l: nat): Low
    requires l in s.lives
  {
    var mine := set t | t in s.txs && SubjectOf(s.txs[t].act) == LifeOf(l);
    DropLost(s, l).(txs := s.txs - mine, lock := if s.lock.Some? && s.lock.value in mine then None else s.lock)
  }

  ghost function AloneDone(a: Agent, s: Low, act: Action): Low
    requires Dense(s.rows) && Enabled(a, Abs(s), act)
  {
    var d := Do(a, Abs(s), act);
    s.(lives := d.lives, grants := d.grants, bill := d.bill)
  }

  ghost function Executed(a: Agent, s: Low, st: Statement): Low
    requires Executable(a, s, st)
  {
    match st
    case Begin(t, act) => s.(txs := s.txs[t := Tx(act, Begun)])
    case Acquire(t) => Acquired(a, s, t)
    case LookUp(t) => Consulted(a, s, t)
    case WriteRow(t) => Written(a, s, t)
    case CommitTx(t) => Committed(s, t)
    case Rollback(t) => Close(s, t)
    case Alone(act) => AloneDone(a, s, act)
    case Kill(l) => Killed(s, l)
  }

  // ----- what holds between statements -----

  /** Whether a transaction at this stage holds the row lock. */
  predicate Holds(tx: Tx) {
    tx.stage != Begun && !tx.act.Record?
  }

  /** What a transaction has read is still so, and what it wrote can still be committed. */
  ghost predicate TxOk(a: Agent, s: Low, tx: Tx) {
    && Transactional(tx.act) && Issues(a, s, tx.act)
    && match tx.stage
       case Begun => true
       case Locked => LockedOk(s, tx.act)
       case Keyed(event, commit) => tx.act.Act? && LockedOk(s, tx.act) && KeyedOk(a, s, tx.act, event, commit)
       case Staged(row, entry, commit) =>
         (match tx.act
          case Claim(_, worker, expiry) =>
            s.run.status == Queued && row == Some(Claimed(s.run, worker, expiry)) && entry.None? && commit.None?
          case Write(l) =>
            var e := WrittenEvent(s.id, s.lives[l].phase.seen, LifeNeed(a, s.lives[l]), s.lives[l].phase.hand);
            LockedOk(s, tx.act) && row.None? && commit.None? && InsertOk(s, tx.act, entry, e)
          case Act(l, _) =>
            && LockedOk(s, tx.act) && row.None?
            && entry.Some? && KeyedOk(a, s, tx.act, entry.value.entry.event, commit)
            && InsertOk(s, tx.act, entry, entry.value.entry.event)
          case Record(g) =>
            row.None? && commit.None? && InsertOk(s, tx.act, entry, Approval(s.grants[g].approved))
          case _ => row.Some? && row == Updated(a, s, tx.act) && entry.None? && commit.None?)
  }

  ghost predicate LockedOk(s: Low, act: Action) {
    match act
    case Claim(_, _, _) => s.run.status == Queued
    case Write(l) => l in s.lives && s.lives[l].token == s.run.token
    case Act(l, _) => l in s.lives && s.lives[l].token == s.run.token
    case _ => false
  }

  ghost predicate KeyedOk(a: Agent, s: Low, act: Action, event: Event, commit: Option<Commit>)
    requires act.Act? && Issues(a, s, act)
  {
    var slot := |s.lives[act.life].phase.seen|;
    var key := MakeKey(s.id, slot);
    if key in s.keys then event == ToolCompleted(key, s.keys[key]) && commit.None?
    else (event == ToolCompleted(key, act.result)
          && commit == Some(Commit(s.id, slot, LifeNeed(a, s.lives[act.life]).fn, act.result)))
  }

  /** The staged row is the next one this process wants, and nobody has taken its seq. */
  ghost predicate InsertOk(s: Low, act: Action, entry: Option<Row>, e: Event)
    requires act.Write? || act.Act? ==> Alive(s, act.life)
    requires act.Record? ==> act.grant in s.grants && s.grants[act.grant].Decided?
  {
    var token := if act.Write? || act.Act? then s.lives[act.life].token else 0;
    && entry == Some(Row(SlotOf(s, act), Entry(e, token)))
    && SlotOf(s, act) !in s.rows
  }

  ghost predicate LowOk(a: Agent, s: Low) {
    && Dense(s.rows)
    && (forall t :: t in s.txs ==> TxOk(a, s, s.txs[t]))
    && (forall t :: t in s.txs && Holds(s.txs[t]) ==> s.lock == Some(t))
    && (forall t, u :: t in s.txs && u in s.txs && t != u && SubjectOf(s.txs[t].act) == SubjectOf(s.txs[u].act)
          ==> SubjectOf(s.txs[t].act) == Nobody)
    && (forall t, u :: t in s.txs && u in s.txs && t != u
          && s.txs[t].stage.Staged? && s.txs[t].stage.entry.Some?
          && s.txs[u].stage.Staged? && s.txs[u].stage.entry.Some?
          ==> s.txs[t].stage.entry.value.slot != s.txs[u].stage.entry.value.slot)
  }
}

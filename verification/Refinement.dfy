/** Interleaved statement by statement, the transactions of Timefork still do no more than
    the atomic actions: each statement changes nothing that is committed, or is one action. */
module Refinement {
  import opened Diary
  import opened Engine
  import opened Timelines
  import opened Tables
  import opened Protocol
  import opened Store
  import opened Locks
  import Safety

  /** The action of the atomic protocol that a statement realizes, if any. */
  function Realizes(a: Agent, s: Low, st: Statement): Option<Action>
    requires (st.Acquire? || st.WriteRow? || st.CommitTx?) ==> st.tx in s.txs && Issues(a, s, s.txs[st.tx].act)
  {
    match st
    case Acquire(t) =>
      var act := s.txs[t].act;
      if OfLife(act) && !Matches(a, s, act) then Some(act) else None
    case WriteRow(t) =>
      var act := s.txs[t].act;
      if Inserts(act) && SlotOf(s, act) in s.rows then Some(act) else None
    case CommitTx(t) => Some(s.txs[t].act)
    case Alone(act) => Some(act)
    case Kill(l) => Some(Die(l))
    case _ => None
  }

  ghost predicate Refines(a: Agent, s: Low, u: Low, act: Option<Action>)
    requires Dense(s.rows)
  {
    Dense(u.rows) &&
    match act
    case None => Abs(u) == Abs(s)
    case Some(x) => Enabled(a, Abs(s), x) && Abs(u) == Do(a, Abs(s), x)
  }

  // ----- what the other transactions rely on -----

  predicate SubjectSame(s: Low, u: Low, x: Subject) {
    match x
    case LifeOf(l) => (l in s.lives <==> l in u.lives) && (l in s.lives ==> s.lives[l] == u.lives[l])
    case GrantOf(g) => (g in s.grants <==> g in u.grants) && (g in s.grants ==> s.grants[g] == u.grants[g])
    case Nobody => true
  }

  predicate StagedSlot(tx: Tx, slot: nat) {
    tx.stage.Staged? && tx.stage.entry.Some? && tx.stage.entry.value.slot == slot
  }

  ghost predicate Undisturbed(s: Low, u: Low, tx: Tx) {
    && u.id == s.id
    && SubjectSame(s, u, SubjectOf(tx.act))
    && (Holds(tx) ==> u.run == s.run && u.keys == s.keys)
    && (forall slot :: StagedSlot(tx, slot) && slot in u.rows ==> slot in s.rows)
  }

  lemma TxOkKept(a: Agent, s: Low, u: Low, tx: Tx)
    requires TxOk(a, s, tx) && Undisturbed(s, u, tx)
    ensures TxOk(a, u, tx)
  {
    hide Replay;
    if tx.stage.Staged? && tx.stage.entry.Some? {
      assert StagedSlot(tx, tx.stage.entry.value.slot);
    }
  }

  /** Transaction `t` took a step, or closed. */
  lemma OneTxMoved(a: Agent, s: Low, u: Low, t: nat)
    requires LowOk(a, s) && t in s.txs && Dense(u.rows)
    requires forall v :: v in u.txs ==> v in s.txs && (v != t ==> u.txs[v] == s.txs[v])
    requires forall v :: v in s.txs && v != t ==> Undisturbed(s, u, s.txs[v])
    requires u.lock == s.lock || (s.lock.None? && u.lock == Some(t)) || (s.lock == Some(t) && u.lock.None?)
    requires t in u.txs ==>
      && u.txs[t].act == s.txs[t].act && TxOk(a, u, u.txs[t])
      && (Holds(u.txs[t]) ==> u.lock == Some(t))
      && (u.txs[t].stage.Staged? && u.txs[t].stage.entry.Some? ==> IndexFree(s, t, u.txs[t].stage.entry.value.slot))
    ensures LowOk(a, u)
  {
    hide TxOk, Undisturbed;
    forall v | v in u.txs ensures TxOk(a, u, u.txs[v]) {
      if v != t {
        TxOkKept(a, s, u, s.txs[v]);
      }
    }
  }

  // ----- the statements -----

  lemma BeginRefines(a: Agent, s: Low, t: nat, act: Action)
    requires LowOk(a, s) && Executable(a, s, Begin(t, act))
    ensures LowOk(a, Executed(a, s, Begin(t, act))) && Abs(Executed(a, s, Begin(t, act))) == Abs(s)
  {
    hide TxOk, Undisturbed, Dense, NeedOf, Issues;
    var u := Executed(a, s, Begin(t, act));
    NewTxOk(a, s, t, act);
    forall v | v in u.txs ensures TxOk(a, u, u.txs[v]) {
      if v != t {
        NothingDisturbed(s, u, s.txs[v]);
        TxOkKept(a, s, u, s.txs[v]);
      }
    }
  }

  lemma NewTxOk(a: Agent, s: Low, t: nat, act: Action)
    requires Transactional(act) && Issues(a, s, act)
    ensures TxOk(a, s.(txs := s.txs[t := Tx(act, Begun)]), Tx(act, Begun))
  {
    hide NeedOf;
  }

  lemma NothingDisturbed(s: Low, u: Low, tx: Tx)
    requires u == s.(txs := u.txs, lock := u.lock)
    ensures Undisturbed(s, u, tx)
  {
  }

  /** Closing, or moving to a stage that touches no committed table. */
  lemma Private(a: Agent, s: Low, t: nat, u: Low)
    requires LowOk(a, s) && t in s.txs
    requires u == s.(txs := u.txs, lock := u.lock)
    requires forall v :: v in u.txs ==> v in s.txs && (v != t ==> u.txs[v] == s.txs[v])
    requires u.lock == s.lock || (s.lock.None? && u.lock == Some(t)) || (s.lock == Some(t) && u.lock.None?)
    requires t in u.txs ==>
      && u.txs[t].act == s.txs[t].act && TxOk(a, s, u.txs[t])
      && (Holds(u.txs[t]) ==> u.lock == Some(t))
      && (u.txs[t].stage.Staged? && u.txs[t].stage.entry.Some? ==> IndexFree(s, t, u.txs[t].stage.entry.value.slot))
    ensures LowOk(a, u) && Abs(u) == Abs(s)
  {
    forall v | v in s.txs ensures Undisturbed(s, u, s.txs[v]) {
    }
    if t in u.txs {
      assert Undisturbed(s, u, u.txs[t]);
      TxOkKept(a, s, u, u.txs[t]);
    }
    OneTxMoved(a, s, u, t);
  }

  /** Another transaction does not hold the lock when `t` does or when nobody does, and
      does not act for the same process. */
  lemma OthersFree(a: Agent, s: Low, t: nat, v: nat)
    requires LowOk(a, s) && t in s.txs && v in s.txs && v != t
    ensures s.lock.None? || s.lock == Some(t) ==> !Holds(s.txs[v])
    ensures SubjectOf(s.txs[v].act) != SubjectOf(s.txs[t].act) || SubjectOf(s.txs[t].act) == Nobody
  {
    hide TxOk;
  }

  /** The process of `t` ends, or goes on, without touching the tables; `t` is closed. */
  lemma ProcessMoved(a: Agent, s: Low, t: nat, u: Low)
    requires LowOk(a, s) && t in s.txs && SubjectOf(s.txs[t].act) != Nobody
    requires u == Close(s, t).(lives := u.lives, grants := u.grants, bill := u.bill, run := u.run)
    requires u.run == s.run || s.lock == Some(t)
    requires forall x :: x != SubjectOf(s.txs[t].act) ==> SubjectSame(s, u, x)
    ensures LowOk(a, u)
  {
    forall v | v in s.txs && v != t ensures Undisturbed(s, u, s.txs[v]) {
      OthersFree(a, s, t, v);
    }
    OneTxMoved(a, s, u, t);
  }

  lemma AcquireRefines(a: Agent, s: Low, t: nat)
    requires LowOk(a, s) && Executable(a, s, Acquire(t))
    ensures LowOk(a, Acquired(a, s, t)) && Refines(a, s, Acquired(a, s, t), Realizes(a, s, Acquire(t)))
  {
    hide NeedOf, LowOk, TxOk, Acquired, Matches;
    OkTx(a, s, t);
    var act, u := s.txs[t].act, Acquired(a, s, t);
    if Matches(a, s, act) {
      HitTakes(a, s, t);
      TakeRefines(a, s, t, u.txs[t].stage);
    } else if OfLife(act) {
      MissRefines(a, s, t);
    } else {
      MissCloses(a, s, t);
      RollbackRefines(a, s, t);
    }
  }

  lemma OkTx(a: Agent, s: Low, t: nat)
    requires LowOk(a, s) && t in s.txs
    ensures Dense(s.rows) && TxOk(a, s, s.txs[t])
  {
    hide TxOk;
  }

  /** The WHERE clause matched: the statement takes the lock and goes on. */
  ghost predicate Hit(a: Agent, s: Low, t: nat, u: Low)
    requires t in s.txs
  {
    && t in u.txs && u == Take(s, t, u.txs[t].stage)
    && TxOk(a, s, Tx(s.txs[t].act, u.txs[t].stage))
    && (u.txs[t].stage.Staged? ==> u.txs[t].stage.entry.None?)
  }

  lemma HitTakes(a: Agent, s: Low, t: nat)
    requires Executable(a, s, Acquire(t)) && TxOk(a, s, s.txs[t]) && Matches(a, s, s.txs[t].act)
    ensures Hit(a, s, t, Acquired(a, s, t)) && s.lock.None?
  {
    hide NeedOf, TxOk, Hit, Take;
    var act := s.txs[t].act;
    assert Transactional(act) by { TxTransactional(a, s, s.txs[t]); }
    if act.Claim? || act.Write? || act.Act? {
      FirstOfTwo(a, s, t);
    } else {
      OnlyUpdate(a, s, t);
    }
  }

  lemma TxTransactional(a: Agent, s: Low, tx: Tx)
    requires TxOk(a, s, tx)
    ensures Transactional(tx.act)
  {
    hide NeedOf;
  }

  /** The locking statement of a claim, a fenced append or a fenced effect. */
  lemma FirstOfTwo(a: Agent, s: Low, t: nat)
    requires t in s.txs && Issues(a, s, s.txs[t].act) && Matches(a, s, s.txs[t].act)
    requires s.txs[t].act.Claim? || s.txs[t].act.Write? || s.txs[t].act.Act?
    ensures Hit(a, s, t, Acquired(a, s, t))
  {
    hide NeedOf;
  }

  /** A transaction that is one update of the row. */
  lemma OnlyUpdate(a: Agent, s: Low, t: nat)
    requires t in s.txs && Issues(a, s, s.txs[t].act) && Matches(a, s, s.txs[t].act) && Transactional(s.txs[t].act)
    requires !(s.txs[t].act.Claim? || s.txs[t].act.Write? || s.txs[t].act.Act? || s.txs[t].act.Record?)
    ensures Hit(a, s, t, Acquired(a, s, t))
  {
    hide NeedOf, Updated, TxOk;
    var act := s.txs[t].act;
    UpdateOk(a, s, act, Updated(a, s, act));
  }

  lemma UpdateOk(a: Agent, s: Low, act: Action, row: Option<Run>)
    requires Issues(a, s, act) && Transactional(act) && row == Updated(a, s, act) && row.Some?
    requires !(act.Claim? || act.Write? || act.Act? || act.Record?)
    ensures TxOk(a, s, Tx(act, Staged(row, None, None)))
  {
    hide NeedOf, Updated;
  }

  /** A heartbeat, a sweep or a requeue whose WHERE clause found no row. */
  lemma MissCloses(a: Agent, s: Low, t: nat)
    requires Executable(a, s, Acquire(t)) && !OfLife(s.txs[t].act) && !Matches(a, s, s.txs[t].act)
    ensures Acquired(a, s, t) == Close(s, t)
  {
    hide NeedOf;
  }

  lemma TakeRefines(a: Agent, s: Low, t: nat, stage: Stage)
    requires LowOk(a, s) && t in s.txs && s.lock.None?
    requires TxOk(a, s, Tx(s.txs[t].act, stage)) && (stage.Staged? ==> stage.entry.None?)
    ensures LowOk(a, Take(s, t, stage)) && Abs(Take(s, t, stage)) == Abs(s)
  {
    hide TxOk;
    Private(a, s, t, Take(s, t, stage));
  }

  /** The WHERE clause found no row: fenced out, or nothing to settle. */
  lemma MissRefines(a: Agent, s: Low, t: nat)
    requires LowOk(a, s) && Executable(a, s, Acquire(t)) && OfLife(s.txs[t].act) && !Matches(a, s, s.txs[t].act)
    ensures LowOk(a, Acquired(a, s, t)) && Refines(a, s, Acquired(a, s, t), Some(s.txs[t].act))
  {
    hide NeedOf, LowOk, TxOk, Refines, SubjectSame, Matches, Acquired;
    OkTx(a, s, t);
    MissShape(a, s, t);
    ProcessMoved(a, s, t, Acquired(a, s, t));
    if s.txs[t].act.Write? || s.txs[t].act.Act? {
      FencedActs(a, s, t);
    } else {
      UnsettledActs(a, s, t);
    }
  }

  /** A life whose WHERE clause misses closes its transaction and ends. */
  lemma MissShape(a: Agent, s: Low, t: nat)
    requires t in s.txs && Issues(a, s, s.txs[t].act) && OfLife(s.txs[t].act) && !Matches(a, s, s.txs[t].act)
    ensures var act, u := s.txs[t].act, Acquired(a, s, t);
      && SubjectOf(act) != Nobody
      && u == Close(s, t).(lives := u.lives, bill := u.bill)
      && forall x :: x != SubjectOf(act) ==> SubjectSame(s, u, x)
  {
    hide NeedOf;
  }

  lemma FencedActs(a: Agent, s: Low, t: nat)
    requires Dense(s.rows) && t in s.txs && Issues(a, s, s.txs[t].act)
    requires (s.txs[t].act.Write? || s.txs[t].act.Act?) && !Matches(a, s, s.txs[t].act)
    ensures Refines(a, s, Acquired(a, s, t), Some(s.txs[t].act))
  {
    hide NeedOf, WrittenEvent, MakeKey, Dense, DiaryOf;
    var act := s.txs[t].act;
    assert Do(a, Abs(s), act) == Lose(Abs(s), act.life);
  }

  lemma UnsettledActs(a: Agent, s: Low, t: nat)
    requires Dense(s.rows) && t in s.txs && Issues(a, s, s.txs[t].act)
    requires (s.txs[t].act.End? || s.txs[t].act.Throw?) && !Matches(a, s, s.txs[t].act)
    ensures Refines(a, s, Acquired(a, s, t), Some(s.txs[t].act))
  {
    hide NeedOf, Dense, DiaryOf;
    var act := s.txs[t].act;
    assert Do(a, Abs(s), act) == Without(Abs(s), act.life);
  }

  lemma LookUpRefines(a: Agent, s: Low, t: nat)
    requires LowOk(a, s) && Executable(a, s, LookUp(t))
    ensures Issues(a, s, s.txs[t].act)
    ensures LowOk(a, Consulted(a, s, t)) && Abs(Consulted(a, s, t)) == Abs(s)
  {
    hide Replay, LowOk;
    OkTx(a, s, t);
    HoldsLock(a, s, t);
    Private(a, s, t, Consulted(a, s, t));
  }

  lemma HoldsLock(a: Agent, s: Low, t: nat)
    requires LowOk(a, s) && t in s.txs && Holds(s.txs[t])
    ensures s.lock == Some(t)
  {
    hide TxOk;
  }

  lemma WriteRowRefines(a: Agent, s: Low, t: nat)
    requires LowOk(a, s) && Executable(a, s, WriteRow(t))
    ensures LowOk(a, Written(a, s, t)) && Refines(a, s, Written(a, s, t), Realizes(a, s, WriteRow(t)))
  {
    hide NeedOf, LowOk, TxOk, Written, Holds;
    OkTx(a, s, t);
    var act := s.txs[t].act;
    if Inserts(act) && SlotOf(s, act) in s.rows {
      DuplicateRefines(a, s, t);
    } else {
      StagesRow(a, s, t);
      assert Stages(a, s, t, Written(a, s, t));
      if Holds(s.txs[t]) {
        HoldsLock(a, s, t);
      }
      Private(a, s, t, Written(a, s, t));
    }
  }

  /** What was written is kept with the transaction until it commits. */
  ghost predicate Stages(a: Agent, s: Low, t: nat, u: Low)
    requires t in s.txs
  {
    && t in u.txs && u == Move(s, t, u.txs[t].stage) && TxOk(a, s, u.txs[t])
    && (Holds(u.txs[t]) <==> Holds(s.txs[t]))
    && (u.txs[t].stage.Staged? && u.txs[t].stage.entry.Some? ==> IndexFree(s, t, u.txs[t].stage.entry.value.slot))
  }

  lemma StagesRow(a: Agent, s: Low, t: nat)
    requires Executable(a, s, WriteRow(t)) && TxOk(a, s, s.txs[t])
    requires !(Inserts(s.txs[t].act) && SlotOf(s, s.txs[t].act) in s.rows)
    ensures Stages(a, s, t, Written(a, s, t))
  {
    hide NeedOf, Written, TxOk, Stages, IndexFree;
    if s.txs[t].act.Claim? {
      StagesClaim(a, s, t);
    } else {
      StagesInsert(a, s, t);
    }
  }

  lemma StagesClaim(a: Agent, s: Low, t: nat)
    requires Executable(a, s, WriteRow(t)) && TxOk(a, s, s.txs[t]) && s.txs[t].act.Claim?
    ensures Stages(a, s, t, Written(a, s, t))
  {
    hide NeedOf;
  }

  lemma StagesInsert(a: Agent, s: Low, t: nat)
    requires Executable(a, s, WriteRow(t)) && TxOk(a, s, s.txs[t])
    requires Inserts(s.txs[t].act) && SlotOf(s, s.txs[t].act) !in s.rows
    ensures Stages(a, s, t, Written(a, s, t))
  {
    hide NeedOf, MakeKey, WrittenEvent, IndexFree;
  }

  lemma DuplicateRefines(a: Agent, s: Low, t: nat)
    requires LowOk(a, s) && Executable(a, s, WriteRow(t))
    requires Inserts(s.txs[t].act) && SlotOf(s, s.txs[t].act) in s.rows
    ensures LowOk(a, Written(a, s, t)) && Refines(a, s, Written(a, s, t), Some(s.txs[t].act))
  {
    hide NeedOf, MakeKey, WrittenEvent, LowOk, TxOk, Refines, SubjectSame, Written;
    OkTx(a, s, t);
    if !s.txs[t].act.Record? {
      HoldsLock(a, s, t);
    }
    DuplicateActs(a, s, t);
    DuplicateShape(a, s, t);
    ProcessMoved(a, s, t, Written(a, s, t));
  }

  /** An insert that finds its seq taken closes the transaction and ends its own process. */
  lemma DuplicateShape(a: Agent, s: Low, t: nat)
    requires Executable(a, s, WriteRow(t)) && Inserts(s.txs[t].act) && SlotOf(s, s.txs[t].act) in s.rows
    ensures var act, u := s.txs[t].act, Written(a, s, t);
      && SubjectOf(act) != Nobody
      && u == Close(s, t).(lives := u.lives, grants := u.grants, bill := u.bill, run := u.run)
      && (act.Record? ==> u.run == s.run)
      && forall x :: x != SubjectOf(act) ==> SubjectSame(s, u, x)
  {
    hide NeedOf, MakeKey, WrittenEvent;
  }

  lemma DuplicateActs(a: Agent, s: Low, t: nat)
    requires Dense(s.rows) && Executable(a, s, WriteRow(t)) && TxOk(a, s, s.txs[t])
    requires Inserts(s.txs[t].act) && SlotOf(s, s.txs[t].act) in s.rows
    ensures Refines(a, s, Written(a, s, t), Some(s.txs[t].act))
  {
    hide NeedOf, MakeKey, WrittenEvent;
  }

  // ----- commit -----

  /** The seq that a staged insert has reserved is the next one of the diary. */
  lemma StagedIsNext(a: Agent, s: Low, t: nat)
    requires LowOk(a, s) && Inv(a, Abs(s))
    requires t in s.txs && Inserts(s.txs[t].act) && s.txs[t].stage.Staged?
    ensures Issues(a, s, s.txs[t].act) && SlotOf(s, s.txs[t].act) == |s.rows| + 1
  {
    hide Replay, Performed, Exact, Stamped, Billed;
    var act, c := s.txs[t].act, Abs(s);
    assert TxOk(a, s, s.txs[t]);
    if act.Record? {
      assert c.grants[act.grant].slot <= |c.diary| + 1;
    } else {
      assert LifeOk(a, c.run, Events(c.diary), c.lives[act.life]);
    }
  }

  lemma ReturnedShape(s: Low, act: Action, entry: Option<Row>)
    ensures var u := Returned(s, act, entry);
      && u == s.(lives := u.lives, grants := u.grants)
      && forall x :: x != SubjectOf(act) ==> SubjectSame(s, u, x)
  {
  }

  lemma PublishDisturbsNone(a: Agent, s: Low, t: nat, v: nat)
    requires LowOk(a, s) && t in s.txs && s.txs[t].stage.Staged? && v in s.txs && v != t
    ensures Undisturbed(s, Published(s, t), s.txs[v])
  {
    OkTx(a, s, t);
    OthersFree(a, s, t, v);
    SlotsApart(a, s, t, v);
    if Holds(s.txs[v]) {
      HoldsLock(a, s, v);
      RecordIsLight(a, s, t);
    }
  }

  lemma SlotsApart(a: Agent, s: Low, t: nat, v: nat)
    requires LowOk(a, s) && t in s.txs && v in s.txs && v != t
    ensures forall slot :: StagedSlot(s.txs[t], slot) ==> !StagedSlot(s.txs[v], slot)
  {
    hide TxOk;
  }

  /** The one transaction that commits without the row lock writes a diary row, no more. */
  lemma RecordIsLight(a: Agent, s: Low, t: nat)
    requires t in s.txs && TxOk(a, s, s.txs[t]) && s.txs[t].act.Record? && s.txs[t].stage.Staged?
    ensures Published(s, t).run == s.run && Published(s, t).keys == s.keys
  {
  }

  lemma CommitKeeps(a: Agent, s: Low, t: nat)
    requires LowOk(a, s) && Inv(a, Abs(s)) && Executable(a, s, CommitTx(t))
    ensures LowOk(a, Committed(s, t))
  {
    hide Inv, TxOk, Returned, Undisturbed, Replay;
    var p, u := Published(s, t), Committed(s, t);
    ReturnedShape(p, s.txs[t].act, s.txs[t].stage.entry);
    forall v | v in s.txs && v != t ensures Undisturbed(s, u, s.txs[v]) {
      PublishDisturbsNone(a, s, t, v);
      OthersFree(a, s, t, v);
      UndisturbedThrough(s, p, u, s.txs[v]);
    }
    CommitDense(a, s, t);
    if Holds(s.txs[t]) {
      HoldsLock(a, s, t);
    }
    OneTxMoved(a, s, u, t);
  }

  lemma UndisturbedThrough(s: Low, p: Low, u: Low, tx: Tx)
    requires Undisturbed(s, p, tx) && u == p.(lives := u.lives, grants := u.grants)
    requires SubjectSame(p, u, SubjectOf(tx.act))
    ensures Undisturbed(s, u, tx)
  {
  }

  lemma CommitDense(a: Agent, s: Low, t: nat)
    requires LowOk(a, s) && Inv(a, Abs(s)) && t in s.txs && s.txs[t].stage.Staged?
    ensures Dense(Published(s, t).rows)
  {
    hide Inv, Replay;
    OkTx(a, s, t);
    if Inserts(s.txs[t].act) {
      StagedIsNext(a, s, t);
      DenseAppend(s.rows, s.txs[t].stage.entry.value.entry);
    }
  }

  lemma CommitActs(a: Agent, s: Low, t: nat)
    requires LowOk(a, s) && Inv(a, Abs(s)) && Executable(a, s, CommitTx(t))
    ensures Refines(a, s, Committed(s, t), Some(s.txs[t].act))
  {
    hide Replay, Inv, LowOk;
    OkTx(a, s, t);
    var act := s.txs[t].act;
    if Inserts(act) {
      StagedIsNext(a, s, t);
      DenseAppend(s.rows, s.txs[t].stage.entry.value.entry);
      InsertActs(a, s, t);
    } else {
      UpdateActs(a, s, t);
    }
  }

  lemma UpdateActs(a: Agent, s: Low, t: nat)
    requires Dense(s.rows) && t in s.txs && s.txs[t].stage.Staged? && TxOk(a, s, s.txs[t]) && !Inserts(s.txs[t].act)
    ensures Refines(a, s, Committed(s, t), Some(s.txs[t].act))
  {
    hide Replay, Dense;
    if s.txs[t].act.End? || s.txs[t].act.Throw? {
      SettleActs(a, s, t);
    } else if s.txs[t].act.Claim? {
      assert Committed(s, t).run == Claimed(s.run, s.txs[t].act.worker, s.txs[t].act.expiry);
    } else {
      RowUpdateActs(a, s, t);
    }
  }

  lemma SettleActs(a: Agent, s: Low, t: nat)
    requires Dense(s.rows) && t in s.txs && s.txs[t].stage.Staged? && TxOk(a, s, s.txs[t])
    requires s.txs[t].act.End? || s.txs[t].act.Throw?
    ensures Refines(a, s, Committed(s, t), Some(s.txs[t].act))
  {
    hide Replay, Dense;
    var act := s.txs[t].act;
    assert Do(a, Abs(s), act) == Without(Abs(s).(run := Updated(a, s, act).value), act.life);
  }

  lemma RowUpdateActs(a: Agent, s: Low, t: nat)
    requires Dense(s.rows) && t in s.txs && s.txs[t].stage.Staged? && TxOk(a, s, s.txs[t])
    requires s.txs[t].act.Beat? || s.txs[t].act.Sweep? || s.txs[t].act.Requeue?
    ensures Refines(a, s, Committed(s, t), Some(s.txs[t].act))
  {
    hide Dense, DiaryOf, NeedOf;
  }

  lemma InsertActs(a: Agent, s: Low, t: nat)
    requires Dense(s.rows) && t in s.txs && s.txs[t].stage.Staged? && TxOk(a, s, s.txs[t]) && Inserts(s.txs[t].act)
    requires SlotOf(s, s.txs[t].act) == |s.rows| + 1 && s.txs[t].stage.entry.Some?
    requires var e := s.txs[t].stage.entry.value.entry;
      Dense(s.rows[|s.rows| + 1 := e]) && DiaryOf(s.rows[|s.rows| + 1 := e]) == DiaryOf(s.rows) + [e]
    ensures Refines(a, s, Committed(s, t), Some(s.txs[t].act))
  {
    hide NeedOf, Dense, DiaryOf, MakeKey, WrittenEvent;
  }

  // ----- the rest -----

  /** A transaction that is rolled back, at whatever statement, leaves nothing but a free lock. */
  lemma RollbackRefines(a: Agent, s: Low, t: nat)
    requires LowOk(a, s) && t in s.txs
    ensures LowOk(a, Close(s, t)) && Abs(Close(s, t)) == Abs(s)
  {
    Private(a, s, t, Close(s, t));
  }

  lemma AloneRefines(a: Agent, s: Low, act: Action)
    requires LowOk(a, s) && Executable(a, s, Alone(act))
    ensures LowOk(a, AloneDone(a, s, act)) && Refines(a, s, AloneDone(a, s, act), Some(act))
  {
    hide Replay, TxOk, LowOk;
    assert Dense(s.rows) by { LowDense(a, s); }
    var u := AloneDone(a, s, act);
    forall v | v in u.txs ensures TxOk(a, u, u.txs[v]) {
      OkTx(a, s, v);
      assert Undisturbed(s, u, s.txs[v]);
      TxOkKept(a, s, u, s.txs[v]);
    }
    FewerTxs(a, s, u);
  }

  lemma LowDense(a: Agent, s: Low)
    requires LowOk(a, s)
    ensures Dense(s.rows)
  {
  }

  lemma KilledTxs(s: Low, l: nat)
    requires l in s.lives
    ensures var u := Killed(s, l);
      && u == DropLost(s, l).(txs := u.txs, lock := u.lock)
      && (forall v :: v in u.txs <==> v in s.txs && SubjectOf(s.txs[v].act) != LifeOf(l))
      && (forall v :: v in u.txs ==> u.txs[v] == s.txs[v] && (s.lock == Some(v) ==> u.lock == Some(v)))
  {
  }

  lemma KillTxs(a: Agent, s: Low, l: nat)
    requires LowOk(a, s) && l in s.lives
    ensures forall v :: v in Killed(s, l).txs ==> TxOk(a, Killed(s, l), Killed(s, l).txs[v])
  {
    hide Killed, TxOk, LowOk, Undisturbed, DropLost;
    KilledTxs(s, l);
    var u := Killed(s, l);
    forall v | v in u.txs ensures TxOk(a, u, u.txs[v]) {
      OkTx(a, s, v);
      NotKilled(s, u, l, s.txs[v]);
      TxOkKept(a, s, u, s.txs[v]);
    }
  }

  /** The transactions of other processes do not notice that a life was killed. */
  lemma NotKilled(s: Low, u: Low, l: nat, tx: Tx)
    requires l in s.lives && u == DropLost(s, l).(txs := u.txs, lock := u.lock) && SubjectOf(tx.act) != LifeOf(l)
    ensures Undisturbed(s, u, tx)
  {
  }

  lemma KillActs(a: Agent, s: Low, l: nat)
    requires Dense(s.rows) && l in s.lives
    ensures Refines(a, s, Killed(s, l), Some(Die(l)))
  {
    hide Dense, Replay;
  }

  /** The transactions that remain are some of those there were, and the lock with them. */
  lemma FewerTxs(a: Agent, s: Low, u: Low)
    requires LowOk(a, s) && Dense(u.rows) && forall v :: v in u.txs ==> TxOk(a, u, u.txs[v])
    requires forall v :: v in u.txs ==> v in s.txs && u.txs[v] == s.txs[v] && (s.lock == Some(v) ==> u.lock == Some(v))
    ensures LowOk(a, u)
  {
    hide TxOk, Dense;
  }

  lemma KillRefines(a: Agent, s: Low, l: nat)
    requires LowOk(a, s) && Executable(a, s, Kill(l))
    ensures LowOk(a, Killed(s, l)) && Refines(a, s, Killed(s, l), Some(Die(l)))
  {
    hide TxOk, Dense, Refines, NeedOf, Killed, LowOk;
    LowDense(a, s);
    KillTxs(a, s, l);
    KilledTxs(s, l);
    KillActs(a, s, l);
    assert Killed(s, l).rows == s.rows;
    FewerTxs(a, s, Killed(s, l));
  }

  /** Every statement, in any interleaving, is nothing or one enabled atomic action. */
  lemma StatementRefines(a: Agent, s: Low, st: Statement)
    requires LowOk(a, s) && Inv(a, Abs(s)) && Executable(a, s, st)
    ensures (st.Acquire? || st.WriteRow? || st.CommitTx?) ==> st.tx in s.txs && Issues(a, s, s.txs[st.tx].act)
    ensures LowOk(a, Executed(a, s, st))
    ensures Refines(a, s, Executed(a, s, st), Realizes(a, s, st))
  {
    hide Inv, TxOk, Do, Acquired, Written, Consulted, Committed, AloneDone, Killed, Issues;
    match st {
      case Begin(t, act) => BeginRefines(a, s, t, act);
      case Acquire(t) => AcquireRefines(a, s, t);
      case LookUp(t) => LookUpRefines(a, s, t);
      case WriteRow(t) => WriteRowRefines(a, s, t);
      case CommitTx(t) => CommitKeeps(a, s, t); CommitActs(a, s, t);
      case Rollback(t) => RollbackRefines(a, s, t);
      case Alone(act) => AloneRefines(a, s, act);
      case Kill(l) => KillRefines(a, s, l);
    }
  }
}

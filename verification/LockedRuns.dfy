/** Whole executions, statement by statement: they are runs of the atomic protocol, and the
    fencing token means over time what it means in one transaction. */
module LockedRuns {
  import opened Diary
  import opened Engine
  import opened Tables
  import opened Protocol
  import opened Store
  import opened Locks
  import opened Refinement
  import Progress
  import Safety

  /** An execution from a state in which no transaction is open. */
  ghost predicate Interleaving(a: Agent, ss: seq<Low>, sts: seq<Statement>) {
    && |ss| == |sts| + 1
    && Dense(ss[0].rows) && ss[0].txs == map[] && ss[0].lock.None? && Inv(a, Abs(ss[0]))
    && forall i :: 0 <= i < |sts| ==> Executable(a, ss[i], sts[i]) && ss[i + 1] == Executed(a, ss[i], sts[i])
  }

  lemma {:induction false} StaysOk(a: Agent, ss: seq<Low>, sts: seq<Statement>, i: nat)
    requires Interleaving(a, ss, sts) && i < |ss|
    ensures LowOk(a, ss[i]) && Inv(a, Abs(ss[i]))
  {
    hide Inv, Executed, Locks.Executable, TxOk, Do, Enabled;
    if i > 0 {
      StaysOk(a, ss, sts, i - 1);
      assert ss[i - 1 + 1] == Executed(a, ss[i - 1], sts[i - 1]);
      StatementRefines(a, ss[i - 1], sts[i - 1]);
      var act := Realizes(a, ss[i - 1], sts[i - 1]);
      if act.Some? {
        Safety.Keeps(a, Abs(ss[i - 1]), act.value);
      }
    }
  }

  /** What one statement makes of the state that the committed tables show. */
  lemma OneStep(a: Agent, ss: seq<Low>, sts: seq<Statement>, i: nat)
    requires Interleaving(a, ss, sts) && i < |sts|
    ensures Dense(ss[i].rows) && Dense(ss[i + 1].rows)
    ensures sts[i].Acquire? || sts[i].WriteRow? || sts[i].CommitTx? ==>
      sts[i].tx in ss[i].txs && Issues(a, ss[i], ss[i].txs[sts[i].tx].act)
    ensures Refines(a, ss[i], ss[i + 1], Realizes(a, ss[i], sts[i]))
  {
    hide Inv, Executed, Locks.Executable, TxOk, Do, Enabled;
    StaysOk(a, ss, sts, i);
    StatementRefines(a, ss[i], sts[i]);
    assert ss[i + 1] == Executed(a, ss[i], sts[i]);
  }

  lemma {:induction false} Then(a: Agent, c: Cell, acts: seq<Action>, act: Action)
    requires Progress.Can(a, c, acts) && Enabled(a, Progress.After(a, c, acts), act)
    ensures Progress.Can(a, c, acts + [act])
    ensures Progress.After(a, c, acts + [act]) == Do(a, Progress.After(a, c, acts), act)
    decreases |acts|
  {
    hide Do, Enabled;
    if acts == [] {
      assert [] + [act] == [act];
      assert [act][1..] == [];
    } else {
      Then(a, Do(a, c, acts[0]), acts[1..], act);
      assert (acts + [act])[1..] == acts[1..] + [act];
    }
  }

  /** Refinement over whole executions: what the committed tables show at any point is what
      some sequence of enabled atomic actions makes of what they showed at the start. */
  lemma {:induction false} RunsAtomically(a: Agent, ss: seq<Low>, sts: seq<Statement>, i: nat)
    returns (acts: seq<Action>)
    requires Interleaving(a, ss, sts) && i < |ss|
    ensures Dense(ss[i].rows)
    ensures Progress.Can(a, Abs(ss[0]), acts) && Abs(ss[i]) == Progress.After(a, Abs(ss[0]), acts)
  {
    hide Inv, Executed, Locks.Executable, TxOk, Do, Enabled, Abs;
    if i == 0 {
      acts := [];
    } else {
      acts := RunsAtomically(a, ss, sts, i - 1);
      OneStep(a, ss, sts, i - 1);
      var act := Realizes(a, ss[i - 1], sts[i - 1]);
      if act.Some? {
        Then(a, Abs(ss[0]), acts, act.value);
        acts := acts + [act.value];
      }
    }
  }

  // ----- tokens over time -----

  lemma StatementTokens(a: Agent, ss: seq<Low>, sts: seq<Statement>, i: nat)
    requires Interleaving(a, ss, sts) && i < |sts|
    ensures Dense(ss[i].rows) && Dense(ss[i + 1].rows)
    ensures Safety.GrewUnder(Abs(ss[i]).diary, Abs(ss[i + 1]).diary, ss[i].run.token)
    ensures ss[i].run.token <= ss[i + 1].run.token
  {
    hide Inv, Executed, Locks.Executable, TxOk, Do, Enabled;
    OneStep(a, ss, sts, i);
    var act := Realizes(a, ss[i], sts[i]);
    if act.Some? {
      Safety.ActionTokens(a, Abs(ss[i]), act.value);
    }
  }

  /** Fencing, statement by statement: once the claim that issued a token has committed, no
      event with an older one commits, however long its transaction had been open. */
  lemma {:induction false} NoLateEvent(a: Agent, ss: seq<Low>, sts: seq<Statement>, i: nat, j: nat)
    requires Interleaving(a, ss, sts) && i <= j < |ss|
    ensures Dense(ss[i].rows) && Dense(ss[j].rows)
    ensures Safety.GrewUnder(Abs(ss[i]).diary, Abs(ss[j]).diary, ss[i].run.token)
    ensures ss[i].run.token <= ss[j].run.token
    decreases j - i
  {
    hide Inv, Executed, Locks.Executable, TxOk, Interleaving, Abs;
    if i == j {
      StaysOk(a, ss, sts, i);
    } else {
      StatementsRun(a, ss, sts);
      NoLateEvent(a, ss, sts, i, j - 1);
      StatementTokens(a, ss, sts, j - 1);
    }
  }

  lemma StatementsRun(a: Agent, ss: seq<Low>, sts: seq<Statement>)
    requires Interleaving(a, ss, sts)
    ensures |ss| == |sts| + 1
  {
  }

  /** `st` commits a claim for the life `l`. */
  predicate Claims(s: Low, st: Statement, l: nat) {
    st.CommitTx? && st.tx in s.txs && s.txs[st.tx].act.Claim? && s.txs[st.tx].act.life == l
  }

  lemma ClaimIssues(a: Agent, ss: seq<Low>, sts: seq<Statement>, i: nat, l: nat)
    requires Interleaving(a, ss, sts) && i < |sts| && Claims(ss[i], sts[i], l)
    ensures l in ss[i + 1].lives && ss[i + 1].lives[l].token == ss[i + 1].run.token == ss[i].run.token + 1
  {
    hide Inv, Executed, Locks.Executable, TxOk, Do, Enabled;
    OneStep(a, ss, sts, i);
    Safety.ActionTokens(a, Abs(ss[i]), ss[i].txs[sts[i].tx].act);
  }

  /** No token is ever handed to two claims. */
  lemma TokensAreFresh(a: Agent, ss: seq<Low>, sts: seq<Statement>, i: nat, j: nat, l: nat, m: nat)
    requires Interleaving(a, ss, sts) && i < j < |sts|
    requires Claims(ss[i], sts[i], l) && Claims(ss[j], sts[j], m)
    ensures l in ss[i + 1].lives && m in ss[j + 1].lives && ss[i + 1].lives[l].token < ss[j + 1].lives[m].token
  {
    ClaimIssues(a, ss, sts, i, l);
    ClaimIssues(a, ss, sts, j, m);
    NoLateEvent(a, ss, sts, i + 1, j);
  }
}

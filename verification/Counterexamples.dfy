/** What one might believe of Timefork but is false: that the model is never called twice for
    one recorded answer, and that a completed run stays completed. */
module Counterexamples {
  import opened Diary
  import opened Engine
  import opened Timelines
  import opened Tables
  import opened Protocol
  import opened Progress

  /** A run that was just enqueued. */
  function Enqueued(id: RunId): Cell {
    Cell(id, NewRun("agent", "", Queued, 0, None), [], map[], [], map[], map[], Bill(0, 0, 0))
  }

  /** It asks the model one thing. */
  function Caller(): Script {
    Script((obs: seq<Obs>) => if |obs| == 0 then Op.Llm("p") else Done(""), 1)
  }

  lemma CallerNeeds(a: Agent)
    requires a == Caller()
    ensures NeedOf(a, []) == Call("p")
    ensures forall r :: NeedOf(a, [LlmCalled("p", r)]) == Finish("")
  {
    forall r ensures NeedOf(a, [LlmCalled("p", r)]) == Finish("") {
      var h := [LlmCalled("p", r)];
      assert AgentTurn(a, h, Start) == Go(Walk(1, map[], [Answer(r)]));
    }
  }

  /** Claimed by `w`, the diary read, and the model's answer `x` in hand. */
  lemma Asks(a: Agent, c: Cell, l: nat, x: string) returns (acts: seq<Action>)
    requires c.run.status == Queued && l !in c.lives && NeedOf(a, Events(c.diary)).Call?
    ensures Can(a, c, acts)
    ensures After(a, c, acts) ==
      c.(run := Claimed(c.run, "w", 0), bill := c.bill.(calls := c.bill.calls + 1),
         lives := c.lives[l := Life("w", c.run.token + 1, Live(Events(c.diary), Some(x)))])
  {
    hide NeedOf, Events;
    var c1 := c.(run := Claimed(c.run, "w", 0), lives := c.lives[l := Life("w", c.run.token + 1, Fresh)]);
    var c2 := c1.(lives := c1.lives[l := Life("w", c.run.token + 1, Live(Events(c.diary), None))]);
    assert Do(a, c1, Build(l)) == c2;
    First(a, c2, Consult(l, x), []);
    First(a, c1, Build(l), [Consult(l, x)] + []);
    acts := [Build(l)] + ([Consult(l, x)] + []);
    First(a, c, Claim(l, "w", 0), acts);
    acts := [Claim(l, "w", 0)] + acts;
    assert c2.lives[l := Life("w", c.run.token + 1, Live(Events(c.diary), Some(x)))]
        == c.lives[l := Life("w", c.run.token + 1, Live(Events(c.diary), Some(x)))];
  }

  /** The life is killed with the answer in its hand, and the sweeper requeues the run. */
  lemma Spills(a: Agent, c: Cell, l: nat, x: string) returns (acts: seq<Action>)
    requires c.run.status == Queued && l !in c.lives && NeedOf(a, Events(c.diary)).Call?
    ensures Can(a, c, acts)
    ensures var d := After(a, c, acts);
      && d == c.(run := d.run, bill := Bill(c.bill.calls + 1, c.bill.lost + 1, c.bill.spilled + 1))
      && d.run.status == Queued && d.run.token == c.run.token + 1
  {
    hide NeedOf, Events;
    acts := Asks(a, c, l, x);
    var d := After(a, c, acts);
    assert Enabled(a, d, Die(l)) && Do(a, d, Die(l)) == Lose(d, l);
    assert d.lives - {l} == c.lives;
    First(a, Lose(d, l), Sweep(1), []);
    First(a, d, Die(l), [Sweep(1)] + []);
    JoinActs(a, c, acts, [Die(l)] + ([Sweep(1)] + []));
    acts := acts + ([Die(l)] + ([Sweep(1)] + []));
  }

  /** A kill between the model's answer and its append: one recorded call, paid for twice. */
  lemma CalledTwice(id: RunId) returns (a: Agent, acts: seq<Action>)
    ensures Can(a, Enqueued(id), acts)
    ensures var c := After(a, Enqueued(id), acts);
      OwnCalls(Events(c.diary), 0) == 1 && c.bill.calls == 2 && NeedOf(a, Events(c.diary)).Finish?
  {
    hide NeedOf;
    assert Bounded(Caller());
    a := Caller();
    CallerNeeds(a);
    var c := Enqueued(id);
    assert Events(c.diary) == [];
    acts := Spills(a, c, 0, "x");
    var d := After(a, c, acts);
    var more := Asks(a, d, 1, "y");
    var e := After(a, d, more);
    JoinActs(a, c, acts, more);
    First(a, e, Write(1), []);
    JoinActs(a, c, acts + more, [Write(1)] + []);
    acts := acts + more + ([Write(1)] + []);
    var h := Events(Do(a, e, Write(1)).diary);
    assert h == [LlmCalled("p", "y")];
    assert h[..0] == [];
    assert OwnCalls(h, 0) == 1;
  }

  /** It asks a human one thing. */
  function Asker(): Script {
    Script((obs: seq<Obs>) => if |obs| == 0 then Op.Ask("q") else Done(""), 1)
  }

  lemma AskerNeeds(a: Agent)
    requires a == Asker()
    ensures NeedOf(a, []) == Request("q") && NeedOf(a, [ApprovalRequested("q")]) == Await("q")
    ensures NeedOf(a, [ApprovalRequested("q"), Approval(true)]) == Finish("")
  {
    var h := [ApprovalRequested("q"), Approval(true)];
    assert AgentTurn(a, h, Start) == Go(Walk(2, map[], [Decision(true)]));
  }

  lemma Both(a: Agent, c: Cell, x: Action, y: Action)
    requires Enabled(a, c, x) && Enabled(a, Do(a, c, x), y)
    ensures Can(a, c, [x, y]) && After(a, c, [x, y]) == Do(a, Do(a, c, x), y)
  {
    hide Do, Enabled;
    First(a, Do(a, c, x), y, []);
    First(a, c, x, [y] + []);
    assert [x] + ([y] + []) == [x, y];
  }

  const QUESTION := Entry(ApprovalRequested("q"), 1)
  const ANSWER := Entry(Approval(true), 0)

  function LeasedRow(id: RunId): Run {
    Claimed(Enqueued(id).run, "w", 0)
  }

  /** The question is in the diary; its life is about to pause. */
  function Asking(id: RunId): Cell {
    Enqueued(id).(run := LeasedRow(id), diary := [QUESTION],
               lives := map[0 := Life("w", 1, Live([ApprovalRequested("q")], None))])
  }

  /** The answer is recorded, but the grant has not requeued the run yet. */
  function LateGrant(id: RunId): Cell {
    Asking(id).(diary := [QUESTION, ANSWER], grants := map[0 := Recorded])
  }

  /** The lease has lapsed and another worker has claimed the run. */
  function Reclaimed(id: RunId): Cell {
    LateGrant(id).(run := Claimed(Swept(LeasedRow(id), 1), "w", 9),
                  lives := Asking(id).lives[1 := Life("w", 2, Fresh)])
  }

  /** That worker has completed it. */
  function Closed(id: RunId): Cell {
    Reclaimed(id).(run := Reclaimed(id).run.(status := Completed), lives := Asking(id).lives)
  }

  lemma ToAsking(a: Agent, id: RunId) returns (acts: seq<Action>)
    requires a == Asker()
    ensures Can(a, Enqueued(id), acts) && After(a, Enqueued(id), acts) == Asking(id)
  {
    hide NeedOf;
    AskerNeeds(a);
    var c := Enqueued(id);
    assert Events(c.diary) == [];
    var claimed := c.(run := LeasedRow(id), lives := map[0 := Life("w", 1, Fresh)]);
    var live := c.(run := LeasedRow(id), lives := map[0 := Life("w", 1, Live([], None))]);
    assert Do(a, c, Claim(0, "w", 0)) == claimed && Do(a, claimed, Build(0)) == live;
    Both(a, c, Claim(0, "w", 0), Build(0));
    var asked := ApprovalRequested("q");
    assert live.diary + [QUESTION] == [QUESTION] && [] + [asked] == [asked];
    assert live.lives[0 := Life("w", 1, Live([asked], None))] == Asking(id).lives;
    assert Do(a, live, Write(0)) == Asking(id);
    First(a, live, Write(0), []);
    JoinActs(a, c, [Claim(0, "w", 0), Build(0)], [Write(0)] + []);
    acts := [Claim(0, "w", 0), Build(0)] + ([Write(0)] + []);
  }

  lemma ToLateGrant(a: Agent, id: RunId)
    ensures Can(a, Asking(id), [Decide(0, true), Record(0)])
    ensures After(a, Asking(id), [Decide(0, true), Record(0)]) == LateGrant(id)
  {
    hide NeedOf;
    var c := Asking(id);
    var decided := c.(grants := map[0 := Decided(2, true)]);
    assert Events(c.diary) == [ApprovalRequested("q")];
    assert Do(a, c, Decide(0, true)) == decided && Do(a, decided, Record(0)) == LateGrant(id);
    Both(a, c, Decide(0, true), Record(0));
  }

  lemma ToReclaimed(a: Agent, id: RunId)
    ensures Can(a, LateGrant(id), [Sweep(1), Claim(1, "w", 9)])
    ensures After(a, LateGrant(id), [Sweep(1), Claim(1, "w", 9)]) == Reclaimed(id)
  {
    hide NeedOf;
    var c := LateGrant(id);
    assert Do(a, c, Sweep(1)) == c.(run := Swept(LeasedRow(id), 1));
    assert Do(a, c.(run := Swept(LeasedRow(id), 1)), Claim(1, "w", 9)) == Reclaimed(id);
    Both(a, c, Sweep(1), Claim(1, "w", 9));
  }

  lemma ToClosed(a: Agent, id: RunId)
    requires a == Asker()
    ensures Can(a, Reclaimed(id), [Build(1), End(1)])
    ensures After(a, Reclaimed(id), [Build(1), End(1)]) == Closed(id)
  {
    hide NeedOf;
    AskerNeeds(a);
    var c, h := Reclaimed(id), [ApprovalRequested("q"), Approval(true)];
    assert Events(c.diary) == h;
    var live := c.(lives := c.lives[1 := Life("w", 2, Live(h, None))]);
    assert Do(a, c, Build(1)) == live;
    assert live.lives - {1} == Asking(id).lives;
    assert Do(a, live, End(1)) == Closed(id);
    Both(a, c, Build(1), End(1));
  }

  /** A grant that is late with its second commit reopens a completed run. */
  lemma CompletedReopens(id: RunId) returns (a: Agent, acts: seq<Action>)
    ensures Can(a, Enqueued(id), acts) && After(a, Enqueued(id), acts).run.status == Completed
    ensures Can(a, Enqueued(id), acts + [Requeue(0)])
    ensures After(a, Enqueued(id), acts + [Requeue(0)]).run.status == Queued
  {
    hide NeedOf, Do, Enabled, Asking, LateGrant, Reclaimed, Closed;
    assert Bounded(Asker());
    a := Asker();
    acts := ToAsking(a, id);
    ToLateGrant(a, id);
    JoinActs(a, Enqueued(id), acts, [Decide(0, true), Record(0)]);
    acts := acts + [Decide(0, true), Record(0)];
    ToReclaimed(a, id);
    JoinActs(a, Enqueued(id), acts, [Sweep(1), Claim(1, "w", 9)]);
    acts := acts + [Sweep(1), Claim(1, "w", 9)];
    ToClosed(a, id);
    JoinActs(a, Enqueued(id), acts, [Build(1), End(1)]);
    acts := acts + [Build(1), End(1)];
    Requeues(a, id);
    JoinActs(a, Enqueued(id), acts, [Requeue(0)]);
  }

  lemma Requeues(a: Agent, id: RunId)
    ensures Can(a, Closed(id), [Requeue(0)]) && Closed(id).run.status == Completed
    ensures After(a, Closed(id), [Requeue(0)]).run.status == Queued
  {
    hide NeedOf;
    First(a, Closed(id), Requeue(0), []);
    assert [Requeue(0)] + [] == [Requeue(0)];
  }
}

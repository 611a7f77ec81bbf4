/** Every action keeps the invariant of a run. */
module Safety {
  import opened Diary
  import opened Engine
  import opened Traces
  import opened Timelines
  import opened Tables
  import opened Protocol

  // ----- actions that leave the diary alone -----

  /** The part of the invariant that speaks of the diary only. */
  lemma QuietKeeps(a: Agent, c: Cell, d: Cell)
    requires Diarized(a, c.run, Events(c.diary)) && Exact(a, c) && Stamped(c.run, c.diary)
    requires Leased(a, d) && Gated(a, d) && Billed(d)
    requires d.id == c.id && d.diary == c.diary && d.keys == c.keys && d.commits == c.commits
    requires d.run.parent == c.run.parent && c.run.token <= d.run.token
    ensures Inv(a, d)
  {
    hide Replay, Performed, OwnCalls, Leased, Gated, Billed;
    assert Floor(d.run) == Floor(c.run);
  }

  predicate IsFinal(s: Status) {
    s == Paused || s == Completed || s == Failed
  }

  /** No new life, the same token, and nothing final while the current life goes on. */
  lemma StaysLeased(a: Agent, c: Cell, d: Cell)
    requires Leased(a, c) && d.diary == c.diary && d.run.parent == c.run.parent && d.run.token == c.run.token
    requires forall l :: l in d.lives ==> l in c.lives && d.lives[l].token == c.lives[l].token
    requires forall l :: l in d.lives ==> d.lives[l] == c.lives[l] || LifeOk(a, d.run, Events(d.diary), d.lives[l])
    requires IsFinal(d.run.status) ==>
      d.run.status == c.run.status || forall l :: l in d.lives ==> d.lives[l].token != d.run.token
    ensures Leased(a, d)
  {
    forall l | l in d.lives ensures LifeOk(a, d.run, Events(d.diary), d.lives[l]) {
      assert LifeOk(a, c.run, Events(c.diary), c.lives[l]);
    }
  }

  lemma GrantsFlow(c: Cell, d: Cell)
    requires forall g :: g in c.grants && c.grants[g].Recorded? ==> g in d.grants && d.grants[g].Recorded?
    ensures InFlight(c) ==> InFlight(d)
  {
  }

  lemma OvertakenFlow(c: Cell, d: Cell)
    requires forall l :: Overtaken(d, l) ==> Overtaken(c, l)
    ensures SomeOvertaken(d) ==> SomeOvertaken(c)
  {
  }

  /** The status is as it was, and so is whatever justified it. */
  lemma StaysGated(a: Agent, c: Cell, d: Cell)
    requires Gated(a, c) && d.diary == c.diary && GrantsOk(d)
    requires d.run.status == c.run.status && (d.run.status == Running ==> d.run.owner.Some? && d.run.expiry.Some?)
    requires InFlight(c) ==> InFlight(d)
    requires forall l :: Overtaken(d, l) ==> Overtaken(c, l)
    ensures Gated(a, d)
  {
    OvertakenFlow(c, d);
  }

  lemma QueuedIsGated(a: Agent, d: Cell)
    requires d.run.status == Queued && GrantsOk(d)
    ensures Gated(a, d)
  {
  }

  lemma InHandWithout(lives: map<nat, Life>, l: nat)
    requires l in lives
    ensures InHand(lives - {l}) == InHand(lives) - {l}
  {
  }

  lemma InHandWith(lives: map<nat, Life>, l: nat, life: Life)
    ensures InHand(lives[l := life]) ==
            if Holding(life) then InHand(lives) + {l} else InHand(lives) - {l}
  {
  }

  lemma LoseBills(c: Cell, l: nat)
    requires Billed(c) && l in c.lives
    ensures Billed(Lose(c, l))
  {
    InHandWithout(c.lives, l);
  }

  lemma LoseKeeps(a: Agent, c: Cell, l: nat)
    requires Inv(a, c) && l in c.lives
    ensures Inv(a, Lose(c, l))
  {
    hide Exact, Stamped, Diarized, Replay, Performed, Leased, Billed;
    var d := Lose(c, l);
    StaysLeased(a, c, d);
    GrantsFlow(c, d);
    StaysGated(a, c, d);
    LoseBills(c, l);
    QuietKeeps(a, c, d);
  }

  lemma ClaimLeases(a: Agent, c: Cell, d: Cell, l: nat, worker: string, expiry: int)
    requires Leased(a, c) && l !in c.lives
    requires d == c.(run := Claimed(c.run, worker, expiry), lives := c.lives[l := Life(worker, c.run.token + 1, Fresh)])
    ensures Leased(a, d) && forall m :: !Overtaken(d, m)
  {
    forall m | m in d.lives ensures LifeOk(a, d.run, Events(d.diary), d.lives[m]) {
      if m != l {
        assert LifeOk(a, c.run, Events(c.diary), c.lives[m]);
      }
    }
    assert forall m :: m in d.lives && m != l ==> LifeOk(a, c.run, Events(c.diary), c.lives[m]);
  }

  lemma ClaimKeeps(a: Agent, c: Cell, l: nat, worker: string, expiry: int)
    requires Inv(a, c) && l !in c.lives
    ensures Inv(a, c.(run := Claimed(c.run, worker, expiry),
                      lives := c.lives[l := Life(worker, c.run.token + 1, Fresh)]))
  {
    hide Diarized, Exact, Stamped, Leased, Billed, Overtaken, NeedOf, GrantsOk;
    var d := c.(run := Claimed(c.run, worker, expiry), lives := c.lives[l := Life(worker, c.run.token + 1, Fresh)]);
    ClaimLeases(a, c, d, l, worker, expiry);
    ClaimBills(c, d, l);
    assert GrantsOk(d) by { GrantsStay(c, d); }
    QuietKeeps(a, c, d);
  }

  lemma ClaimBills(c: Cell, d: Cell, l: nat)
    requires Billed(c) && l !in c.lives && d.run.parent == c.run.parent
    requires d == c.(run := d.run, lives := d.lives) && l in d.lives
    requires d.lives == c.lives[l := d.lives[l]] && d.lives[l].phase.Fresh?
    ensures Billed(d)
  {
    hide OwnCalls;
    InHandWith(c.lives, l, d.lives[l]);
    assert InHand(d.lives) == InHand(c.lives);
  }

  /** The life `l` goes on to another good phase with the same token. */
  lemma PhaseKeeps(a: Agent, c: Cell, l: nat, phase: Phase, calls: nat)
    requires Inv(a, c) && l in c.lives
    requires LifeOk(a, c.run, Events(c.diary), c.lives[l].(phase := phase))
    requires phase.Live? ==>
      |phase.seen| == |c.diary| || (c.lives[l].phase.Live? && c.lives[l].phase.seen == phase.seen)
    requires l !in InHand(c.lives) && calls == if phase.Live? && phase.hand.Some? then 1 else 0
    ensures Inv(a, c.(lives := c.lives[l := c.lives[l].(phase := phase)],
                      bill := c.bill.(calls := c.bill.calls + calls)))
  {
    hide Exact, Stamped, Diarized, Replay, Performed;
    var d := c.(lives := c.lives[l := c.lives[l].(phase := phase)], bill := c.bill.(calls := c.bill.calls + calls));
    StaysLeased(a, c, d);
    GrantsFlow(c, d);
    StaysGated(a, c, d);
    PhaseBills(c, l, phase, calls);
    QuietKeeps(a, c, d);
  }

  lemma PhaseBills(c: Cell, l: nat, phase: Phase, calls: nat)
    requires Billed(c) && l in c.lives
    requires l !in InHand(c.lives) && calls == if phase.Live? && phase.hand.Some? then 1 else 0
    ensures Billed(c.(lives := c.lives[l := c.lives[l].(phase := phase)],
                      bill := c.bill.(calls := c.bill.calls + calls)))
  {
    var d := c.(lives := c.lives[l := c.lives[l].(phase := phase)], bill := c.bill.(calls := c.bill.calls + calls));
    InHandWith(c.lives, l, d.lives[l]);
    assert calls == 0 ==> InHand(d.lives) == InHand(c.lives);
  }

  lemma BuildKeeps(a: Agent, c: Cell, l: nat)
    requires Inv(a, c) && l in c.lives && c.lives[l].phase.Fresh?
    ensures Inv(a, c.(lives := c.lives[l := c.lives[l].(phase := Live(Events(c.diary), None))]))
  {
    hide Exact, Stamped, Gated, Billed, Replay;
    var h := Events(c.diary);
    assert h[..|h|] == h;
    assert LifeOk(a, c.run, h, c.lives[l]);
    PhaseKeeps(a, c, l, Live(h, None), 0);
  }

  lemma ConsultKeeps(a: Agent, c: Cell, l: nat, answer: string)
    requires Inv(a, c) && IsLive(c, l) && c.lives[l].phase.hand.None? && LifeNeed(a, c.lives[l]).Call?
    ensures Inv(a, c.(lives := c.lives[l := c.lives[l].(phase := Live(c.lives[l].phase.seen, Some(answer)))],
                      bill := c.bill.(calls := c.bill.calls + 1)))
  {
    hide Exact, Stamped, Gated, Billed, Replay;
    assert LifeOk(a, c.run, Events(c.diary), c.lives[l]);
    PhaseKeeps(a, c, l, Live(c.lives[l].phase.seen, Some(answer)), 1);
  }

  /** What the last statement of a life leaves in the status column is true of the diary. */
  lemma EndGates(a: Agent, c: Cell, l: nat, d: Cell)
    requires Leased(a, c) && Gated(a, c) && IsLive(c, l)
    requires Held(c.run, c.lives[l].token)
    requires d == c.(run := d.run, lives := c.lives - {l})
    requires IsFinal(d.run.status)
    requires var need := LifeNeed(a, c.lives[l]);
      if d.run.status == Completed then need.Finish?
      else if d.run.status == Failed then Failing(need)
      else need.Await?
    ensures Gated(a, d)
  {
    var life := c.lives[l];
    assert LifeOk(a, c.run, Events(c.diary), life);
    GrantsFlow(c, d);
    if life.phase.seen != Events(c.diary) {
      assert Overtaken(c, l);
    }
  }

  /** The life `l`, with no answer in its hand, is over and the row is as it was. */
  lemma GoneKeeps(a: Agent, c: Cell, l: nat)
    requires Inv(a, c) && l in c.lives && l !in InHand(c.lives)
    ensures Inv(a, Without(c, l))
  {
    hide Exact, Stamped, Diarized, Replay, Performed, Leased, Billed;
    var d := Without(c, l);
    StaysLeased(a, c, d);
    GrantsFlow(c, d);
    StaysGated(a, c, d);
    GoneBills(c, l, d);
    QuietKeeps(a, c, d);
  }

  lemma GoneBills(c: Cell, l: nat, d: Cell)
    requires Billed(c) && l in c.lives && l !in InHand(c.lives)
    requires d == Without(c, l).(run := d.run) && d.run.parent == c.run.parent
    ensures Billed(d)
  {
    InHandWithout(c.lives, l);
    assert InHand(d.lives) == InHand(c.lives);
  }

  lemma EndLeases(a: Agent, c: Cell, l: nat, d: Cell)
    requires Leased(a, c) && l in c.lives && c.lives[l].token == c.run.token
    requires d == Without(c, l).(run := d.run) && d.run.parent == c.run.parent && d.run.token == c.run.token
    ensures Leased(a, d)
  {
    StaysLeased(a, c, d);
  }

  /** The life `l` still holds the lease and settles the run with the status `status`. */
  lemma SettleKeeps(a: Agent, c: Cell, l: nat, d: Cell)
    requires Inv(a, c) && IsLive(c, l) && l !in InHand(c.lives) && Held(c.run, c.lives[l].token)
    requires d == Without(c, l).(run := d.run) && d.run.parent == c.run.parent && d.run.token == c.run.token
    requires IsFinal(d.run.status)
    requires var need := LifeNeed(a, c.lives[l]);
      if d.run.status == Completed then need.Finish?
      else if d.run.status == Failed then Failing(need)
      else need.Await?
    ensures Inv(a, d)
  {
    EndLeases(a, c, l, d);
    EndGates(a, c, l, d);
    GoneBills(c, l, d);
    QuietKeeps(a, c, d);
  }

  lemma EndingHand(a: Agent, c: Cell, l: nat)
    requires Leased(a, c) && Enabled(a, c, End(l))
    ensures l !in InHand(c.lives) && !LifeNeed(a, c.lives[l]).Diverge?
  {
    assert LifeOk(a, c.run, Events(c.diary), c.lives[l]);
  }

  lemma EndKeeps(a: Agent, c: Cell, l: nat)
    requires Inv(a, c) && Enabled(a, c, End(l))
    ensures Inv(a, DoEnd(a, c, l))
  {
    var d := DoEnd(a, c, l);
    EndingHand(a, c, l);
    if Held(c.run, c.lives[l].token) {
      SettleKeeps(a, c, l, d);
    } else {
      assert d == Without(c, l);
      GoneKeeps(a, c, l);
    }
  }

  /** A life whose model or effect raised parks the run as failed, if it still holds the lease. */
  lemma ThrowKeeps(a: Agent, c: Cell, l: nat)
    requires Inv(a, c) && Enabled(a, c, Throw(l))
    ensures Inv(a, Broken(c, l))
  {
    hide Inv, NeedOf, OwnCalls;
    var d := Broken(c, l);
    ThrowingHand(a, c, l);
    if Held(c.run, c.lives[l].token) {
      SettleKeeps(a, c, l, d);
    } else {
      assert d == Without(c, l);
      GoneKeeps(a, c, l);
    }
  }

  lemma ThrowingHand(a: Agent, c: Cell, l: nat)
    requires Inv(a, c) && Enabled(a, c, Throw(l))
    ensures l !in InHand(c.lives)
  {
    hide NeedOf, Performed, OwnCalls, Gated, Exact, Stamped;
    assert LifeOk(a, c.run, Events(c.diary), c.lives[l]);
  }

  lemma RowKeeps(a: Agent, c: Cell, run: Run, grants: map<nat, Grant>)
    requires Inv(a, c)
    requires run.parent == c.run.parent && run.token == c.run.token
    requires forall g :: g in grants ==> g in c.grants && c.grants[g] == grants[g]
    requires (run == c.run.(expiry := run.expiry) && run.expiry.Some? && grants == c.grants) || run.status == Queued
    ensures Inv(a, c.(run := run, grants := grants))
  {
    hide Exact, Stamped, Diarized, Replay, Performed;
    var d := c.(run := run, grants := grants);
    StaysLeased(a, c, d);
    if run.status == Queued {
      QueuedIsGated(a, d);
    } else {
      StaysGated(a, c, d);
    }
    assert Floor(d.run) == Floor(c.run);
    QuietKeeps(a, c, d);
  }

  lemma DecideGrants(c: Cell, g: nat, approved: bool)
    requires GrantsOk(c) && AwaitsDecision(Events(c.diary))
    ensures GrantsOk(c.(grants := c.grants[g := Decided(|c.diary| + 1, approved)]))
  {
  }

  lemma DecideKeeps(a: Agent, c: Cell, g: nat, approved: bool)
    requires Inv(a, c) && g !in c.grants && AwaitsDecision(Events(c.diary))
    ensures Inv(a, c.(grants := c.grants[g := Decided(|c.diary| + 1, approved)]))
  {
    hide Exact, Stamped, Diarized, Replay, Performed, Leased, GrantsOk, LifeOk;
    var d := c.(grants := c.grants[g := Decided(|c.diary| + 1, approved)]);
    StaysLeased(a, c, d);
    DecideGrants(c, g, approved);
    GrantsFlow(c, d);
    StaysGated(a, c, d);
    QuietKeeps(a, c, d);
  }

  // ----- actions that append -----

  lemma AppendedDiary(a: Agent, run: Run, h: seq<Event>, e: Event)
    requires Diarized(a, run, h) && Answers(NeedOf(a, h), e)
    ensures Diarized(a, run, h + [e])
  {
    TraceExtends(a, h, e);
  }

  lemma AppendedStamps(run: Run, d: seq<Entry>, e: Entry)
    requires Stamped(run, d) && e.token <= run.token && Floor(run) <= |d|
    requires e.token == 0 || e.token == run.token
    ensures Stamped(run, d + [e])
  {
  }

  /** Other lives stay good when the life that holds the token, or a human, appends. */
  lemma OthersKept(a: Agent, run: Run, h: seq<Event>, e: Event, life: Life)
    requires LifeOk(a, run, h, life)
    requires life.token == run.token && life.phase.Live? ==>
      life.phase.seen == h && NeedOf(a, h).Await? && e.Approval?
    ensures LifeOk(a, run, h + [e], life)
  {
    if life.phase.Live? {
      var seen := life.phase.seen;
      assert (h + [e])[..|seen|] == h[..|seen|];
    }
  }

  /** A half-open operation is never inherited. */
  lemma HalfOpenIsOwn(a: Agent, run: Run, h: seq<Event>)
    requires Diarized(a, run, h) && (NeedOf(a, h).Perform? || NeedOf(a, h).Await?)
    ensures |h| > Floor(run)
  {
    NeedsAtTheEnd(a, h, Start);
  }

  lemma OwnKeysAppend(id: RunId, floor: nat, h: seq<Event>, e: Event)
    requires OwnKeys(id, floor, h)
    requires e.ToolIntent? ==> e.key == MakeKey(id, |h| + 1)
    requires e.ToolCompleted? ==> e.key == MakeKey(id, |h|)
    ensures OwnKeys(id, floor, h + [e])
  {
    var g := h + [e];
    forall i | floor <= i < |g|
      ensures g[i].ToolIntent? ==> g[i].key == MakeKey(id, i + 1)
      ensures g[i].ToolCompleted? ==> g[i].key == MakeKey(id, i)
    {
      if i < |h| {
        assert g[i] == h[i];
      }
    }
  }

  lemma PerformedAppend(a: Agent, id: RunId, run: Run, h: seq<Event>, e: Event)
    requires Diarized(a, run, h) && Answers(NeedOf(a, h), e)
    ensures Performed(a, id, h + [e], Start, Floor(run)) == Performed(a, id, h, Start, Floor(run)) +
              if NeedOf(a, h).Perform? then [Commit(id, |h|, NeedOf(a, h).fn, e.result)] else []
  {
    PerformedExtends(a, id, h, Start, e, Floor(run));
    if NeedOf(a, h).Perform? {
      HalfOpenIsOwn(a, run, h);
    }
  }

  /** The key of an effect that is still to be performed is not in completed_keys. */
  lemma KeyIsFresh(a: Agent, c: Cell)
    requires Exact(a, c)
    ensures MakeKey(c.id, |c.diary|) !in c.keys
  {
    var h := Events(c.diary);
    KeysOfDomain(c.commits, c.id, |c.diary|);
    PerformedSound(a, c.id, h, Start, Floor(c.run));
    forall i | 0 <= i < |c.commits| ensures c.commits[i].slot != |c.diary| {
      assert c.commits[i] in c.commits;
    }
  }

  lemma AppendedLeases(a: Agent, c: Cell, l: nat, e: Event)
    requires Diarized(a, c.run, Events(c.diary)) && Leased(a, c)
    requires IsLive(c, l) && c.lives[l].token == c.run.token
    requires c.lives[l].phase.seen == Events(c.diary) && Answers(LifeNeed(a, c.lives[l]), e)
    ensures var d := Appended(c, l, e); Leased(a, d) && !exists m :: Overtaken(d, m)
  {
    var h, life, d := Events(c.diary), c.lives[l], Appended(c, l, e);
    EventsAppend(c.diary, Entry(e, life.token));
    TraceExtends(a, h, e);
    assert LifeOk(a, c.run, h, life);
    var g := h + [e];
    assert g[..|g|] == g;
    forall m | m in d.lives ensures LifeOk(a, d.run, g, d.lives[m]) {
      assert LifeOk(a, c.run, h, c.lives[m]);
      if m != l {
        OthersKept(a, c.run, h, e, c.lives[m]);
      }
    }
    assert forall m :: m in d.lives && d.lives[m].token == d.run.token ==> m == l;
  }

  lemma AppendedBills(c: Cell, l: nat, e: Event)
    requires Billed(c) && IsLive(c, l) && Floor(c.run) <= |c.diary|
    requires e.LlmCalled? <==> c.lives[l].phase.hand.Some?
    ensures Billed(Appended(c, l, e))
  {
    var d := Appended(c, l, e);
    EventsAppend(c.diary, Entry(e, c.lives[l].token));
    CallsAppend(Events(c.diary), e, Floor(c.run));
    InHandWith(c.lives, l, d.lives[l]);
    assert l in InHand(c.lives) <==> e.LlmCalled?;
    assert l !in InHand(c.lives) ==> InHand(d.lives) == InHand(c.lives);
  }

  /** The part of an append by the current life that does not concern the effect tables. */
  lemma AppendedKeeps(a: Agent, c: Cell, l: nat, e: Event)
    requires Inv(a, c) && IsLive(c, l) && c.lives[l].token == c.run.token
    requires c.lives[l].phase.seen == Events(c.diary)
    requires Answers(LifeNeed(a, c.lives[l]), e) && !LifeNeed(a, c.lives[l]).Await?
    requires LifeNeed(a, c.lives[l]).Call? ==> c.lives[l].phase.hand.Some?
    ensures var d := Appended(c, l, e);
      Diarized(a, d.run, Events(d.diary)) && Stamped(d.run, d.diary) && Leased(a, d) && Gated(a, d) && Billed(d)
  {
    hide Replay, Performed, OwnCalls, Exact;
    var h, life, d := Events(c.diary), c.lives[l], Appended(c, l, e);
    EventsAppend(c.diary, Entry(e, life.token));
    AppendedDiary(a, c.run, h, e);
    AppendedStamps(c.run, c.diary, Entry(e, life.token));
    AppendedLeases(a, c, l, e);
    assert LifeOk(a, c.run, h, life);
    AppendedBills(c, l, e);
    GrantsStay(c, d);
  }

  lemma GrantsStay(c: Cell, d: Cell)
    requires GrantsOk(c) && c.diary <= d.diary
    requires forall g :: g in d.grants && d.grants[g].Decided? ==> g in c.grants && c.grants[g] == d.grants[g]
    ensures GrantsOk(d)
  {
    assert forall i :: 0 <= i < |c.diary| ==> d.diary[i] == c.diary[i];
  }

  lemma CallsAppend(h: seq<Event>, e: Event, floor: nat)
    requires floor <= |h|
    ensures OwnCalls(h + [e], floor) == OwnCalls(h, floor) + if e.LlmCalled? then 1 else 0
  {
    assert (h + [e])[..|h|] == h;
  }

  /** A life that may write and holds the current token has seen the whole diary. */
  lemma WriterCaughtUp(a: Agent, c: Cell, l: nat)
    requires Inv(a, c) && IsLive(c, l) && c.lives[l].token == c.run.token
    requires Writes(LifeNeed(a, c.lives[l]))
    ensures c.lives[l].phase.seen == Events(c.diary)
  {
    assert LifeOk(a, c.run, Events(c.diary), c.lives[l]);
  }

  lemma WriteKeeps(a: Agent, c: Cell, l: nat)
    requires Inv(a, c) && Enabled(a, c, Write(l))
    ensures Inv(a, Do(a, c, Write(l)))
  {
    hide Stamped, Gated, Billed, Replay, Performed;
    var life := c.lives[l];
    if life.token != c.run.token {
      LoseKeeps(a, c, l);
    } else {
      WriterCaughtUp(a, c, l);
      var e := WrittenEvent(c.id, life.phase.seen, LifeNeed(a, life), life.phase.hand);
      var d := Appended(c, l, e);
      AppendedKeeps(a, c, l, e);
      PerformedAppend(a, c.id, c.run, Events(c.diary), e);
      OwnKeysAppend(c.id, Floor(c.run), Events(c.diary), e);
      EventsAppend(c.diary, Entry(e, life.token));
    }
  }

  lemma ActExact(a: Agent, c: Cell, e: Event, fn: string, d: Cell)
    requires Diarized(a, c.run, Events(c.diary)) && Exact(a, c)
    requires NeedOf(a, Events(c.diary)) == Perform(fn)
    requires e.ToolCompleted? && e.key == MakeKey(c.id, |c.diary|)
    requires d.id == c.id && d.run == c.run && Events(d.diary) == Events(c.diary) + [e]
    requires d.keys == c.keys[e.key := e.result] && d.commits == c.commits + [Commit(c.id, |c.diary|, fn, e.result)]
    ensures Exact(a, d)
  {
    PerformedAppend(a, c.id, c.run, Events(c.diary), e);
    OwnKeysAppend(c.id, Floor(c.run), Events(c.diary), e);
    KeysOfAppend(c.commits, Commit(c.id, |c.diary|, fn, e.result));
  }

  lemma FencedActKeeps(a: Agent, c: Cell, l: nat, result: Value)
    requires Inv(a, c) && Enabled(a, c, Act(l, result)) && c.lives[l].token == c.run.token
    ensures Inv(a, DoAct(a, c, l, result))
  {
    hide Stamped, Gated, Billed, Replay, Performed, Leased;
    var life, d := c.lives[l], DoAct(a, c, l, result);
    WriterCaughtUp(a, c, l);
    KeyIsFresh(a, c);
    var e := ToolCompleted(MakeKey(c.id, |c.diary|), result);
    AppendedKeeps(a, c, l, e);
    EventsAppend(c.diary, Entry(e, life.token));
    ActExact(a, c, e, LifeNeed(a, life).fn, d);
    SameButEffects(a, Appended(c, l, e), d);
  }

  lemma SameButEffects(a: Agent, c: Cell, d: Cell)
    requires Diarized(a, c.run, Events(c.diary)) && Stamped(c.run, c.diary) && Leased(a, c) && Gated(a, c) && Billed(c)
    requires d == c.(keys := d.keys, commits := d.commits) && Exact(a, d)
    ensures Inv(a, d)
  {
    StaysLeased(a, c, d);
    GrantsFlow(c, d);
    StaysGated(a, c, d);
  }

  /** An answer that is recorded now is recorded by a grant that has yet to requeue the run. */
  lemma RecordGates(a: Agent, c: Cell, g: nat)
    requires Gated(a, c) && Leased(a, c) && Enabled(a, c, Record(g)) && c.grants[g].slot > |c.diary|
    requires NeedOf(a, Events(c.diary)).Await?
    ensures Gated(a, Do(a, c, Record(g)))
  {
    var d := Do(a, c, Record(g));
    assert d.grants[g].Recorded?;
    assert InFlight(d);
    GrantsStay(c, d);
  }

  lemma RecordLeases(a: Agent, c: Cell, d: Cell, e: Event)
    requires Leased(a, c) && NeedOf(a, Events(c.diary)).Await? && e.Approval?
    requires d == c.(diary := c.diary + [Entry(e, 0)], grants := d.grants)
    ensures Leased(a, d)
  {
    var h := Events(c.diary);
    NeedsAtTheEnd(a, h, Start);
    EventsAppend(c.diary, Entry(e, 0));
    forall m | m in d.lives ensures LifeOk(a, d.run, Events(d.diary), d.lives[m]) {
      var life := c.lives[m];
      assert LifeOk(a, c.run, h, life);
      if life.token == c.run.token && life.phase.Live? {
        assert life.phase.seen == h;
      }
      OthersKept(a, c.run, h, e, life);
    }
  }

  lemma RecordKeeps(a: Agent, c: Cell, g: nat)
    requires Inv(a, c) && g in c.grants && c.grants[g].Decided? && c.grants[g].slot > |c.diary|
    ensures Inv(a, DoRecord(c, g))
  {
    hide Leased, Replay, Performed, OwnCalls;
    var d, h, e := DoRecord(c, g), Events(c.diary), Approval(c.grants[g].approved);
    assert h[|h| - 1].ApprovalRequested?;
    EndsOnQuestion(a, h, Start);
    EventsAppend(c.diary, Entry(e, 0));
    AppendedDiary(a, c.run, h, e);
    AppendedStamps(c.run, c.diary, Entry(e, 0));
    PerformedAppend(a, c.id, c.run, h, e);
    OwnKeysAppend(c.id, Floor(c.run), h, e);
    CallsAppend(h, e, Floor(c.run));
    RecordLeases(a, c, d, e);
    RecordGates(a, c, g);
  }

  lemma DuplicateKeeps(a: Agent, c: Cell, g: nat)
    requires Inv(a, c) && g in c.grants && c.grants[g].Decided?
    ensures Inv(a, c.(grants := c.grants - {g}))
  {
    hide Exact, Stamped, Diarized, Replay, Performed, Leased;
    var d := c.(grants := c.grants - {g});
    StaysLeased(a, c, d);
    GrantsFlow(c, d);
    StaysGated(a, c, d);
    QuietKeeps(a, c, d);
  }

  /** The invariant of a run survives every action of the fleet. */
  lemma Keeps(a: Agent, c: Cell, act: Action)
    requires Inv(a, c) && Enabled(a, c, act)
    ensures Inv(a, Do(a, c, act))
  {
    hide Inv;
    if act.Claim? || act.Die? || act.Decide? {
      QuietActionKeeps(a, c, act);
    } else if act.Build? || act.Consult? {
      PhaseActionKeeps(a, c, act);
    } else if act.Write? || act.Act? || act.End? || act.Throw? {
      LifeActionKeeps(a, c, act);
    } else {
      RowActionKeeps(a, c, act);
    }
  }

  lemma PhaseActionKeeps(a: Agent, c: Cell, act: Action)
    requires Inv(a, c) && Enabled(a, c, act)
    requires act.Build? || act.Consult?
    ensures Inv(a, Do(a, c, act))
  {
    hide Inv;
    var d := Do(a, c, act);
    match act {
      case Build(l) => BuildKeeps(a, c, l); assert Inv(a, d);
      case Consult(l, answer) => ConsultKeeps(a, c, l, answer); assert Inv(a, d);
    }
  }

  lemma QuietActionKeeps(a: Agent, c: Cell, act: Action)
    requires Inv(a, c) && Enabled(a, c, act)
    requires act.Claim? || act.Die? || act.Decide?
    ensures Inv(a, Do(a, c, act))
  {
    hide Inv;
    var d := Do(a, c, act);
    match act {
      case Claim(l, worker, expiry) => ClaimKeeps(a, c, l, worker, expiry); assert Inv(a, d);
      case Die(l) => LoseKeeps(a, c, l); assert Inv(a, d);
      case Decide(g, approved) => DecideKeeps(a, c, g, approved); assert Inv(a, d);
    }
  }

  lemma LifeActionKeeps(a: Agent, c: Cell, act: Action)
    requires Inv(a, c) && Enabled(a, c, act)
    requires act.Write? || act.Act? || act.End? || act.Throw?
    ensures Inv(a, Do(a, c, act))
  {
    hide Inv;
    var d := Do(a, c, act);
    match act {
      case Write(l) => WriteKeeps(a, c, l); assert Inv(a, d);
      case Act(l, result) =>
        if c.lives[l].token != c.run.token { LoseKeeps(a, c, l); } else { FencedActKeeps(a, c, l, result); }
        assert Inv(a, d);
      case End(l) => EndKeeps(a, c, l); assert Inv(a, d);
      case Throw(l) => ThrowKeeps(a, c, l); assert Inv(a, d);
    }
  }

  lemma RowActionKeeps(a: Agent, c: Cell, act: Action)
    requires Inv(a, c) && Enabled(a, c, act)
    requires act.Beat? || act.Sweep? || act.Record? || act.Requeue?
    ensures Inv(a, Do(a, c, act))
  {
    hide Inv;
    var d := Do(a, c, act);
    match act {
      case Beat(worker, expiry) =>
        if Beats(c.run, worker) { RowKeeps(a, c, Beaten(c.run, worker, expiry), c.grants); }
        assert Inv(a, d);
      case Sweep(now) =>
        if Lapsed(c.run, now) { RowKeeps(a, c, Swept(c.run, now), c.grants); }
        assert Inv(a, d);
      case Record(g) =>
        if c.grants[g].slot > |c.diary| { RecordKeeps(a, c, g); } else { DuplicateKeeps(a, c, g); }
        assert Inv(a, d);
      case Requeue(g) => RowKeeps(a, c, c.run.(status := Queued), c.grants - {g}); assert Inv(a, d);
    }
  }

  // ----- tokens -----

  /** The diary `e` is `d` with more entries, each unfenced or written under a token of at least `t`. */
  ghost predicate GrewUnder(d: seq<Entry>, e: seq<Entry>, t: nat) {
    d <= e && forall i :: |d| <= i < |e| ==> e[i].token == 0 || e[i].token >= t
  }

  /** An atomic action adds entries under the current token only, and a claim alone moves it. */
  lemma ActionTokens(a: Agent, c: Cell, act: Action)
    requires Enabled(a, c, act)
    ensures var d := Do(a, c, act);
      && GrewUnder(c.diary, d.diary, c.run.token)
      && d.run.token == (if act.Claim? then c.run.token + 1 else c.run.token)
      && (act.Claim? ==> act.life in d.lives && d.lives[act.life].token == d.run.token)
  {
    hide NeedOf, MakeKey, WrittenEvent, DoWrite, DoAct, DoEnd, DoRecord, GrewUnder;
    match act {
      case Write(l) => WriteTokens(a, c, l);
      case Act(l, result) => ActTokens(a, c, l, result);
      case End(l) => EndTokens(a, c, l);
      case Record(g) => RecordTokens(c, g);
      case _ => QuietTokens(a, c, act);
    }
  }

  /** The token is as it was, and so is all that was written under it. */
  ghost predicate SameToken(c: Cell, d: Cell) {
    d.run.token == c.run.token && GrewUnder(c.diary, d.diary, c.run.token)
  }

  lemma WriteTokens(a: Agent, c: Cell, l: nat)
    requires Enabled(a, c, Write(l))
    ensures SameToken(c, DoWrite(a, c, l))
  {
    hide NeedOf, MakeKey, WrittenEvent;
  }

  lemma ActTokens(a: Agent, c: Cell, l: nat, result: Value)
    requires Enabled(a, c, Act(l, result))
    ensures SameToken(c, DoAct(a, c, l, result))
  {
    hide NeedOf, MakeKey;
  }

  lemma EndTokens(a: Agent, c: Cell, l: nat)
    requires Enabled(a, c, End(l))
    ensures SameToken(c, DoEnd(a, c, l))
  {
    hide NeedOf;
  }

  lemma RecordTokens(c: Cell, g: nat)
    requires g in c.grants && c.grants[g].Decided?
    ensures SameToken(c, DoRecord(c, g))
  {
  }

  lemma QuietTokens(a: Agent, c: Cell, act: Action)
    requires Enabled(a, c, act) && !act.Write? && !act.Act? && !act.End? && !act.Record?
    ensures Do(a, c, act).diary == c.diary && GrewUnder(c.diary, c.diary, c.run.token)
    ensures Do(a, c, act).run.token == if act.Claim? then c.run.token + 1 else c.run.token
  {
    hide NeedOf, DoWrite, DoAct, DoEnd, DoRecord;
  }
}

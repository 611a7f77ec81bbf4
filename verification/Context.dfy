/** The Context: the object through which an agent reaches the world. It replays what the
    diary answers and records what it does not. */
module Contexts {
  import opened Diary
  import opened Engine
  import opened Traces
  import opened Hearing
  import opened Timelines
  import opened Tables
  import opened Store
  import opened Databases
  import opened Models
  import opened Lives

  class Context {
    const db: Database
    const id: RunId
    const llm: Llm
    const lease: Option<nat>
    const effects: (string, seq<Commit>) -> Attempted
    const crash: Crash
    const history: seq<Event>   // what read_events returned when the life began
    var cursor: nat
    var config: Config
    ghost var seen: seq<Event>  // the history and what this life appended itself
    ghost var obs: seq<Obs>     // the answers given to the agent

    ghost predicate Valid()
      reads this
    {
      && history <= seen && cursor <= |seen|
      && (|history| < |seen| ==> cursor == |seen|)
    }

    ghost function Env(): Env {
      Lives.Env(id, lease, llm, effects, crash)
    }

    ghost function Position(): Walk
      reads this
    {
      Walk(cursor, config, obs)
    }

    ghost function Snapshot(): Snap
      reads this, db, llm
    {
      Snap(db.Contents(), seen, llm.calls)
    }

    /** The diary is numbered 1, 2, 3, ... */
    constructor (db: Database, id: RunId, llm: Llm, lease: Option<nat>,
                 effects: (string, seq<Commit>) -> Attempted, crash: Crash)
      requires Dense(Rows(db.Contents(), id))
      ensures this.db == db && this.id == id && this.llm == llm && this.lease == lease
      ensures this.effects == effects && this.crash == crash
      ensures Valid() && Position() == Start && seen == history == Events(DiaryOf(Rows(db.Contents(), id)))
      ensures Follows(seen, Position())
    {
      this.db, this.id, this.llm, this.lease, this.effects, this.crash := db, id, llm, lease, effects, crash;
      var rows := Store.ReadEvents(db.Diary(id));
      ReadsDense(db.Diary(id));
      history := seq(|rows|, i requires 0 <= i < |rows| => rows[i].entry.event);
      cursor, config := 0, map[];
      seen := seq(|rows|, i requires 0 <= i < |rows| => rows[i].entry.event);
      obs := [];
    }

    predicate Replaying()
      reads this
    {
      cursor < |history|
    }

    /** _replay_next: the event under the cursor, if it is of the type that the code asks for. */
    method ReplayNext(expected: EventType) returns (r: Reply<Event>)
      requires Valid() && cursor < |history|
      modifies this`cursor
      ensures Valid() && old(cursor) < |seen|
      ensures var event := seen[old(cursor)];
        if TypeOf(event) == expected then r == Got(event) && cursor == old(cursor) + 1
        else r == Raised(Divergence(old(cursor) + 1)) && cursor == old(cursor)
    {
      var event := history[cursor];
      assert seen[cursor] == event;
      if TypeOf(event) != expected {
        return Raised(Divergence(cursor + 1));
      }
      cursor := cursor + 1;
      r := Got(event);
    }

    method ApplyPendingPatches()
      requires Valid()
      modifies this`cursor, this`config
      ensures Valid() && (cursor, config) == Pending(seen, old(cursor), old(config))
    {
      while cursor < |history| && history[cursor].PatchApplied?
        invariant Valid()
        invariant Pending(seen, cursor, config) == Pending(seen, old(cursor), old(config))
        decreases |history| - cursor
      {
        assert seen[cursor] == history[cursor];
        config := config + history[cursor].patch;
        cursor := cursor + 1;
      }
      assert cursor < |history| ==> seen[cursor] == history[cursor];
    }

    /** ctx.config: the value as patched by the forks up to this point. */
    method Config(key: string, default: Value) returns (value: Value)
      requires Valid()
      modifies this
      ensures Valid() && seen == old(seen)
      ensures OpTurn(seen, old(Position()), Read(key, default)) == Go(Position())
      ensures |obs| > 0 && Latest(Position()) == Setting(value)
      ensures old(cursor) <= cursor <= |seen| && (cursor < |seen| ==> !seen[cursor].PatchApplied?)
      ensures forall i :: old(cursor) <= i < cursor ==> seen[i].PatchApplied?
      ensures old(Follows(seen, Position())) ==>
        Follows(seen, Position()) && LastSetting(seen[..cursor], key, default, value)
    {
      hide Follows, LastSetting;
      ghost var w := Position();
      if Follows(seen, w) {
        ReadTells(seen, w, Read(key, default));
      }
      ApplyPendingPatches();
      value := if key in config then config[key] else default;
      obs := obs + [Setting(value)];
    }

    /** _record: the event becomes the next row of the diary, or the database refuses it. */
    method Record(e: Event) returns (error: Option<Error>)
      requires Valid() && cursor == |seen|
      modifies this`cursor, this`seen, db
      ensures Valid() && error == Refusal(old(db.Contents()), id, |old(seen)| + 1, lease)
      ensures if error.None? then
          Appends(Env(), old(db.Contents()), |old(seen)| + 1, e, db.Contents())
          && seen == old(seen) + [e] && cursor == |seen|
        else
          db.Contents() == old(db.Contents()) && seen == old(seen) && cursor == old(cursor)
    {
      var slot := cursor + 1;
      RefusalExact(db.Contents(), id, slot, e, lease);
      error := db.AppendEvent(id, slot, e, lease);
      if error.None? {
        cursor := cursor + 1;
        seen := seen + [e];
      }
    }

    /** ctx.llm. */
    method Llm(prompt: string) returns (r: Reply<string>)
      requires Valid()
      modifies this, db, llm
      ensures Valid() && old(seen) <= seen
      ensures r.Got? ==> old(cursor) < cursor <= |seen| && seen[cursor - 1] == LlmCalled(prompt, r.value)
      ensures Unfolds(Env(), old(OpTurn(seen, Position(), Engine.Llm(prompt))), 0,
                      old(Snapshot()), Snapshot(), Position(),
                      if r.Got? then Got(Answer(r.value)) else Raised(r.why))
    {
      hide Lands, BreakOf, DiesAfter, MakeKey, Appends, Refusal, Attempt;
      ApplyPendingPatches();
      if Replaying() {
        var event := ReplayNext(LLM_CALLED);
        if event.Raised? {
          return Raised(event.why);
        }
        if event.value.prompt != prompt {
          return Raised(Divergence(cursor));
        }
        obs := obs + [Answer(event.value.response)];
        return Got(event.value.response);
      }
      r := CallAndRecord(prompt);
    }

    /** The live part of ctx.llm: call the model, then record its answer. */
    method CallAndRecord(prompt: string) returns (r: Reply<string>)
      requires Valid() && cursor == |seen|
      modifies this, db, llm
      ensures Valid() && old(seen) <= seen
      ensures r.Got? ==> cursor == |seen| && seen == old(seen) + [LlmCalled(prompt, r.value)]
      ensures Unfolds(Env(), Stop(Halt(old(Position()), Call(prompt))), 0, old(Snapshot()), Snapshot(), Position(),
                      if r.Got? then Got(Answer(r.value)) else Raised(r.why))
    {
      hide Unfolds, OpTurn, Pending, Appends, Refusal;
      ghost var s := Snapshot();
      ghost var halt := Halt(Position(), Call(prompt));
      ghost var broke := BreakOf(Env(), Call(prompt), s);
      if Hits(crash, BeforeCall, cursor + 1) {
        BreakUnfolds(Env(), halt, 0, s, Snapshot(), Position(), Raised(Killed));
        return Raised(Killed);
      }
      var completion := llm.Complete(prompt);
      if !completion.Completed? {
        BreakUnfolds(Env(), halt, 0, s, Snapshot(), Position(), Raised(ModelRaised));
        return Raised(ModelRaised);
      }
      var response := completion.text;
      if Hits(crash, BeforeAppend, cursor + 1) {
        BreakUnfolds(Env(), halt, 0, s, Snapshot(), Position(), Raised(Killed));
        return Raised(Killed);
      }
      var error := Record(LlmCalled(prompt, response));
      if error.Some? {
        BreakUnfolds(Env(), halt, 0, s, Snapshot(), Position(), Raised(Refused(error.value)));
        return Raised(Refused(error.value));
      }
      ghost var m := Snapshot();
      assert Lands(Env(), Call(prompt), s, m) && broke.None?;
      obs := obs + [Answer(response)];
      assert AfterLanding(halt, s, m) == Go(Position());
      r := if Hits(crash, AfterAppend, cursor + 1) then Raised(Killed) else Got(response);
      ghost var reply := if r.Got? then Got(Answer(r.value)) else Raised(r.why);
      GoUnfolds(Env(), Position(), 1, m, reply);
      LandUnfolds(Env(), halt, 0, s, m, Snapshot(), Position(), reply);
    }

    /** _perform_once, with its transaction in the database. */
    method PerformOnce(intent: nat, fn: string) returns (r: Reply<Value>)
      requires Valid() && cursor == |seen| == intent
      modifies this`cursor, this`seen, db
      ensures Valid()
      ensures var s, u, done := old(Snapshot()), Snapshot(), Attempt(Env(), old(Snapshot()), fn);
        if done.Err? then r == Raised(Refused(done.error)) && u == s && cursor == old(cursor)
        else if Hits(crash, BeforeCommit, intent + 1) then r == Raised(Killed) && u == s && cursor == old(cursor)
        else
          && r == Got(done.value.1) && Lands(Env(), Perform(fn), s, u) && cursor == |seen|
          && seen == old(seen) + [ToolCompleted(MakeKey(id, intent), r.value)]
    {
      var slot := cursor + 1;
      var dies := Hits(crash, BeforeCommit, slot);
      var result := db.PerformOnce(id, intent, slot, fn, j => effects(fn, j), lease, dies);
      if result.Err? {
        return Raised(Refused(result.error));
      }
      if dies {
        return Raised(Killed);
      }
      cursor := cursor + 1;
      seen := seen + [ToolCompleted(MakeKey(id, intent), result.value)];
      r := Got(result.value);
    }

    /** The second phase of ctx.side_effect, the intent at seq `cursor` being recorded. */
    method Completion(fn: string, ghost wrote: nat) returns (r: Reply<Value>)
      requires Valid() && (wrote > 0 ==> cursor == |seen|)
      modifies this, db
      ensures Valid() && old(seen) <= seen
      ensures r.Got? ==> cursor == old(cursor) + 1 <= |seen| && seen[cursor - 1].ToolCompleted?
      ensures r.Got? ==> seen[cursor - 1].result == r.value
      ensures Unfolds(Env(), old(CompletionTurn(fn)), wrote, old(Snapshot()), Snapshot(), Position(),
                      if r.Got? then Got(Outcome(r.value)) else Raised(r.why))
    {
      hide Lands, BreakOf, DiesAfter, MakeKey, Appends, Refusal, Attempt;
      if Replaying() {
        var event := ReplayNext(TOOL_COMPLETED);
        if event.Raised? {
          return Raised(event.why);
        }
        obs := obs + [Outcome(event.value.result)];
        return Got(event.value.result);
      }
      r := PerformNow(fn, wrote);
    }

    /** The live part of the second phase: act once. */
    method PerformNow(fn: string, ghost wrote: nat) returns (r: Reply<Value>)
      requires Valid() && cursor == |seen|
      modifies this, db
      ensures Valid() && old(seen) <= seen
      ensures r.Got? ==> cursor == |seen| && seen == old(seen) + [ToolCompleted(MakeKey(id, old(cursor)), r.value)]
      ensures Unfolds(Env(), Stop(Halt(old(Position()), Perform(fn))), wrote, old(Snapshot()), Snapshot(), Position(),
                      if r.Got? then Got(Outcome(r.value)) else Raised(r.why))
    {
      hide Unfolds, MakeKey, Attempt;
      ghost var s := Snapshot();
      ghost var halt := Halt(Position(), Perform(fn));
      if Hits(crash, BeforeEffect, cursor + 1) {
        BreakUnfolds(Env(), halt, wrote, s, Snapshot(), Position(), Raised(Killed));
        return Raised(Killed);
      }
      r := PerformOnce(cursor, fn);
      if r.Raised? {
        BreakUnfolds(Env(), halt, wrote, s, Snapshot(), Position(), Raised(r.why));
        return;
      }
      ghost var m := Snapshot();
      assert BreakOf(Env(), Perform(fn), s).None?;
      obs := obs + [Outcome(r.value)];
      assert AfterLanding(halt, s, m) == Go(Position());
      if Hits(crash, AfterEffect, cursor) {
        r := Raised(Killed);
      }
      ghost var reply := if r.Got? then Got(Outcome(r.value)) else Raised(r.why);
      GoUnfolds(Env(), Position(), wrote + 1, m, reply);
      LandUnfolds(Env(), halt, wrote, s, m, Snapshot(), Position(), reply);
    }

    /** Where ctx.side_effect stands once its intent is recorded. */
    ghost function CompletionTurn(fn: string): Turn
      reads this
    {
      if cursor >= |seen| then Stop(Halt(Position(), Perform(fn)))
      else if seen[cursor].ToolCompleted? then
        Go(Walk(cursor + 1, config, obs + [Outcome(seen[cursor].result)]))
      else Stop(Halt(Position(), Diverge(cursor + 1)))
    }

    /** ctx.side_effect: the intent, then the effect with its completion. */
    method SideEffect(fn: string) returns (r: Reply<Value>)
      requires Valid()
      modifies this, db
      ensures Valid() && old(seen) <= seen
      ensures r.Got? ==> old(cursor) + 1 < cursor <= |seen| && seen[cursor - 2].ToolIntent?
      ensures r.Got? ==> seen[cursor - 1].ToolCompleted? && seen[cursor - 1].result == r.value
      ensures Unfolds(Env(), old(OpTurn(seen, Position(), Effect(fn))), 0, old(Snapshot()), Snapshot(), Position(),
                      if r.Got? then Got(Outcome(r.value)) else Raised(r.why))
    {
      hide Unfolds, MakeKey;
      ghost var s, w, t := Snapshot(), Position(), OpTurn(seen, Position(), Effect(fn));
      ApplyPendingPatches();
      if Replaying() {
        var event := ReplayNext(TOOL_INTENT);
        if event.Raised? {
          assert t == Stop(Halt(w, Diverge(cursor + 1)));
          DivergeUnfolds(Env(), w, cursor + 1, s, s, Position(), Raised(event.why));
          return Raised(event.why);
        }
        ghost var here, slot := Position(), cursor + 1;
        assert t == CompletionTurn(fn)
               || (t == Stop(Halt(w, Diverge(slot))) && CompletionTurn(fn) == Stop(Halt(here, Diverge(slot))));
        r := Completion(fn, 0);
        ghost var reply := if r.Got? then Got(Outcome(r.value)) else Raised(r.why);
        DivergeUnfolds(Env(), w, slot, s, Snapshot(), Position(), reply);
        DivergeUnfolds(Env(), here, slot, s, Snapshot(), Position(), reply);
        return;
      }
      r := IntendAndPerform(fn);
    }

    /** The live part of ctx.side_effect: record the intent, then go on to the effect. */
    method IntendAndPerform(fn: string) returns (r: Reply<Value>)
      requires Valid() && cursor == |seen|
      modifies this, db
      ensures Valid() && old(seen) <= seen
      ensures r.Got? ==> cursor == |seen| == old(cursor) + 2 && seen[cursor - 2] == ToolIntent(MakeKey(id, cursor - 1))
      ensures r.Got? ==> seen[cursor - 1].ToolCompleted? && seen[cursor - 1].result == r.value
      ensures Unfolds(Env(), Stop(Halt(old(Position()), Intend(fn))), 0, old(Snapshot()), Snapshot(), Position(),
                      if r.Got? then Got(Outcome(r.value)) else Raised(r.why))
    {
      hide Unfolds, OpTurn, Pending, MakeKey, Appends, Refusal;
      ghost var s := Snapshot();
      ghost var halt := Halt(Position(), Intend(fn));
      var slot := cursor + 1;
      if Hits(crash, BeforeIntent, slot) {
        BreakUnfolds(Env(), halt, 0, s, Snapshot(), Position(), Raised(Killed));
        return Raised(Killed);
      }
      var error := Record(ToolIntent(MakeKey(id, slot)));
      if error.Some? {
        BreakUnfolds(Env(), halt, 0, s, Snapshot(), Position(), Raised(Refused(error.value)));
        return Raised(Refused(error.value));
      }
      ghost var m := Snapshot();
      assert Lands(Env(), Intend(fn), s, m);
      assert AfterLanding(halt, s, m) == Stop(Halt(Position(), Perform(fn)));
      r := Completion(fn, 1);
      LandUnfolds(Env(), halt, 0, s, m, Snapshot(), Position(),
                  if r.Got? then Got(Outcome(r.value)) else Raised(r.why));
    }

    /** ctx.approval: the question, then a human's decision, or a pause. */
    method Approval(question: string) returns (r: Reply<bool>)
      requires Valid()
      modifies this, db
      ensures Valid() && old(seen) <= seen
      ensures r.Got? ==> old(cursor) + 1 < cursor <= |seen| && seen[cursor - 2] == ApprovalRequested(question)
      ensures r.Got? ==> seen[cursor - 1] == Event.Approval(r.value)
      ensures Unfolds(Env(), old(OpTurn(seen, Position(), Ask(question))), 0, old(Snapshot()), Snapshot(), Position(),
                      if r.Got? then Got(Decision(r.value)) else Raised(r.why))
    {
      hide Lands, BreakOf, DiesAfter, MakeKey, Appends, Refusal;
      ApplyPendingPatches();
      if Replaying() {
        var event := ReplayNext(APPROVAL_REQUESTED);
        if event.Raised? {
          return Raised(event.why);
        }
        if event.value.question != question {
          return Raised(Divergence(cursor));
        }
      } else {
        var asked := RequestApproval(question);
        return Raised(asked);
      }
      if Replaying() {
        var event := ReplayNext(APPROVAL);
        if event.Raised? {
          return Raised(event.why);
        }
        obs := obs + [Decision(event.value.approved)];
        return Got(event.value.approved);
      }
      r := Raised(PausedForApproval(question));
    }

    /** The live part of ctx.approval: record the question, then stop for the answer. */
    method RequestApproval(question: string) returns (why: Exception)
      requires Valid() && cursor == |seen|
      modifies this, db
      ensures Valid() && old(seen) <= seen
      ensures Unfolds(Env(), Stop(Halt(old(Position()), Request(question))), 0, old(Snapshot()), Snapshot(), Position(),
                      Raised(why))
    {
      hide OpTurn, Pending, Appends, Refusal;
      ghost var s := Snapshot();
      ghost var halt := Halt(Position(), Request(question));
      var error := Record(ApprovalRequested(question));
      if error.Some? {
        BreakUnfolds(Env(), halt, 0, s, Snapshot(), Position(), Raised(Refused(error.value)));
        return Refused(error.value);
      }
      assert Lands(Env(), Request(question), s, Snapshot());
      assert AfterLanding(halt, s, Snapshot()) == Stop(Halt(Position(), Await(question)));
      why := PausedForApproval(question);
      LandUnfolds(Env(), halt, 0, s, Snapshot(), Snapshot(), Position(), Raised(why));
    }
  }
}

/** What one life of an agent may do to the database and to the model: call by call, every
    event it commits answers what replay of everything it has seen asks for next. */
module Lives {
  import opened Diary
  import opened Engine
  import opened Traces
  import opened Hearing
  import opened Timelines
  import opened Tables
  import opened Store
  import opened Models

  // ----- crash injection -----

  datatype Point = BeforeCall | BeforeAppend | AfterAppend | BeforeIntent | BeforeEffect | BeforeCommit | AfterEffect

  /** TIMEFORK_CRASH_AT, perhaps pinned to one seq. */
  datatype Crash = Never | At(point: Point, pinned: Option<nat>)

  predicate Hits(crash: Crash, point: Point, slot: nat) {
    crash.At? && crash.point == point && (crash.pinned.Some? ==> crash.pinned.value == slot)
  }

  // ----- one ctx call -----

  /** What a life works with. `effects` is what running an effect comes to on an effect state. */
  datatype Env = Env(
    id: RunId, lease: Option<nat>, llm: Llm, effects: (string, seq<Commit>) -> Attempted, crash: Crash)

  datatype Exception =
    | Divergence(slot: nat)
    | PausedForApproval(question: string)
    | ModelRaised
    | Refused(error: Error)      // the database said no, or an effect raised in its transaction
    | Killed                     // not an exception: the process is gone

  datatype Reply<+T> = Got(value: T) | Raised(why: Exception)

  /** The database, what the life has seen of its diary, and the answers of its model. */
  datatype Snap = Snap(db: Db, seen: seq<Event>, calls: nat)

  /** Why the database would refuse to append at `slot`, if it would. */
  function Refusal(db: Db, r: RunId, slot: nat, lease: Option<nat>): Option<Error> {
    if !LeaseOk(db, r, lease) then Some(StaleFence)
    else if r !in db.runs then Some(UnknownRun)
    else if slot in Rows(db, r) then Some(Duplicate)
    else None
  }

  lemma RefusalExact(db: Db, r: RunId, slot: nat, e: Event, lease: Option<nat>)
    ensures var after := AppendEvent(db, r, slot, e, lease);
      Refusal(db, r, slot, lease) == if after.Err? then Some(after.error) else None
  {
  }

  predicate Appends(env: Env, before: Db, slot: nat, e: Event, after: Db) {
    AppendEvent(before, env.id, slot, e, env.lease) == Ok(after)
  }

  /** The transaction of an effect announced by the last event seen. */
  function Attempt(env: Env, s: Snap, fn: string): Result<(Db, Value)> {
    PerformOnce(s.db, env.id, |s.seen|, |s.seen| + 1, fn, env.effects(fn, s.db.journal), env.lease)
  }

  /** The event that answers `need` was committed, and the life has seen it. */
  ghost predicate Lands(env: Env, need: Need, s: Snap, u: Snap) {
    && |u.seen| == |s.seen| + 1 && u.seen[..|s.seen|] == s.seen
    && u.calls == s.calls + (if need.Call? then 1 else 0)
    && var e := u.seen[|s.seen|];
       match need
       case Call(prompt) =>
         var answer := env.llm.AnswerAt(s.calls, prompt);
         answer.Completed? && e == LlmCalled(prompt, answer.text) && Appends(env, s.db, |s.seen| + 1, e, u.db)
       case Intend(_) =>
         e == ToolIntent(MakeKey(env.id, |s.seen| + 1)) && Appends(env, s.db, |s.seen| + 1, e, u.db)
       case Request(question) =>
         e == ApprovalRequested(question) && Appends(env, s.db, |s.seen| + 1, e, u.db)
       case Perform(fn) =>
         var done := Attempt(env, s, fn);
         done.Ok? && done.value.0 == u.db && e == ToolCompleted(MakeKey(env.id, |s.seen|), done.value.1)
       case _ => false
  }

  /** How a life breaks off: what is raised, and how many answers of the model are lost. */
  datatype Break = Break(why: Exception, paid: nat)

  function IfRefused(refusal: Option<Error>, paid: nat): Option<Break> {
    match refusal
    case Some(error) => Some(Break(Refused(error), paid))
    case None => None
  }

  /** Whether and how a life that must write at the end of `s.seen` breaks off before its event
      has committed. The injected crash points stand in the order of the code. */
  function BreakOf(env: Env, need: Need, s: Snap): Option<Break> {
    var slot := |s.seen| + 1;
    var refusal := Refusal(s.db, env.id, slot, env.lease);
    match need
    case Call(prompt) =>
      if Hits(env.crash, BeforeCall, slot) then Some(Break(Killed, 0))
      else if !env.llm.AnswerAt(s.calls, prompt).Completed? then Some(Break(ModelRaised, 0))
      else if Hits(env.crash, BeforeAppend, slot) then Some(Break(Killed, 1))
      else IfRefused(refusal, 1)
    case Intend(_) =>
      if Hits(env.crash, BeforeIntent, slot) then Some(Break(Killed, 0)) else IfRefused(refusal, 0)
    case Request(_) => IfRefused(refusal, 0)
    case Perform(fn) =>
      var done := Attempt(env, s, fn);
      if Hits(env.crash, BeforeEffect, slot) then Some(Break(Killed, 0))
      else if done.Err? then Some(Break(Refused(done.error), 0))
      else if Hits(env.crash, BeforeCommit, slot) then Some(Break(Killed, 0))
      else None
    case _ => None
  }

  /** Whether a life is killed right after it committed the last event of `seen`. */
  predicate DiesAfter(env: Env, seen: seq<Event>) {
    |seen| > 0 &&
    match seen[|seen| - 1]
    case LlmCalled(_, _) => Hits(env.crash, AfterAppend, |seen| + 1)
    case ToolCompleted(_, _) => Hits(env.crash, AfterEffect, |seen|)
    case _ => false
  }

  function Ahead(t: Turn): nat {
    match t
    case Go(_) => 0
    case Stop(halt) => if halt.need.Intend? || halt.need.Request? then 2 else 1
  }

  /** A ctx call that stands at the turn `t` with `s` before it comes to `u` and `at`, having
      written `wrote` events already: it returns the recorded answer, or raises what the diary
      dictates, or breaks off, or commits the next event and goes on. */
  ghost predicate Unfolds(env: Env, t: Turn, wrote: nat, s: Snap, u: Snap, at: Walk, r: Reply<Obs>)
    decreases Ahead(t)
  {
    match t
    case Go(next) =>
      && u == s && |next.obs| > 0
      && if wrote > 0 && DiesAfter(env, s.seen) then r == Raised(Killed) else r == Got(Latest(next)) && at == next
    case Stop(halt) =>
      match halt.need
      case Diverge(slot) => u == s && r == Raised(Divergence(slot))
      case Await(question) => u == s && r == Raised(PausedForApproval(question))
      case Finish(_) => false
      case Fail => false
      case _ =>
        match BreakOf(env, halt.need, s)
        case Some(b) => u == s.(calls := s.calls + b.paid) && r == Raised(b.why)
        case None =>
          exists m :: Lands(env, halt.need, s, m) && Unfolds(env, AfterLanding(halt, s, m), wrote + 1, m, u, at, r)
  }

  lemma LandAnswers(env: Env, need: Need, s: Snap, u: Snap)
    requires Lands(env, need, s, u)
    ensures Writes(need) && Answers(need, u.seen[|s.seen|]) && u.seen == s.seen + [u.seen[|s.seen|]]
  {
  }

  function AfterLanding(halt: Halt, s: Snap, m: Snap): (t: Turn)
    requires Writes(halt.need)
    ensures Ahead(t) < Ahead(Stop(halt))
  {
    if |m.seen| > |s.seen| && Answers(halt.need, m.seen[|s.seen|]) then Answered(halt, m.seen[|s.seen|])
    else Go(halt.at)
  }

  lemma BreakUnfolds(env: Env, halt: Halt, wrote: nat, s: Snap, u: Snap, at: Walk, r: Reply<Obs>)
    requires Writes(halt.need) && BreakOf(env, halt.need, s).Some?
    requires var b := BreakOf(env, halt.need, s).value; u == s.(calls := s.calls + b.paid) && r == Raised(b.why)
    ensures Unfolds(env, Stop(halt), wrote, s, u, at, r)
  {
    hide BreakOf;
  }

  lemma LandUnfolds(env: Env, halt: Halt, wrote: nat, s: Snap, m: Snap, u: Snap, at: Walk, r: Reply<Obs>)
    requires BreakOf(env, halt.need, s).None? && Lands(env, halt.need, s, m) && Writes(halt.need)
    requires Unfolds(env, AfterLanding(halt, s, m), wrote + 1, m, u, at, r)
    ensures Unfolds(env, Stop(halt), wrote, s, u, at, r)
  {
    hide BreakOf, Lands;
  }

  lemma DivergeUnfolds(env: Env, w: Walk, slot: nat, s: Snap, u: Snap, at: Walk, r: Reply<Obs>)
    ensures Unfolds(env, Stop(Halt(w, Diverge(slot))), 0, s, u, at, r) <==> u == s && r == Raised(Divergence(slot))
  {
  }

  /** The call returns its answer, or is killed after it recorded it. */
  lemma GoUnfolds(env: Env, at: Walk, wrote: nat, s: Snap, r: Reply<Obs>)
    requires |at.obs| > 0
    requires r == if wrote > 0 && DiesAfter(env, s.seen) then Raised(Killed) else Got(Latest(at))
    ensures Unfolds(env, Go(at), wrote, s, s, at, r)
  {
  }

  // ----- a life -----

  /** After the `n` events it committed the life is not to be killed on the spot. */
  predicate GoesOn(env: Env, n: nat, seen: seq<Event>) {
    n > 0 ==> !DiesAfter(env, seen)
  }

  /** `n` events were committed, each the answer to what the diary so far asked for; nothing
      broke the life off before any of them, nor after any but the last. */
  ghost predicate Grew(env: Env, a: Agent, s: Snap, u: Snap, n: nat)
    decreases n
  {
    if n == 0 then u == s
    else
      && BreakOf(env, NeedOf(a, s.seen), s).None?
      && exists m :: Lands(env, NeedOf(a, s.seen), s, m) && GoesOn(env, n - 1, m.seen) && Grew(env, a, m, u, n - 1)
  }

  lemma {:induction false} GrewThen(env: Env, a: Agent, s: Snap, m: Snap, u: Snap, k: nat, n: nat)
    requires Grew(env, a, s, m, k) && Grew(env, a, m, u, n) && (n > 0 ==> GoesOn(env, k, m.seen))
    ensures Grew(env, a, s, u, k + n)
    decreases k
  {
    hide Lands, Replay, DiesAfter, BreakOf;
    if k > 0 {
      var x :| Lands(env, NeedOf(a, s.seen), s, x) && GoesOn(env, k - 1, x.seen) && Grew(env, a, x, m, k - 1);
      if k == 1 {
        assert x == m;
      }
      GrewThen(env, a, x, m, u, k - 1, n);
    }
  }

  lemma GrewOnce(env: Env, a: Agent, s: Snap, u: Snap)
    requires Lands(env, NeedOf(a, s.seen), s, u) && BreakOf(env, NeedOf(a, s.seen), s).None?
    ensures Grew(env, a, s, u, 1)
  {
    hide Lands, Replay, DiesAfter, BreakOf;
    assert Grew(env, a, u, u, 0);
  }

  /** Replaying all it has seen brings a life to where it stands. */
  ghost predicate Stands(a: Agent, h: seq<Event>, w: Walk) {
    w.cursor <= |h| && Replay(a, h, Start) == Replay(a, h, w)
  }

  ghost predicate Comes(a: Agent, h: seq<Event>, t: Turn) {
    match t
    case Go(next) => Stands(a, h, next)
    case Stop(halt) => Replay(a, h, Start) == halt
  }

  lemma TurnComes(a: Agent, h: seq<Event>, w: Walk)
    requires Stands(a, h, w)
    ensures Comes(a, h, AgentTurn(a, h, w))
  {
  }

  lemma LandingComes(env: Env, a: Agent, halt: Halt, s: Snap, m: Snap)
    requires Comes(a, s.seen, Stop(halt)) && Lands(env, halt.need, s, m) && BreakOf(env, halt.need, s).None?
    ensures Comes(a, m.seen, AfterLanding(halt, s, m)) && Grew(env, a, s, m, 1)
  {
    hide BreakOf, Lands;
    LandAnswers(env, halt.need, s, m);
    NeedsAtTheEnd(a, s.seen, Start);
    Resume(a, s.seen, Start, m.seen[|s.seen|]);
    GrewOnce(env, a, s, m);
  }

  /** The answers a position carries are those given before and at most one more. */
  ghost predicate Carries(t: Turn, obs: seq<Obs>) {
    match t
    case Go(next) => |next.obs| > 0 && next.obs == obs + [Latest(next)]
    case Stop(halt) => halt.at.obs == obs
  }

  lemma CallCarries(h: seq<Event>, w: Walk, op: Op)
    ensures Carries(OpTurn(h, w, op), w.obs)
  {
  }

  // ----- what the agent is told -----

  /** The turn stands at a position that follows the diary, at its end if it has to write. */
  ghost predicate OnDiary(h: seq<Event>, t: Turn) {
    match t
    case Go(next) => Follows(h, next)
    case Stop(halt) => Follows(h, halt.at) && (Writes(halt.need) ==> halt.at.cursor == |h|)
  }

  lemma TurnOnDiary(h: seq<Event>, w: Walk, op: Op)
    requires Follows(h, w)
    ensures OnDiary(h, OpTurn(h, w, op))
  {
    hide Patched, Told, Spoken;
    TurnTells(h, w, op);
  }

  lemma AnsweredFollows(h: seq<Event>, halt: Halt, e: Event)
    requires Follows(h, halt.at) && halt.at.cursor == |h| && Writes(halt.need) && Answers(halt.need, e)
    ensures OnDiary(h + [e], Answered(halt, e))
  {
    var g := h + [e];
    assert g[..|h|] == h == h[..|h|] && g[..|h| + 1] == g && !e.PatchApplied?;
    assert Patched(g) == Patched(h) && Told(g) == Told(h) + Says(e);
    if halt.need.Call? || halt.need.Perform? {
      SpokenMore(halt.at.obs, Says(e)[0]);
    }
  }

  lemma LandFollows(env: Env, halt: Halt, s: Snap, m: Snap)
    requires OnDiary(s.seen, Stop(halt)) && Lands(env, halt.need, s, m)
    ensures OnDiary(m.seen, AfterLanding(halt, s, m))
  {
    hide Follows, Lands;
    LandAnswers(env, halt.need, s, m);
    AnsweredFollows(s.seen, halt, m.seen[|s.seen|]);
  }

  lemma {:induction false} UnfoldsOnDiary(env: Env, t: Turn, wrote: nat, s: Snap, u: Snap, at: Walk, r: Reply<Obs>)
    requires OnDiary(s.seen, t) && Unfolds(env, t, wrote, s, u, at, r) && r.Got?
    ensures Follows(u.seen, at)
    decreases Ahead(t)
  {
    hide Follows, Lands, BreakOf, DiesAfter;
    if t.Stop? {
      var m :| Lands(env, t.halt.need, s, m) && Unfolds(env, AfterLanding(t.halt, s, m), wrote + 1, m, u, at, r);
      LandFollows(env, t.halt, s, m);
      UnfoldsOnDiary(env, AfterLanding(t.halt, s, m), wrote + 1, m, u, at, r);
    }
  }

  /** A ctx call that returns leaves a life that has heard what its diary says, no more and no
      less, in that state. */
  lemma CallFollows(env: Env, op: Op, s: Snap, w: Walk, u: Snap, at: Walk, r: Reply<Obs>)
    requires Follows(s.seen, w) && Unfolds(env, OpTurn(s.seen, w, op), 0, s, u, at, r) && r.Got?
    ensures Follows(u.seen, at)
  {
    hide Follows, Unfolds, OpTurn;
    TurnOnDiary(s.seen, w, op);
    UnfoldsOnDiary(env, OpTurn(s.seen, w, op), 0, s, u, at, r);
  }

  // ----- how a life ends -----

  datatype Fate = Returned(output: Value) | AgentRaised | Stopped(why: Exception)

  /** How the life ended after `n` events, with the database as in `m`. */
  ghost predicate Fits(env: Env, a: Agent, s: Snap, n: nat, m: Snap, u: Snap, fate: Fate) {
    if !GoesOn(env, n, m.seen) then u == m && fate == Stopped(Killed)
    else
      match fate
      case Returned(output) => u == m && NeedOf(a, u.seen) == Finish(output)
      case AgentRaised => u == m && NeedOf(a, u.seen).Fail?
      case Stopped(why) =>
        match why
        case Divergence(slot) => u == m && NeedOf(a, u.seen) == Diverge(slot)
        case PausedForApproval(question) => u == m && NeedOf(a, u.seen) == Await(question)
        case _ =>
          var b := BreakOf(env, NeedOf(a, m.seen), m);
          b.Some? && why == b.value.why && u == m.(calls := m.calls + b.value.paid)
  }

  /** A whole life from `s` to `u`. */
  ghost predicate Lived(env: Env, a: Agent, s: Snap, u: Snap, fate: Fate) {
    exists n: nat, m :: Grew(env, a, s, m, n) && Fits(env, a, s, n, m, u, fate)
  }

  lemma LandingCarries(env: Env, halt: Halt, s: Snap, m: Snap, obs: seq<Obs>)
    requires Lands(env, halt.need, s, m) && halt.at.obs == obs
    ensures Carries(AfterLanding(halt, s, m), obs)
    ensures AfterLanding(halt, s, m).Stop? ==> !DiesAfter(env, m.seen)
  {
  }

  /** A ctx call is a piece of a life: it grows the diary as replay demands, and leaves the
      life standing, or ended. */
  lemma {:induction false} CallIsLife(
    env: Env, a: Agent, first: Snap, n: nat, t: Turn, wrote: nat,
    s: Snap, u: Snap, at: Walk, r: Reply<Obs>, obs: seq<Obs>)
    returns (k: nat)
    requires Grew(env, a, first, s, n) && wrote <= n && Carries(t, obs)
    requires wrote == 0 || t.Stop? ==> GoesOn(env, n, s.seen)
    requires Comes(a, s.seen, t) && Unfolds(env, t, wrote, s, u, at, r)
    ensures r.Got? ==> Grew(env, a, first, u, k) && Stands(a, u.seen, at) && at.obs == obs + [r.value]
    ensures r.Got? ==> GoesOn(env, k, u.seen)
    ensures r.Raised? ==> Lived(env, a, first, u, Stopped(r.why))
    decreases Ahead(t)
  {
    hide Replay, Lands, Grew, BreakOf, DiesAfter;
    k := n;
    if t.Go? {
      if r.Raised? {
        assert Fits(env, a, first, n, s, u, Stopped(r.why));
      }
    } else if t.halt.need.Diverge? || t.halt.need.Await? {
      assert Fits(env, a, first, n, s, u, Stopped(r.why));
    } else if BreakOf(env, t.halt.need, s).Some? {
      BreaksAreFits(env, a, first, n, t.halt, s, u, r);
    } else {
      var m :| Lands(env, t.halt.need, s, m) && Unfolds(env, AfterLanding(t.halt, s, m), wrote + 1, m, u, at, r);
      LandingComes(env, a, t.halt, s, m);
      LandingCarries(env, t.halt, s, m, obs);
      GrewThen(env, a, first, s, m, n, 1);
      k := CallIsLife(env, a, first, n + 1, AfterLanding(t.halt, s, m), wrote + 1, m, u, at, r, obs);
    }
  }

  lemma BreakCauses(env: Env, need: Need, s: Snap)
    requires BreakOf(env, need, s).Some?
    ensures var b := BreakOf(env, need, s).value;
      && Writes(need) && b.paid <= (if need.Call? then 1 else 0)
      && (b.why == Killed || b.why == ModelRaised || b.why.Refused?)
      && (b.why == Killed ==> env.crash != Never)
      && (b.why == ModelRaised ==> need.Call? && !env.llm.AnswerAt(s.calls, need.prompt).Completed?)
      && (b.why.Refused? && !need.Perform? ==> Refusal(s.db, env.id, |s.seen| + 1, env.lease) == Some(b.why.error))
      && (b.why.Refused? && need.Perform? ==> Attempt(env, s, need.fn) == Err(b.why.error))
  {
  }

  lemma BreaksAreFits(
    env: Env, a: Agent, first: Snap, n: nat, halt: Halt, s: Snap, u: Snap, r: Reply<Obs>)
    requires Grew(env, a, first, s, n) && Comes(a, s.seen, Stop(halt)) && BreakOf(env, halt.need, s).Some?
    requires GoesOn(env, n, s.seen)
    requires var b := BreakOf(env, halt.need, s).value; u == s.(calls := s.calls + b.paid) && r == Raised(b.why)
    ensures Lived(env, a, first, u, Stopped(r.why))
  {
    hide Replay, Lands, Grew, BreakOf;
    BreakCauses(env, halt.need, s);
    assert Fits(env, a, first, n, s, u, Stopped(r.why));
  }

  // ----- what a life cannot do -----

  /** A life on a diary that answers everything, or on one that its code no longer fits,
      changes nothing and makes no model call: replay is free, and divergence is loud. */
  lemma ReplayIsFree(env: Env, a: Agent, s: Snap, u: Snap, fate: Fate)
    requires Lived(env, a, s, u, fate) && !Writes(NeedOf(a, s.seen))
    ensures u == s
    ensures match NeedOf(a, s.seen)
            case Finish(output) => fate == Returned(output)
            case Fail => fate == AgentRaised
            case Diverge(slot) => fate == Stopped(Divergence(slot))
            case Await(question) => fate == Stopped(PausedForApproval(question))
            case _ => false
  {
    hide Replay;
    var n: nat, m :| Grew(env, a, s, m, n) && Fits(env, a, s, n, m, u, fate);
  }

  /** A life adds to its own diary and to the effect tables; it changes no row of runs and no
      other diary. */
  lemma {:induction false} TouchesOwnOnly(env: Env, a: Agent, s: Snap, u: Snap, n: nat, r: RunId)
    requires Grew(env, a, s, u, n)
    ensures u.db.runs == s.db.runs && s.seen <= u.seen && |u.seen| == |s.seen| + n
    ensures r != env.id ==> Rows(u.db, r) == Rows(s.db, r)
    decreases n
  {
    hide Replay, Lands, Rows, BreakOf, DiesAfter;
    if n > 0 {
      var m :| Lands(env, NeedOf(a, s.seen), s, m) && GoesOn(env, n - 1, m.seen) && Grew(env, a, m, u, n - 1);
      LandTouches(env, NeedOf(a, s.seen), s, m, r);
      TouchesOwnOnly(env, a, m, u, n - 1, r);
    }
  }

  lemma LandTouches(env: Env, need: Need, s: Snap, m: Snap, r: RunId)
    requires Lands(env, need, s, m)
    ensures m.db.runs == s.db.runs && s.seen <= m.seen && |m.seen| == |s.seen| + 1
    ensures r != env.id ==> Rows(m.db, r) == Rows(s.db, r)
  {
    hide MakeKey;
  }

  // ----- a life that is alone on its run -----

  /** The life holds the lease and has seen its whole diary; no other process writes to it. */
  ghost predicate Sole(env: Env, s: Snap) {
    && env.id in s.db.runs && LeaseOk(s.db, env.id, env.lease)
    && Dense(Rows(s.db, env.id)) && Events(DiaryOf(Rows(s.db, env.id))) == s.seen
  }

  lemma SoleIsNotRefused(env: Env, s: Snap)
    requires Sole(env, s)
    ensures Refusal(s.db, env.id, |s.seen| + 1, env.lease).None?
  {
  }

  lemma StaysSole(env: Env, need: Need, s: Snap, m: Snap)
    requires Sole(env, s) && Lands(env, need, s, m)
    ensures Sole(env, m)
  {
    var rows, e := Rows(s.db, env.id), m.seen[|s.seen|];
    var entry := Entry(e, Stamp(env.lease));
    DenseAppend(rows, entry);
    assert m.seen == s.seen + [e];
    assert Rows(m.db, env.id) == rows[|rows| + 1 := entry];
    EventsAppend(DiaryOf(rows), entry);
  }

  lemma {:induction false} GrewSole(env: Env, a: Agent, s: Snap, u: Snap, n: nat)
    requires Sole(env, s) && Grew(env, a, s, u, n)
    ensures Sole(env, u)
    decreases n
  {
    hide Replay, Lands, Sole, BreakOf, DiesAfter;
    if n > 0 {
      var m :| Lands(env, NeedOf(a, s.seen), s, m) && GoesOn(env, n - 1, m.seen) && Grew(env, a, m, u, n - 1);
      StaysSole(env, NeedOf(a, s.seen), s, m);
      GrewSole(env, a, m, u, n - 1);
    }
  }

  /** ... and no effect of the run has a key yet beyond what the life has seen. */
  ghost predicate Alone(env: Env, s: Snap) {
    Sole(env, s) && forall slot: nat :: MakeKey(env.id, slot) in s.db.keys ==> slot < |s.seen|
  }

  lemma StaysAlone(env: Env, need: Need, s: Snap, m: Snap)
    requires Alone(env, s) && Lands(env, need, s, m)
    ensures Alone(env, m)
  {
    StaysSole(env, need, s, m);
    forall slot: nat | MakeKey(env.id, slot) in m.db.keys ensures slot < |m.seen| {
      if MakeKey(env.id, slot) !in s.db.keys {
        KeyInjective(env.id, slot, env.id, |s.seen|);
      }
    }
  }
}

/** The replay engine as functions on a diary: what a Context does with a recorded
    history, one ctx call at a time, and what a whole life of an agent does with it. */
module Engine {
  import opened Diary

  /** What an agent asks of its ctx, or how it ends. */
  datatype Op =
    | Llm(prompt: string)
    | Effect(fn: string)
    | Ask(question: string)
    | Read(key: string, default: Value)
    | Done(output: Value)
    | Raise

  /** What ctx answered. */
  datatype Obs =
    | Answer(text: string)
    | Outcome(result: Value)
    | Decision(approved: bool)
    | Setting(value: Value)

  predicate Ends(op: Op) {
    op.Done? || op.Raise?
  }

  /** A deterministic agent: its next call is a function of the answers so far.
      `bound` is a number of calls after which it has surely ended. */
  datatype Script = Script(next: seq<Obs> -> Op, bound: nat)

  ghost predicate Bounded(s: Script) {
    forall obs :: |obs| >= s.bound ==> Ends(s.next(obs))
  }

  type Agent = s: Script | Bounded(s) witness Script((obs: seq<Obs>) => Raise, 0)

  /** The position of a life: the ctx cursor and config, and the answers given. */
  datatype Walk = Walk(cursor: nat, config: Config, obs: seq<Obs>)

  const Start := Walk(0, map[], [])

  function Latest(w: Walk): Obs
    requires |w.obs| > 0
  {
    w.obs[|w.obs| - 1]
  }

  /** Why a life cannot go on from the diary alone. */
  datatype Need =
    | Call(prompt: string)       // the model must answer, then LLM_CALLED is appended
    | Intend(fn: string)         // TOOL_INTENT must be appended
    | Perform(fn: string)        // the effect must run and commit with TOOL_COMPLETED
    | Request(question: string)  // APPROVAL_REQUESTED must be appended
    | Await(question: string)    // a human must decide
    | Finish(output: Value)
    | Fail                       // the agent itself raised
    | Diverge(slot: nat)         // ReplayDivergenceError at this seq

  datatype Halt = Halt(at: Walk, need: Need)
  datatype Turn = Go(next: Walk) | Stop(halt: Halt)

  /** _apply_pending_patches: the cursor and config after the patches under the cursor. */
  function Pending(h: seq<Event>, c: nat, config: Config): (r: (nat, Config))
    ensures c <= r.0
    ensures c <= |h| ==> r.0 <= |h|
    ensures r.0 < |h| ==> !h[r.0].PatchApplied?
    ensures forall i :: c <= i < r.0 ==> i < |h| && h[i].PatchApplied?
    decreases |h| - c
  {
    if c < |h| && h[c].PatchApplied? then Pending(h, c + 1, config + h[c].patch) else (c, config)
  }

  /** One ctx call (or the agent's end) against the history `h`. */
  function OpTurn(h: seq<Event>, w: Walk, op: Op): Turn {
    if op.Done? then Stop(Halt(w, Finish(op.output)))
    else if op.Raise? then Stop(Halt(w, Fail))
    else
      var (c, config) := Pending(h, w.cursor, w.config);
      match op
      case Read(key, default) =>
        Go(Walk(c, config, w.obs + [Setting(if key in config then config[key] else default)]))
      case Llm(prompt) =>
        if c >= |h| then Stop(Halt(Walk(c, config, w.obs), Call(prompt)))
        else if h[c].LlmCalled? && h[c].prompt == prompt then
          Go(Walk(c + 1, config, w.obs + [Answer(h[c].response)]))
        else Stop(Halt(w, Diverge(c + 1)))
      case Effect(fn) =>
        if c >= |h| then Stop(Halt(Walk(c, config, w.obs), Intend(fn)))
        else if !h[c].ToolIntent? then Stop(Halt(w, Diverge(c + 1)))
        else if c + 1 >= |h| then Stop(Halt(Walk(c + 1, config, w.obs), Perform(fn)))
        else if h[c + 1].ToolCompleted? then
          Go(Walk(c + 2, config, w.obs + [Outcome(h[c + 1].result)]))
        else Stop(Halt(w, Diverge(c + 2)))
      case Ask(question) =>
        if c >= |h| then Stop(Halt(Walk(c, config, w.obs), Request(question)))
        else if !(h[c].ApprovalRequested? && h[c].question == question) then Stop(Halt(w, Diverge(c + 1)))
        else if c + 1 >= |h| then Stop(Halt(Walk(c + 1, config, w.obs), Await(question)))
        else if h[c + 1].Approval? then
          Go(Walk(c + 2, config, w.obs + [Decision(h[c + 1].approved)]))
        else Stop(Halt(w, Diverge(c + 2)))
  }

  function AgentTurn(a: Agent, h: seq<Event>, w: Walk): Turn {
    OpTurn(h, w, a.next(w.obs))
  }

  /** A whole life on the history `h`, up to the first thing `h` does not answer. */
  function Replay(a: Agent, h: seq<Event>, w: Walk): Halt
    decreases if |w.obs| < a.bound then a.bound - |w.obs| else 0
  {
    match AgentTurn(a, h, w)
    case Stop(halt) => halt
    case Go(next) => Replay(a, h, next)
  }

  /** The effects that run `id` itself performed, in diary order: those whose
      TOOL_INTENT lies beyond the first `floor` events, which were inherited. */
  function Performed(a: Agent, id: RunId, h: seq<Event>, w: Walk, floor: nat): seq<Commit>
    decreases if |w.obs| < a.bound then a.bound - |w.obs| else 0
  {
    match AgentTurn(a, h, w)
    case Stop(_) => []
    case Go(next) =>
      PerformedBy(a.next(w.obs), id, h, next, floor) + Performed(a, id, h, next, floor)
  }

  function PerformedBy(op: Op, id: RunId, h: seq<Event>, next: Walk, floor: nat): seq<Commit> {
    if op.Effect? && 2 <= next.cursor <= |h| && h[next.cursor - 1].ToolCompleted? && next.cursor - 1 > floor then
      [Commit(id, next.cursor - 1, op.fn, h[next.cursor - 1].result)]
    else []
  }

  ghost predicate AllPatches(h: seq<Event>, from: nat) {
    forall i :: from <= i < |h| ==> h[i].PatchApplied?
  }

  /** `h` is a trace of the agent on its own recorded answers: the life it describes
      does not diverge and reads all of it, up to patches the agent ended before. */
  ghost predicate Trace(a: Agent, h: seq<Event>) {
    var r := Replay(a, h, Start);
    !r.need.Diverge? && AllPatches(h, r.at.cursor)
  }

  predicate Writes(n: Need) {
    n.Call? || n.Intend? || n.Perform? || n.Request?
  }

  /** `e` is an event that answers the need `n`. */
  predicate Answers(n: Need, e: Event) {
    match n
    case Call(p) => e.LlmCalled? && e.prompt == p
    case Intend(_) => e.ToolIntent?
    case Perform(_) => e.ToolCompleted?
    case Request(q) => e == ApprovalRequested(q)
    case Await(_) => e.Approval?
    case _ => false
  }

  /** The turn on a diary to whose end the awaited event `e` was appended. */
  function Answered(r: Halt, e: Event): Turn
    requires Answers(r.need, e)
  {
    var w := r.at.(cursor := r.at.cursor + 1);
    match r.need
    case Call(_) => Go(w.(obs := w.obs + [Answer(e.response)]))
    case Intend(fn) => Stop(Halt(w, Perform(fn)))
    case Perform(_) => Go(w.(obs := w.obs + [Outcome(e.result)]))
    case Request(q) => Stop(Halt(w, Await(q)))
    case Await(_) => Go(w.(obs := w.obs + [Decision(e.approved)]))
  }

  /** Where a life stands after `e`, which answers what it halted for at the end of
      `h`, was appended: it goes on from there without looking back. */
  function Advance(a: Agent, h: seq<Event>, r: Halt, e: Event): Halt
    requires Answers(r.need, e)
  {
    match Answered(r, e)
    case Go(next) => Replay(a, h + [e], next)
    case Stop(halt) => halt
  }
}

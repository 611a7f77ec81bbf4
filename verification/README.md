# Timefork, verified

Timefork runs agents durably: every step of a run is an event in a Postgres diary, a crashed
life is replayed from that diary, a fleet of workers shares the runs under leases with fencing
tokens, and a run can be forked at any step into a new timeline. This project models that
machinery in Dafny and proves what Timefork promises of it, for every agent, every diary, every
interleaving and every crash.

## The layers

| files | what they model |
|---|---|
| `Diary`, `Engine` | events, idempotency keys, and the replay engine as functions: one ctx call against a history (`Engine.OpTurn`), a whole life (`Engine.Replay`), the effects a diary shows as performed (`Engine.Performed`) |
| `Traces`, `Hearing`, `Timelines` | what replay promises: appending resumes, cuts and patches, config, divergence, and that an agent is told just what its diary says; and the uninterrupted life of a run (`Timelines.Lifetime`), the reference for all crashed ones |
| `Tables`, `Leases`, `Protocol`, `Safety`, `Progress` | the rows of runs and the law of leases; everything the fleet does to one run as a transition system (`Protocol.Do`): workers, zombies, the sweeper, humans who commit twice; its invariant (`Protocol.Inv`) and its liveness |
| `Store`, `Fleet`, `FleetSafety`, `History`, `Bills` | the shared tables and the transactions on them, the fleet of many runs and forks over one database, what its executions keep for ever, and what they cost |
| `Guarantees`, `Transparency`, `Lineages`, `Diff` | the promises, in every reachable state of the fleet: exactly once, fencing, approvals, forks, the bill, crash transparency, the tree of forks and the diff |
| `Locks`, `Refinement`, `LockedRuns` | the same transactions statement by statement, interleaved under row locks and the unique index, and the proof that they refine the atomic ones |
| `Database`, `MockLlm`, `Lives`, `Context`, `Runner`, `Chaos`, `Crashes`, `Worker`, `Conformance` | the objects that change in place: the tables, the model (`Llm`: MockLLM or any other), the Context with its seven crash points, the agent's loop, the crash harness and the draining worker, each proved in terms of the fields it changes and against the functions above |

Three facts make the invariants of the fleet delicate, and the model has all three: the sweeper
requeues a run without bumping its token, a worker reads the diary after its claim and in a
transaction of its own, and a human's answer is inserted without a fence. The central invariant
is `Protocol.CaughtUp`: a life that holds the current token has seen the whole diary, except for
a human's answer to the question it has stopped at.

## Standing assumptions

- Postgres row locks and transactions behave as documented: a statement that waited for a row
  evaluates its WHERE clause on the row as last committed, SKIP LOCKED skips a locked row, an
  insert waits for a concurrent insert of the same key, and what did not commit is gone.
- The ids drawn for runs are fresh, and so are the ids by which the model tells lives and grants apart.
- An agent is deterministic, ends after finitely many calls, and does not catch the exceptions of
  ctx. It is a function from the answers so far to the next call (`Engine.Agent`).
- Effects write to the effect state only. The effect state is represented by the journal of the
  effects that committed; whatever the effects wrote is a function of it.
- What raises in a life is the agent, the model or an effect. A statement that reaches the
  database fails as the code expects it to: by the fence, a unique violation or a missing run.
- `created_at` is the order of insertion. (The source takes the start of the inserting
  transaction, so two concurrent inserts may be ordered the other way.)
- For crash transparency, and for it alone: the model is a function of the prompt, an effect a
  function of what the run's own effects have done, and a human's decision one of its place in
  the diary; either function may be undefined, which is where the model or the effect always
  raises. A world may also be flaky: then they may raise anywhere.
- In the fleet, diaries are written only by fenced workers, `grant_approval` and `fork_run`, and a
  `grant_approval` that has inserted its answer goes on to requeue the run.

## Where the documentation and the code part

The model follows the code.

- README.md:323 says that the model is never called twice. A kill between the model's answer and
  its append makes the next life call it again: `Counterexamples.CalledTwice` is such a run, and
  `Guarantees.BillIsExact` says exactly how often it happens.
- timefork/diff.py:41-43 says that the divergence is None when one diary is a prefix of the other. The loop
  reports the seq after the shorter one: `Diff.DiffRuns` proves that it is None only for equal
  diaries, and `Diff.ProperPrefix` shows the case.
- A completed or failed run is not final when a grant is late with its second commit:
  `Counterexamples.CompletedReopens` is such a run, and `Progress.OverUnlessRequeued` proves that
  nothing else reopens one.
- context.py:196-198 turns every unique violation into DuplicateSequenceError, so an effect that
  violates a constraint of its own surfaces as one even for a worker that holds the lease
  (`Guarantees.EffectIsCaughtUpOrFenced`).

## Model

| member | source | states |
|---|---|---|
| Diary.KeyReads | timefork/context.py:149-152 | a key is read back to the run id and the seq it was made of |
| Diary.KeyInjective | timefork/context.py:149-152 | `run_id-seq` keys of two different effects differ, whatever characters the run ids contain |
| Traces.Resume | timefork/context.py:84-104 | replaying a diary to which the awaited event was appended comes to exactly the point where the life that appended it stands |
| Traces.NeedsAtTheEnd | timefork/context.py:123-161 | a life asks for a write or a human only at the end of its diary, and a half-open operation is the last event |
| Traces.TraceExtends | timefork/context.py:100-104 | a diary that replays without divergence still does after the event that its life asked for |
| Traces.ForkGuardExact | timefork/fork.py:37-57 | a trace of the agent, cut at k and patched, is again a trace if and only if event k is not the first half of an operation; if it is, replay diverges at k + 1 |
| Traces.TraceParses | timefork/context.py:123-228 | a diary that replays is a sequence of complete operations with at most one half-open one, at the tail |
| Traces.EndsOnQuestion | timefork/context.py:205-228 | a diary that ends on a request is a life waiting for the answer to that very question |
| Traces.ConfigIsFold | timefork/context.py:106-119 | at every position of every life, config is the last-wins fold of the patches the cursor has passed |
| Traces.LastPatchWins | timefork/context.py:106-114 | in that fold a key has the value of the last patch that sets it |
| Traces.PatchedOnlyBySetting | timefork/context.py:116-119 | and it has a value if and only if some patch sets it |
| Hearing.ReplayReadsTheDiary | timefork/context.py:116-228 | for every agent and diary: the answers a life was given, settings aside, are precisely those the diary holds up to the cursor, in order; each is the recorded answer to the call the agent made then; each setting is what the last patch before it made of the key, or the default; and what the life stops for is its agent's next call |
| Hearing.AnswersAreTheDiary | timefork/context.py:123-161 | the same from any position that has so far followed the diary, which every later position then does too |
| Hearing.ReadTells | timefork/context.py:116-119 | config answers with the value of the last patch up to the cursor that sets the key, and with the default when none does |
| Traces.PerformedSound | timefork/context.py:142-161 | the effects a diary shows as performed stand at increasing seqs, each at a TOOL_INTENT beyond what was inherited, with the recorded result |
| Traces.PerformedComplete | timefork/context.py:142-161 | and every completion beyond what was inherited is among them |
| Traces.DivergesExactlyOnMismatch | timefork/context.py:93-133 | any code raises ReplayDivergenceError at a seq if and only if its life comes to a call that differs from the event there in type, prompt or question |
| Timelines.LivesEnd | timefork/context.py:123-228 | the uninterrupted life of every agent ends |
| Timelines.EndIsUnique | harness/chaos.py:75-78 | and it has one end, diary and commits alike |
| Timelines.LifetimeExtends | harness/chaos.py:75-78 | every point of it is a prefix of the whole, proper unless the life has ended |
| Timelines.GrownPerforms | timefork/context.py:163-203 | at every point of it the commits are precisely the effects that its diary shows as performed, each once |
| Timelines.GrownSays | harness/chaos.py:75-78 | since its birth it consists of the model's answers, the humans' decisions, the results of the effects in their order, and its own keys, each as the world has it at that seq |
| Leases.LeaseLaw | timefork/queue.py:54-99 | after a claim and any heartbeats of anyone, a heartbeat succeeds exactly for the claiming worker, a sweep takes the run exactly when the last expiry that worker asked for has passed, and the claim's token alone can settle it |
| Leases.WaysToRelease | timefork/queue.py:85-99 | the row that a sweep after expiry, a completion or a parking leaves of a claimed run |
| Leases.ReleasedForGood | timefork/queue.py:68-82 | once swept, parked or completed, a run is touched by no heartbeat of anyone, no sweep and no settlement until it is claimed again |
| Leases.ReclaimFences | timefork/queue.py:54-65 | a new claim takes the settlement away from the old token, and the heartbeat from any other worker |
| Safety.Keeps | timefork/worker.py:57-90 | every action of workers, zombies, sweeper and humans, a model call or an effect that raises included, keeps the invariant of a run: diary, commits, keys, tokens, leases, status and bill |
| Safety.WriterCaughtUp | timefork/context.py:84-104 | a life with the current token that is about to write has seen exactly the diary |
| Safety.KeyIsFresh | timefork/context.py:177-187 | the key of an effect still to be performed is not in completed_keys |
| Safety.ActionTokens | timefork/queue.py:54-65 | an action adds entries under the current token or none, and a claim alone moves the token, by one |
| Progress.NotOrphaned | timefork/queue.py:85-99 | an unfinished run is queued, or running with an owner and an expiry, or paused on an unanswered request, or about to be requeued by a grant |
| Progress.CanFinish | timefork/worker.py:24-43 | from every state that satisfies the invariant there are enabled actions of a sweeper, a worker and a human that bring the run to its end |
| Progress.OverUnlessRequeued | timefork/context.py:248-250 | nothing but the second commit of a grant changes the status of a completed or failed run, and nothing at all changes its diary or its commits |
| Store.ReadsDense | timefork/events.py:116-123 | read_events lists event i + 1 of a dense diary at position i |
| Store.ReadsAll | timefork/events.py:116-123 | ORDER BY seq lists every row of any table of events exactly once, in strictly increasing order |
| Store.DenseAppend | db/schema.sql:18-26 | the next seq of a dense diary is free, and the diary stays dense with the event appended |
| Store.ForkDiary | timefork/fork.py:65-76 | the child's diary is the parent's first at_seq events and the patch, densely numbered, with lease_token 0 |
| FleetSafety.LocalMoves | timefork/worker.py:57-90 | a transaction on the shared tables is exactly one action of one run, and no other run notices it |
| FleetSafety.ForkKeeps | timefork/fork.py:23-78 | fork_run bears a run that satisfies the invariant of every run, and disturbs none |
| FleetSafety.SweepKeeps | timefork/queue.py:85-99 | one sweep of all lapsed leases keeps the invariant of every run |
| FleetSafety.AlwaysSafe | timefork/worker.py:24-90 | in every state of every execution of the fleet, whatever crashes or raises, every run satisfies its invariant |
| History.NoLateEvent | timefork/events.py:95-107 | from any state of an execution on, no diary loses or changes an entry, tokens never fall, and no entry with an older token than the current one is ever added |
| History.TokensAreFresh | timefork/queue.py:54-65 | no (run, token) pair is handed to two claims |
| Guarantees.NeverTwice | timefork/context.py:142-203 | no effect, named by its run and the seq of its intent, has committed twice |
| Guarantees.CommittedIffRecorded | timefork/context.py:163-203 | an effect has committed if and only if the diary of its run shows its completion |
| Guarantees.KeyIffCompleted | db/002_completed_keys.sql:6-12 | completed_keys has the key of (run, seq) if and only if the run's own diary has the intent at seq and, next, the completion with that key and that result |
| Guarantees.CompletionsAreStored | timefork/fork.py:65-71 | every TOOL_COMPLETED of every diary, forks of forks included, carries the result stored under its key |
| Guarantees.CompletedIsWhole | timefork/worker.py:69-78 | the diary of a completed run is the agent's whole trace up to unread trailing patches, and its commits are precisely the effects of that trace that it did not inherit |
| Guarantees.ReuseNeverCommits | timefork/context.py:177-195 | when _perform_once finds its key already stored, its transaction fails |
| Guarantees.WriterIsCaughtUpOrFenced | timefork/events.py:95-112 | a worker about to append has either the current token, and then the whole diary and a free seq, or a stale one, and then every append gets StaleFenceError and no table changes |
| Guarantees.EffectIsCaughtUpOrFenced | timefork/context.py:163-203 | an effect about to be performed has either the current token, and then the whole diary, and commits with its key and its completion at the next free seq, or is rolled back when it raises, as DuplicateSequenceError if it was a unique violation; or a stale token, and then StaleFenceError |
| Guarantees.RaisingParksOnly | timefork/worker.py:84-86 | a life whose model or effect raised changes one thing: its run is parked as failed, if it still holds the lease |
| Guarantees.OneWriter | timefork/queue.py:35-38 | no two lives of a run hold the same token |
| Guarantees.NoWriterAtRest | timefork/worker.py:46-54 | no life holds a token beyond the current one, and none the current one of a run that is paused, completed or failed |
| Guarantees.TokensInOrder | timefork/context.py:188-193 | along a diary the non-zero lease tokens never decrease, no entry, the newest included, has one beyond the run's token, and what was inherited has 0 |
| Guarantees.DiariesReplay | timefork/context.py:93-98 | every diary parses, and the unchanged agent diverges neither on it nor on what any life, however stale, has seen of it |
| Guarantees.NoLostApproval | timefork/context.py:244-250 | a paused run waits on an unanswered request, unless a grant that has recorded the answer is about to requeue it |
| Guarantees.NoOrphan | timefork/queue.py:85-99 | for every unfinished run of every reachable state a claim, a sweep after expiry, a decision or a requeue is enabled |
| Guarantees.ForkAcceptsExactly | timefork/fork.py:37-57 | fork_run accepts k if and only if k is in 1..n and the child replays through the patch; what it refuses in range would diverge at k + 1 |
| Guarantees.PrefixIsFree | timefork/fork.py:59-78 | a life of a fork at k calls the model, runs effects and appends only from seq k + 2 on, forks of forks likewise |
| Guarantees.InheritedNeverRuns | timefork/context.py:154-156 | no effect of an inherited prefix ever commits for the fork |
| Guarantees.BillIsExact | timefork/mock_llm.py:34-46 | model calls are the calls the run recorded itself, plus answers in hand, plus answers lost with the life that held them, which are at most the lives lost |
| Bills.BillIsTheHistory | timefork/mock_llm.py:34-46 | at every point of every execution the counters of a run's bill are the model calls made for it, the lives it lost to a kill or a stale token, and those lost with an answer in hand |
| Counterexamples.CalledTwice | timefork/context.py:135-138 | a run whose one recorded call was paid for twice |
| Counterexamples.CompletedReopens | timefork/context.py:248-250 | a run that a worker completed and a late grant then requeued |
| Transparency.StaysTrue | timefork/context.py:123-203 | when model, effects and humans behave as a fixed world says, every action keeps a run on the course of its uninterrupted life |
| Transparency.AlwaysOnCourse | harness/chaos.py:75-78 | in every state of every execution the diary and the commits of a run are a beginning of its one uninterrupted life, and the whole of it exactly when the agent has ended or the world raises at what it asks for |
| Transparency.CrashTransparent | harness/chaos.py:75-78 | a run that is completed has exactly the diary and the commits of its one uninterrupted life; so has a run that is failed, unless a model or an effect raised that does not always raise there |
| Transparency.HistoriesAgree | harness/chaos.py:75-78 | two differently interrupted histories of a run that was born alike, enqueued or forked, end with the same diary and commits, completed or failed |
| Diff.CommonIsLongest | timefork/diff.py:36-57 | two diaries share a prefix if and only if it is no longer than the computed one |
| Diff.DiffRuns | timefork/diff.py:40-59 | `shared` is the longest common prefix, `diverge_at` the seq after it unless the diaries are equal, and there is one row per seq of the longer diary with the event of each, marked the same exactly when both have it |
| Diff.ProperPrefix | timefork/diff.py:53-57 | a proper prefix shares all of itself and still diverges at the next seq |
| Lineages.Forest | timefork/fork.py:59-64 | each step up the parent relation leads to an older run |
| Lineages.NoOwnAncestor | timefork/fork.py:81-95 | so no run is its own ancestor and every way up ends |
| Lineages.SharesWithAncestor | timefork/fork.py:65-71 | a run shares with any ancestor at least the least fork_seq on the way to it |
| Lineages.SharesForEver | timefork/fork.py:65-71 | and so it stays in every later state |
| Lineages.DiffOfFork | timefork/diff.py:40-59 | the diff of a fork and its parent reports fork_seq if and only if the parent's next event is not an identical patch, which it cannot be at a point of the parent's own |
| Lineages.ChildrenAgree | timefork/fork.py:81-95 | children_of lists every fork of a run once, by fork_seq and age, in agreement with parent_of |
| Refinement.StatementRefines | timefork/events.py:95-107 | each statement of each transaction, a rollback at any point included, however interleaved under the row lock and the unique index, shows nothing or is one enabled atomic action |
| Refinement.RollbackRefines | timefork/events.py:108-113 | a transaction that is rolled back, at whatever statement, leaves nothing but a free lock |
| Refinement.StagedIsNext | timefork/context.py:168-195 | the seq reserved by an uncommitted insert is the next of the diary |
| LockedRuns.RunsAtomically | timefork/queue.py:40-65 | what the committed tables show at any point of an interleaving, some sequence of atomic actions shows |
| LockedRuns.NoLateEvent | timefork/events.py:83-89 | once the claim that issued a token has committed, no event with an older one commits, however long its transaction was open |
| LockedRuns.TokensAreFresh | timefork/queue.py:57-65 | two committed claims never hand out the same token |
| Databases.Database.AppendEvent | timefork/events.py:73-113 | append_event adds exactly the event at the seq, stamped with the lease token or 0, or fails with exactly one of: a lease token that is not the row's, an unknown run, a taken seq; on any failure, and of all else, no change |
| Databases.Database.ReadEvents | timefork/events.py:116-123 | read_events returns each row of the run once, by increasing seq, whatever gaps the numbering has |
| Databases.Database.CreateRun | timefork/events.py:58-70 | create_run inserts a running row |
| Databases.Database.SetRunStatus | timefork/events.py:126-141 | set_run_status changes the status and nothing else, or finds no run |
| Databases.Database.PerformOnce | timefork/context.py:163-203 | effect, key and completion commit together, with a stored result reused and the effect not run, or not at all: when the lease is stale, the effect raises, the seq is taken, or the process dies before the commit |
| Databases.Database.EnqueueRun | timefork/queue.py:14-23 | enqueue_run inserts a queued row |
| Databases.Database.ClaimRun | timefork/queue.py:40-65 | a claimed run had status queued and the agent asked for, and no such run was created before it; its row becomes running with this owner and expiry and the next token, which is returned; None exactly when no queued run has that agent |
| Databases.Database.Heartbeat | timefork/queue.py:68-82 | true exactly when the run is running and this worker its owner; then its expiry, and nothing else, changes |
| Databases.Database.SweepExpired | timefork/queue.py:85-99 | exactly the running runs whose expiry is less than the clock are returned and become queued without owner or expiry; tokens and all other rows stay |
| Databases.Database.Complete | timefork/worker.py:73-78 | the status becomes completed if the token is the row's and the run is running; nothing else changes, and otherwise nothing |
| Databases.Database.Park | timefork/worker.py:46-54 | likewise for paused and failed, and owner and expiry are cleared |
| Databases.Database.GrantApproval | timefork/context.py:231-250 | refused exactly when the row with the highest seq is not a request; else the answer comes at the next seq, with token 0, and the run is queued; for an unknown run nothing changes |
| Databases.Database.ForkRun | timefork/fork.py:23-78 | accepted exactly for a known parent, a seq in range and a boundary that splits nothing; the child has the parent's agent and input, is queued, points to its parent, and has the events up to that seq and then the patch, all with token 0 |
| Models.Llm.Complete | timefork/mock_llm.py:34-55 | a script answers call n with its n-th text until it is exhausted, a seed by `seed:prompt` alone, the default by its generator's next draw; each answer is counted and a refusal is not; any other model answers or raises |
| Models.ScriptInOrder | timefork/mock_llm.py:34-46 | the answers to any number of successive calls are the script in order, and then refusals for good |
| Models.SeededIsAFunction | timefork/mock_llm.py:48-51 | seeded mocks with one seed answer a prompt alike, whatever they were asked before |
| Models.SeedTextInjective | timefork/mock_llm.py:48-51 | no two pairs of seed and prompt seed the generator alike |
| Contexts.Context.constructor | timefork/context.py:71-86 | a Context starts at cursor 0 with an empty config and the diary as its history |
| Contexts.Context.ApplyPendingPatches | timefork/context.py:106-114 | cursor and config after all adjacent patches under the cursor |
| Contexts.Context.Config | timefork/context.py:116-119 | the value that the last patch before the new cursor gave the key, or the default if none did, with the cursor past all adjacent patches and nothing written |
| Contexts.Context.ReplayNext | timefork/context.py:93-98 | the event under the cursor, or a divergence at its seq |
| Contexts.Context.Record | timefork/context.py:100-104 | the event is appended at the seq after all the life has seen, exactly when the database does not refuse it; a refusal changes nothing |
| Contexts.Context.Llm | timefork/context.py:123-140 | what ctx.llm returns is the response of the LLM_CALLED with this prompt just before the cursor; it returns the recorded answer for free, or diverges with nothing changed, or dies, raises or is refused exactly where the code does, in that order and having paid for an answer or not, or else records one answer of the model |
| Contexts.Context.PerformOnce | timefork/context.py:163-203 | the effect lands as a completion under its key; or nothing changed, because the lease is stale, the effect raised, the seq was taken, or the process was killed before the commit, in that order |
| Contexts.Context.SideEffect | timefork/context.py:142-161 | what ctx.side_effect returns is the result of the TOOL_COMPLETED just before the cursor, which follows its intent; recorded or performed in two phases with four crash points |
| Contexts.Context.Approval | timefork/context.py:205-228 | what ctx.approval returns is the decision just before the cursor, which follows the request of the very same question; else it records the question and pauses |
| Lives.CallIsLife | timefork/context.py:84-104 | whatever a ctx call committed answers what replay of all that the life has seen asks for, and the life stands where replay would bring it |
| Lives.CallFollows | timefork/context.py:116-228 | a ctx call that returns leaves a life that has heard just what its diary says, and has its config patched accordingly, in that state |
| Lives.ReplayIsFree | timefork/context.py:123-133 | a life on a diary that answers everything, or on one that its code does not fit, makes no model call, runs no effect and appends nothing |
| Runner.LiveOnce | harness/agent.py:37-45 | one life of any agent grows the diary by exactly the events that replay asks for, and ends as the diary then says; an agent that returned was told all that the diary says, in order, and returned what it then returns |
| Crashes.KilledWhereInjected | timefork/crash.py:14-20 | a killed life stands at the injected point and, if one was pinned, the pinned seq, and has lost a paid answer only at before_append |
| Crashes.NoneGetsPast | timefork/context.py:135-161 | no life commits an event past an injected before-point, and none survives an event at an injected after-point, at the pinned seq or at any |
| Crashes.StruckIsKilled | timefork/context.py:135-161 | a life that comes to the injected point is killed there, unless the model or the database stops it just before |
| Chaos.OneLife | harness/agent.py:37-45 | a killed or finished life leaves the run on the course of its uninterrupted life, and costs at most one call more than it recorded |
| Chaos.Answer | timefork/context.py:231-250 | a human's grant to a run that waits is accepted and makes the diary one event longer, still on the course of the uninterrupted life |
| Chaos.Round | harness/chaos.py:66-71 | one launch of the harness keeps that course, and disturbs no other run |
| Chaos.Certify | harness/chaos.py:52-80 | after any list of injected crashes and one life left alone, diary, effects, output and status are those of the one uninterrupted life, or the last life raises where that does, and the bill exceeds the recorded calls by at most the kills |
| Workers.Execute | timefork/worker.py:57-90 | one fenced life, then the row, if it is still running under the token, is completed with its lease, or paused or failed without it, as the life ended, whatever raised; it is untouched if the life was fenced out or killed, and so is every other row |
| Workers.ServeNext | timefork/worker.py:34-43 | one turn of the loop serves the oldest queued run of the agent, which leaves the queue with the next token and the status its diary earned it, or finds the queue empty |
| Workers.RunWorker | timefork/worker.py:24-43 | a lone worker returns after exactly one life per queued run of its agent, oldest first; each has the next token and is completed, paused or failed as its diary says, and no other row is touched |
| Conformance.LandingIsSteps | timefork/context.py:84-104 | each event that a Context commits is committed by the steps of the fleet model, with the same tables and the same view of the diary |
| Conformance.FencedIsLost | timefork/worker.py:79-80 | a Context that is fenced out, at an append, at an effect or with a model answer in hand, is a lost life of the fleet model, and no table changes |
| Conformance.DuplicateIsBroken | timefork/worker.py:84-86 | a Context whose seq was taken is a life that the fleet model breaks off, parking its run |
| Conformance.SettlingIsAStep | timefork/worker.py:68-87 | the row that a worker leaves, however its life ended, is the one that the last step of the life leaves in the fleet model: it ends, throws, is refused or is killed |
| Conformance.TryingIsEnabled | timefork/context.py:123-161 | what a Context tries is enabled in the fleet: the consultation of the model, if due, and then the commit, with the same outcome |
| Conformance.ClaimIsAStep | timefork/queue.py:40-65 | each claim of a queued run is an enabled claim of the fleet, with the same tables and a new life under the returned token |
| Conformance.NoClaimIsEnabled | timefork/queue.py:52-53 | and when no queued run has the agent, the fleet has no claim for it either |
| Conformance.BeatIsAStep | timefork/queue.py:68-82 | a heartbeat is an enabled step of the fleet, found the lease or not, with the same tables |
| Conformance.SweepIsAStep | timefork/queue.py:85-99 | so is a sweep of all lapsed leases |
| Conformance.GrantIsSteps | timefork/context.py:231-250 | a grant is a decision, its record and the requeue in the fleet, with the same tables; and no decision is enabled without a request at the tail |

## Left out

- Connections, SQL text, JSON encoding and Python's exception plumbing: tables are maps, a JSON value is a string, a failed transaction is no change.
- The command line, the dashboard, the benchmarks and `timefork/llm.py`: presentation and network clients.
- Real time, threads and SIGKILL itself: clock readings are parameters, scheduling is nondeterministic, and a killed life stops.
- Workers.Execute: does not run the heartbeat thread; in the fleet model a heartbeat of any worker can come at any moment; the lone worker has no sweeper to beat against.
- Workers.RunWorker: is `run_worker` with `run_forever=False`; with `run_forever=True` it does not return, and its iterations are the same.
- The latency of MockLLM, and the bits of its generator: a reply is an unspecified function of the generator's state and the prompt. What a model that raises may charge is not billed.
- `_describe` and the text of exceptions: a row of the diff holds the events themselves, and an exception its seq or question.
- A process that dies between the two commits of `grant_approval`: it would strand a paused run whose question is answered, so the model lets every grant that has recorded its answer finish.
- Several unfenced Contexts at once on one run, and agents that catch what ctx raises: outside what the fleet guarantees; unfenced lives are modelled one at a time, in `Chaos`.
- Traces.DivergesExactlyOnMismatch: does not detect code that stops early, or a changed effect function; Timefork compares types, prompts and questions only.
- Runs made by `create_run` inside the fleet: they are running without an owner, so neither a claim nor a sweep ever takes them; they are modelled in `Databases` and `Chaos`.
- Row locks across several runs: the lock layer follows one run, since every transaction of a worker or a human locks one row, and a sweep locks each of its rows on its own.
- Refinement.StatementRefines: takes the rollback of a fenced worker's duplicate insert and the parking that follows as one step; `Refinement.StagedIsNext` and `Guarantees.WriterIsCaughtUpOrFenced` show that no such insert is ever made.
- Contexts.Context.constructor: assumes that the diary has no gaps; the schema calls the numbering dense, and `FleetSafety.AlwaysSafe` proves that it is.

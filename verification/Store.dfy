/** The database: the tables and, as functions, the transactions that Timefork runs on
    them. A transaction that fails was rolled back, so it returns an error and no tables. */
module Store {
  import opened Diary
  import opened Tables

  /** runs, events keyed by (run_id, seq), completed_keys, and the effect state. */
  datatype Db = Db(
    runs: map<RunId, Run>,
    events: map<RunId, map<nat, Entry>>,
    keys: map<string, Value>,
    journal: seq<Commit>)

  datatype Error =
    | StaleFence
    | Duplicate          // DuplicateSequenceError: a unique violation, of whatever table
    | EffectRaised       // whatever else the effect function raised
    | UnknownRun
    | InvalidForkPoint
    | NotAwaitingApproval

  datatype Result<+T> = Ok(value: T) | Err(error: Error)

  const Empty := Db(map[], map[], map[], [])

  // ----- events -----

  function Rows(db: Db, r: RunId): map<nat, Entry> {
    if r in db.events then db.events[r] else map[]
  }

  /** The rows are numbered 1..n without a gap. */
  ghost predicate Dense(m: map<nat, Entry>) {
    forall i: nat :: i in m <==> 1 <= i <= |m|
  }

  ghost function DiaryOf(m: map<nat, Entry>): (d: seq<Entry>)
    requires Dense(m)
    ensures |d| == |m|
  {
    seq(|m|, i requires 0 <= i < |m| => m[i + 1])
  }

  datatype Row = Row(slot: nat, entry: Entry)

  predicate Bounds(k: nat, s: set<nat>) {
    forall j :: j in s ==> k <= j
  }

  lemma {:induction false} HasLeast(s: set<nat>)
    requires s != {}
    ensures exists k :: k in s && Bounds(k, s)
  {
    var x :| x in s;
    var rest := s - {x};
    if rest == {} {
      assert Bounds(x, s) by {
        assert forall j :: j in s <==> j == x || j in rest;
      }
    } else {
      HasLeast(rest);
      var k :| k in rest && Bounds(k, rest);
      var least := if x <= k then x else k;
      assert Bounds(least, s) by {
        assert forall j :: j in s <==> j == x || j in rest;
      }
    }
  }

  function Least(s: set<nat>): (k: nat)
    requires s != {}
    ensures k in s && Bounds(k, s)
  {
    HasLeast(s);
    var k :| k in s && Bounds(k, s);
    k
  }

  lemma RowGone(m: map<nat, Entry>, k: nat)
    requires k in m
    ensures |m - {k}| == |m| - 1
  {
    assert (m - {k}).Keys == m.Keys - {k};
    assert |m.Keys| == |m| && |(m - {k}).Keys| == |m - {k}|;
  }

  lemma NonEmpty(m: map<nat, Entry>)
    requires m != map[]
    ensures m.Keys != {}
  {
    assert exists k :: k in m;
  }

  /** SELECT ... FROM events WHERE run_id = ... ORDER BY seq. */
  function ReadEvents(m: map<nat, Entry>): seq<Row>
    decreases |m|
  {
    if m == map[] then []
    else
      NonEmpty(m);
      var k := Least(m.Keys);
      RowGone(m, k);
      [Row(k, m[k])] + ReadEvents(m - {k})
  }

  /** Whatever gaps the numbering has, each row is read once, by increasing seq. */
  lemma {:induction false} ReadsAll(m: map<nat, Entry>)
    ensures |ReadEvents(m)| == |m|
    ensures forall i, j :: 0 <= i < j < |m| ==> ReadEvents(m)[i].slot < ReadEvents(m)[j].slot
    ensures forall slot, e :: Row(slot, e) in ReadEvents(m) <==> slot in m && m[slot] == e
    decreases |m|
  {
    if m != map[] {
      NonEmpty(m);
      var k := Least(m.Keys);
      RowGone(m, k);
      var rest := ReadEvents(m - {k});
      ReadsAll(m - {k});
      assert ReadEvents(m) == [Row(k, m[k])] + rest;
      forall j | 0 <= j < |rest| ensures k < rest[j].slot {
        assert Row(rest[j].slot, rest[j].entry) in rest;
      }
      forall slot, e ensures Row(slot, e) in ReadEvents(m) <==> slot in m && m[slot] == e {
        assert Row(slot, e) in ReadEvents(m) <==> Row(slot, e) == Row(k, m[k]) || Row(slot, e) in rest;
      }
    }
  }

  lemma {:induction false} ReadsInOrder(m: map<nat, Entry>, a: nat)
    requires forall i: nat :: i in m <==> a <= i < a + |m|
    ensures |ReadEvents(m)| == |m|
    ensures forall i :: 0 <= i < |m| ==> ReadEvents(m)[i] == Row(a + i, m[a + i])
    decreases |m|
  {
    if m != map[] {
      NonEmpty(m);
      RowGone(m, a);
      var rest := m - {a};
      ReadsInOrder(rest, a + 1);
      assert ReadEvents(m) == [Row(a, m[a])] + ReadEvents(rest);
    }
  }

  /** Of a dense diary, read_events lists event i + 1 at position i. */
  lemma ReadsDense(m: map<nat, Entry>)
    requires Dense(m)
    ensures |ReadEvents(m)| == |m|
    ensures forall i :: 0 <= i < |m| ==> ReadEvents(m)[i] == Row(i + 1, DiaryOf(m)[i])
  {
    ReadsInOrder(m, 1);
  }

  lemma DenseAppend(m: map<nat, Entry>, e: Entry)
    requires Dense(m)
    ensures |m| + 1 !in m
    ensures Dense(m[|m| + 1 := e]) && DiaryOf(m[|m| + 1 := e]) == DiaryOf(m) + [e]
  {
    assert m[|m| + 1 := e].Keys == m.Keys + {|m| + 1};
  }

  predicate LeaseOk(db: Db, r: RunId, lease: Option<nat>) {
    lease.None? || (r in db.runs && db.runs[r].token == lease.value)
  }

  function Stamp(lease: Option<nat>): nat {
    if lease.Some? then lease.value else 0
  }

  /** append_event: fenced when a lease token is given. */
  function AppendEvent(db: Db, r: RunId, slot: nat, e: Event, lease: Option<nat>): Result<Db> {
    if !LeaseOk(db, r, lease) then Err(StaleFence)
    else if r !in db.runs then Err(UnknownRun)
    else if slot in Rows(db, r) then Err(Duplicate)
    else Ok(db.(events := db.events[r := Rows(db, r)[slot := Entry(e, Stamp(lease))]]))
  }

  /** _perform_once for the effect `fn` announced at seq `intent`: the result recorded
      under its key, or `outcome`, which is what running the effect now comes to. Effect,
      key and completion commit together; an effect that raises is rolled back, and its
      unique violation cannot be told from that of the events table. */
  function PerformOnce(
    db: Db, r: RunId, intent: nat, slot: nat, fn: string, outcome: Attempted, lease: Option<nat>):
    Result<(Db, Value)>
  {
    var key := MakeKey(r, intent);
    var done := key in db.keys;
    if !LeaseOk(db, r, lease) then Err(StaleFence)
    else if !done && !outcome.Yields? then Err(if outcome.Violates? then Duplicate else EffectRaised)
    else
      var result := if done then db.keys[key] else outcome.result;
      match AppendEvent(db, r, slot, ToolCompleted(key, result), lease)
      case Err(error) => Err(error)
      case Ok(after) =>
        if done then Ok((after, result))
        else Ok((after.(keys := db.keys[key := result],
                        journal := db.journal + [Commit(r, intent, fn, result)]), result))
  }

  // ----- runs -----

  function WithRow(db: Db, r: RunId, run: Run): Db {
    db.(runs := db.runs[r := run])
  }

  /** INSERT INTO runs: create_run and enqueue_run differ in the status only. */
  function Insert(db: Db, r: RunId, agent: string, input: Value, status: Status): Db {
    WithRow(db, r, NewRun(agent, input, status, |db.runs|, None))
  }

  function SetStatus(db: Db, r: RunId, status: Status): Result<Db> {
    if r in db.runs then Ok(WithRow(db, r, db.runs[r].(status := status))) else Err(UnknownRun)
  }

  /** The row that claim_run selects: the oldest queued one, of the given agent if any. */
  predicate Claimable(db: Db, r: RunId, agent: Option<string>) {
    r in db.runs && db.runs[r].status == Queued && (agent.Some? ==> db.runs[r].agent == agent.value)
  }

  predicate NextClaim(db: Db, r: RunId, agent: Option<string>) {
    Claimable(db, r, agent) &&
    forall q :: q in db.runs && Claimable(db, q, agent) ==> db.runs[r].created <= db.runs[q].created
  }

  function SweepAll(db: Db, now: int): Db {
    db.(runs := map r | r in db.runs :: Swept(db.runs[r], now))
  }

  // ----- forks -----

  predicate ForkPoint(m: map<nat, Entry>, at: nat) {
    1 <= at <= |m| && at in m && !m[at].event.ToolIntent? && !m[at].event.ApprovalRequested?
  }

  function CopiedPrefix(m: map<nat, Entry>, at: nat): map<nat, Entry> {
    map i | i in m && i <= at :: Entry(m[i].event, 0)
  }

  /** fork_run: the row, the copied prefix and the patch commit together. */
  function Fork(db: Db, parent: RunId, at: nat, patch: Config, child: RunId): Result<Db> {
    if parent !in db.runs then Err(UnknownRun)
    else if !ForkPoint(Rows(db, parent), at) then Err(InvalidForkPoint)
    else
      var p := db.runs[parent];
      Ok(WithRow(db, child, NewRun(p.agent, p.input, Queued, |db.runs|, Some(Origin(parent, at)))).(
           events := db.events[child := CopiedPrefix(Rows(db, parent), at)[at + 1 := Entry(PatchApplied(patch), 0)]]))
  }

  lemma ForkDiary(m: map<nat, Entry>, at: nat, patch: Config)
    requires Dense(m) && 1 <= at <= |m|
    ensures var g := CopiedPrefix(m, at)[at + 1 := Entry(PatchApplied(patch), 0)];
      && Dense(g) && |g| == at + 1
      && Events(DiaryOf(g)) == Events(DiaryOf(m))[..at] + [PatchApplied(patch)]
      && forall i :: 0 <= i < |g| ==> DiaryOf(g)[i].token == 0
  {
    var c := CopiedPrefix(m, at);
    SlotCount(at);
    assert c.Keys == Slots(at);
    assert |c| == |c.Keys|;
    DenseAppend(c, Entry(PatchApplied(patch), 0));
  }

  function Slots(n: nat): set<nat> {
    if n == 0 then {} else Slots(n - 1) + {n}
  }

  lemma {:induction false} SlotCount(n: nat)
    ensures |Slots(n)| == n && forall i :: i in Slots(n) <==> 1 <= i <= n
  {
    if n > 0 {
      SlotCount(n - 1);
    }
  }
}

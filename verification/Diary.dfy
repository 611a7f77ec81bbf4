/** The vocabulary of the diary: events, the rows that hold them, the journal of
    committed effects, and the idempotency key of a side effect. */
module Diary {

  type RunId = string
  /** A JSON value: an effect's result or a config entry. */
  type Value = string
  type Config = map<string, Value>

  datatype Option<+T> = None | Some(value: T)

  datatype Event =
    | LlmCalled(prompt: string, response: string)
    | ToolIntent(key: string)
    | ToolCompleted(key: string, result: Value)
    | ApprovalRequested(question: string)
    | Approval(approved: bool)
    | PatchApplied(patch: Config)

  datatype EventType = LLM_CALLED | TOOL_INTENT | TOOL_COMPLETED | APPROVAL_REQUESTED | APPROVAL | PATCH_APPLIED

  function TypeOf(e: Event): EventType {
    match e
    case LlmCalled(_, _) => LLM_CALLED
    case ToolIntent(_) => TOOL_INTENT
    case ToolCompleted(_, _) => TOOL_COMPLETED
    case ApprovalRequested(_) => APPROVAL_REQUESTED
    case Approval(_) => APPROVAL
    case PatchApplied(_) => PATCH_APPLIED
  }

  /** A row of the events table, without its (run_id, seq) key. */
  datatype Entry = Entry(event: Event, token: nat)

  /** One committed execution of an effect function: the effect `fn` that run
      `run` announced at seq `slot`, with the result it returned. The sequence of all
      commits is the effect state: whatever the effects wrote is a function of it. */
  datatype Commit = Commit(run: RunId, slot: nat, fn: string, result: Value)

  /** What running an effect function comes to: a result, a unique violation, or another exception. */
  datatype Attempted = Yields(result: Value) | Violates | Throws

  function Events(d: seq<Entry>): (h: seq<Event>)
    ensures |h| == |d|
    ensures forall i :: 0 <= i < |d| ==> h[i] == d[i].event
  {
    seq(|d|, i requires 0 <= i < |d| => d[i].event)
  }

  lemma EventsAppend(d: seq<Entry>, e: Entry)
    ensures Events(d + [e]) == Events(d) + [e.event]
  {
  }

  // ----- idempotency keys -----

  function Digit(d: nat): char
    requires d < 10
  {
    "0123456789"[d]
  }

  function Decimal(n: nat): (s: string)
    ensures |s| > 0
    ensures '-' !in s
  {
    if n < 10 then [Digit(n)] else Decimal(n / 10) + [Digit(n % 10)]
  }

  /** The key of the side effect that run `run` announced at seq `slot`. */
  function MakeKey(run: RunId, slot: nat): string {
    run + "-" + Decimal(slot)
  }

  /** The number that a string of digits is read as. */
  function Numeral(s: string): int {
    if s == "" then 0 else 10 * Numeral(s[..|s| - 1]) + (s[|s| - 1] as int - '0' as int)
  }

  lemma {:induction false} DecimalReads(n: nat)
    ensures Numeral(Decimal(n)) == n && forall c :: c in Decimal(n) ==> '0' <= c <= '9'
  {
    assert Decimal(n)[..|Decimal(n)| - 1] == if n < 10 then "" else Decimal(n / 10);
    assert Digit(n % 10) as int == '0' as int + n % 10;
    if n >= 10 {
      DecimalReads(n / 10);
    }
  }

  lemma DecimalInjective(m: nat, n: nat)
    requires Decimal(m) == Decimal(n)
    ensures m == n
  {
    hide Decimal, Numeral;
    DecimalReads(m);
    DecimalReads(n);
  }

  /** A key is read back: before its last dash stands the run id, after it the seq. */
  lemma KeyReads(r: RunId, m: nat)
    ensures |r| < |MakeKey(r, m)| && MakeKey(r, m)[..|r|] == r && MakeKey(r, m)[|r|] == '-'
    ensures forall i :: |r| < i < |MakeKey(r, m)| ==> MakeKey(r, m)[i] != '-'
    ensures Numeral(MakeKey(r, m)[|r| + 1..]) == m
  {
    var k := MakeKey(r, m);
    DecimalReads(m);
    assert k[|r| + 1..] == Decimal(m);
    forall i | |r| < i < |k| ensures k[i] != '-' {
      assert k[i] == Decimal(m)[i - |r| - 1];
    }
  }

  /** Whatever characters the run ids contain, two effects never share a key. */
  lemma KeyInjective(r: RunId, m: nat, q: RunId, n: nat)
    requires MakeKey(r, m) == MakeKey(q, n)
    ensures r == q && m == n
  {
    KeyReads(r, m);
    KeyReads(q, n);
    assert |r| == |q|;
  }

  // ----- the completed_keys table as a function of the commits -----

  function KeysOf(cs: seq<Commit>): map<string, Value> {
    if cs == [] then map[]
    else
      var c := cs[|cs| - 1];
      KeysOf(cs[..|cs| - 1])[MakeKey(c.run, c.slot) := c.result]
  }

  lemma KeysOfAppend(cs: seq<Commit>, c: Commit)
    ensures KeysOf(cs + [c]) == KeysOf(cs)[MakeKey(c.run, c.slot) := c.result]
  {
    assert (cs + [c])[..|cs|] == cs;
  }

  lemma {:induction false} KeysOfDomain(cs: seq<Commit>, run: RunId, slot: nat)
    ensures MakeKey(run, slot) in KeysOf(cs) <==> exists i :: 0 <= i < |cs| && cs[i].run == run && cs[i].slot == slot
  {
    if cs != [] {
      var last := |cs| - 1;
      KeysOfDomain(cs[..last], run, slot);
      if MakeKey(run, slot) == MakeKey(cs[last].run, cs[last].slot) {
        KeyInjective(run, slot, cs[last].run, cs[last].slot);
      }
      if i :| 0 <= i < |cs| && cs[i].run == run && cs[i].slot == slot {
        if i < last {
          assert cs[..last][i] == cs[i];
        }
      }
    }
  }
}

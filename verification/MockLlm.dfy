/** The model that tests and harnesses use: scripted, seeded or random, and billed per call. */
module Models {
  import opened Diary

  function IntText(n: int): string {
    if n < 0 then "-" + Decimal(-n) else Decimal(n)
  }

  /** What seeds the generator of a seeded answer: the seed and the prompt. */
  function SeedText(seed: int, prompt: string): string {
    IntText(seed) + ":" + prompt
  }

  lemma NoColon(n: nat)
    ensures ':' !in Decimal(n) && '-' !in Decimal(n)
  {
    hide Decimal, Numeral;
    DecimalReads(n);
  }

  lemma IntTextInjective(m: int, n: int)
    requires IntText(m) == IntText(n)
    ensures m == n
  {
    hide Decimal;
    NoColon(if m < 0 then -m else m);
    NoColon(if n < 0 then -n else n);
    assert m < 0 <==> IntText(m)[0] == '-';
    assert n < 0 <==> IntText(n)[0] == '-';
    if m < 0 {
      assert Decimal(-m) == IntText(m)[1..] == Decimal(-n);
      DecimalInjective(-m, -n);
    } else {
      DecimalInjective(m, n);
    }
  }

  /** Two different seeds or prompts never seed the generator alike. */
  lemma SeedTextInjective(s: int, p: string, t: int, q: string)
    requires SeedText(s, p) == SeedText(t, q)
    ensures s == t && p == q
  {
    var x := SeedText(s, p);
    FirstColon(s, p);
    FirstColon(t, q);
    assert |IntText(s)| == |IntText(t)|;
    assert IntText(s) == x[..|IntText(s)|] == IntText(t);
    assert p == x[|IntText(s)| + 1..] == q;
    IntTextInjective(s, t);
  }

  lemma FirstColon(s: int, p: string)
    ensures var x, n := SeedText(s, p), |IntText(s)|;
      n < |x| && x[n] == ':' && forall i :: 0 <= i < n ==> x[i] != ':'
  {
    NoColon(if s < 0 then -s else s);
    assert forall i :: 0 <= i < |IntText(s)| ==> SeedText(s, p)[i] == IntText(s)[i];
  }

  datatype Completion = Completed(text: string) | ScriptExhausted | OtherError

  /** Anything with `complete`: MockLLM in its three modes, or another model, of which nothing
      is known but that it answers or raises. */
  class Llm {
    const script: Option<seq<string>>
    const seed: Option<int>
    /** Of what MockLLM's own generator draws at its n-th call, in random mode. */
    const stream: nat -> string
    /** MockLLM's reply to the prompt, from a generator in the given state. */
    const reply: (string, string) -> string
    /** What another model comes to when it is asked the prompt after n answers. */
    const other: Option<(nat, string) -> Completion>
    var calls: nat

    constructor Mock(
      script: Option<seq<string>>, seed: Option<int>, stream: nat -> string, reply: (string, string) -> string)
      ensures this.script == script && this.seed == seed && this.stream == stream && this.reply == reply
      ensures other == None && calls == 0
    {
      this.script, this.seed, this.stream, this.reply := script, seed, stream, reply;
      other, calls := None, 0;
    }

    constructor Other(behaviour: (nat, string) -> Completion)
      ensures other == Some(behaviour) && calls == 0
    {
      script, seed, stream, reply := None, None, (n: nat) => "", (generator, prompt) => "";
      other, calls := Some(behaviour), 0;
    }

    /** What the model comes to after `n` answers. */
    function AnswerAt(n: nat, prompt: string): Completion {
      if other.Some? then other.value(n, prompt)
      else if script.Some? then (if n < |script.value| then Completed(script.value[n]) else ScriptExhausted)
      else Completed(reply(if seed.Some? then SeedText(seed.value, prompt) else stream(n), prompt))
    }

    /** Each answer is counted; a script answers in order, a seed by the prompt alone. */
    method Complete(prompt: string) returns (c: Completion)
      modifies this
      ensures other == None && script.Some? ==>
        c == if old(calls) < |script.value| then Completed(script.value[old(calls)]) else ScriptExhausted
      ensures other == None && script == None && seed.Some? ==>
        c == Completed(reply(IntText(seed.value) + ":" + prompt, prompt))
      ensures other == None && script == None && seed == None ==> c == Completed(reply(stream(old(calls)), prompt))
      ensures other.Some? ==> c == other.value(old(calls), prompt)
      ensures c == AnswerAt(old(calls), prompt)
      ensures calls == old(calls) + if c.Completed? then 1 else 0
    {
      if other.Some? {
        c := other.value(calls, prompt);
        if c.Completed? {
          calls := calls + 1;
        }
        return;
      }
      if script.Some? && calls >= |script.value| {
        return ScriptExhausted;
      }
      calls := calls + 1;
      if script.Some? {
        return Completed(script.value[calls - 1]);
      }
      var generator := stream(calls - 1);
      if seed.Some? {
        generator := SeedText(seed.value, prompt);
      }
      c := Completed(reply(generator, prompt));
    }
  }

  /** What the model comes to when it is asked these prompts in turn, after `n` answers. */
  function Dialogue(l: Llm, n: nat, prompts: seq<string>): seq<Completion>
    decreases prompts
  {
    if prompts == [] then []
    else
      var c := l.AnswerAt(n, prompts[0]);
      [c] + Dialogue(l, if c.Completed? then n + 1 else n, prompts[1..])
  }

  /** However many calls are made, and whatever they ask: a scripted mock answers the script in
      order, and then it is exhausted for good. */
  lemma {:induction false} ScriptInOrder(l: Llm, n: nat, prompts: seq<string>, i: nat)
    requires l.other == None && l.script.Some? && n <= |l.script.value| && i < |prompts|
    ensures |Dialogue(l, n, prompts)| == |prompts|
    ensures Dialogue(l, n, prompts)[i] ==
      if n + i < |l.script.value| then Completed(l.script.value[n + i]) else ScriptExhausted
    decreases |prompts|
  {
    if |prompts| > 1 {
      ScriptInOrder(l, if n < |l.script.value| then n + 1 else n, prompts[1..], if i > 0 then i - 1 else 0);
    }
  }

  predicate Seeded(l: Llm) {
    l.other.None? && l.script.None? && l.seed.Some?
  }

  /** A seeded mock is a function of the prompt, whatever was asked before and by whichever
      of the processes that share the seed. */
  lemma SeededIsAFunction(l: Llm, k: Llm, m: nat, n: nat, prompt: string)
    requires Seeded(l) && Seeded(k) && l.seed == k.seed && l.reply == k.reply
    ensures l.AnswerAt(m, prompt) == k.AnswerAt(n, prompt) && l.AnswerAt(m, prompt).Completed?
  {
  }
}

/** The timeline diff: two runs lined up event by event. */
module Diff {
  import opened Diary

  /** One line of the diff; the source prints a short description of each event. */
  datatype DiffRow = DiffRow(slot: nat, a: Option<Event>, b: Option<Event>, same: bool)

  function At(h: seq<Event>, i: nat): Option<Event> {
    if i < |h| then Some(h[i]) else None
  }

  /** _same: two events that are both there, of one type and payload. */
  predicate Same(a: Option<Event>, b: Option<Event>) {
    a.Some? && b.Some? && a.value == b.value
  }

  /** The length of the longest common prefix. */
  function Common(a: seq<Event>, b: seq<Event>): (n: nat)
    ensures n <= |a| && n <= |b|
    decreases |a|
  {
    if a != [] && b != [] && a[0] == b[0] then 1 + Common(a[1..], b[1..]) else 0
  }

  predicate Share(a: seq<Event>, b: seq<Event>, n: nat) {
    n <= |a| && n <= |b| && a[..n] == b[..n]
  }

  /** Common is the longest prefix that both share: any shorter one is shared, none longer is. */
  lemma {:induction false} CommonIsLongest(a: seq<Event>, b: seq<Event>, n: nat)
    ensures Share(a, b, n) <==> n <= Common(a, b)
    decreases |a|
  {
    if n > 0 && a != [] && b != [] {
      if a[0] == b[0] {
        CommonIsLongest(a[1..], b[1..], n - 1);
        if Share(a, b, n) {
          assert a[1..][..n - 1] == a[..n][1..] && b[1..][..n - 1] == b[..n][1..];
        }
        if Share(a[1..], b[1..], n - 1) {
          assert a[..n] == [a[0]] + a[1..][..n - 1] && b[..n] == [b[0]] + b[1..][..n - 1];
        }
      } else if n <= |a| && n <= |b| {
        assert a[..n][0] != b[..n][0];
      }
    }
  }

  lemma CommonIsWhole(a: seq<Event>, b: seq<Event>)
    ensures Common(a, b) == |a| == |b| <==> a == b
  {
    assert a == a[..|a|] && b == b[..|b|];
    CommonIsLongest(a, b, |a|);
  }

  /** The prefix is decided as soon as one position differs. */
  lemma CommonStops(a: seq<Event>, b: seq<Event>, n: nat)
    requires Share(a, b, n) && !Same(At(a, n), At(b, n))
    ensures Common(a, b) == n
  {
    CommonIsLongest(a, b, n);
    CommonIsLongest(a, b, n + 1);
    assert n < |a| && n < |b| ==> a[..n + 1][n] == a[n] && b[..n + 1][n] == b[n];
  }

  lemma ShareMore(a: seq<Event>, b: seq<Event>, n: nat)
    requires Share(a, b, n) && n < |a| && n < |b|
    ensures Share(a, b, n + 1) <==> a[n] == b[n]
  {
    assert a[..n + 1] == a[..n] + [a[n]] && b[..n + 1] == b[..n] + [b[n]];
  }

  lemma CommonRows(a: seq<Event>, b: seq<Event>)
    ensures var n := Common(a, b);
      && (forall i :: 0 <= i < n ==> a[i] == b[i])
      && (n < |a| && n < |b| ==> a[n] != b[n])
  {
    var n := Common(a, b);
    CommonIsLongest(a, b, n);
    assert forall i :: 0 <= i < n ==> a[..n][i] == a[i] && b[..n][i] == b[i];
    CommonIsLongest(a, b, n + 1);
    if n < |a| && n < |b| {
      ShareMore(a, b, n);
    }
  }

  /** A diary and a proper prefix of it share all of the shorter, and still differ at the next seq. */
  lemma ProperPrefix(a: seq<Event>, b: seq<Event>)
    requires b <= a && b != a
    ensures Common(a, b) == |b|
  {
    assert a[..|b|] == b == b[..|b|];
    CommonStops(a, b, |b|);
  }

  /** diff_runs: the length of the shared prefix, the seq of the first divergence, and one
      row per seq. The divergence is None only if the two diaries are equal: when one is a
      proper prefix of the other it is one more than the length of the shorter. */
  method DiffRuns(a: seq<Event>, b: seq<Event>) returns (shared: nat, divergeAt: Option<nat>, rows: seq<DiffRow>)
    ensures shared == Common(a, b)
    ensures divergeAt == if a == b then None else Some(Common(a, b) + 1)
    ensures |rows| == if |a| >= |b| then |a| else |b|
    ensures forall i :: 0 <= i < |rows| ==>
      && rows[i].slot == i + 1
      && rows[i].a == (if i < |a| then Some(a[i]) else None)
      && rows[i].b == (if i < |b| then Some(b[i]) else None)
      && (rows[i].same <==> i < |a| && i < |b| && a[i] == b[i])
    ensures forall i :: 0 <= i < shared ==> rows[i].same
    ensures shared < |rows| ==> !rows[shared].same && divergeAt == Some(rows[shared].slot)
  {
    rows, shared, divergeAt := [], 0, None;
    var n := if |a| >= |b| then |a| else |b|;
    for i := 0 to n
      invariant |rows| == i
      invariant forall j :: 0 <= j < i ==> rows[j] == DiffRow(j + 1, At(a, j), At(b, j), Same(At(a, j), At(b, j)))
      invariant divergeAt.None? ==> shared == i && Share(a, b, i)
      invariant divergeAt.Some? ==> shared == Common(a, b) < n && divergeAt.value == shared + 1
      invariant divergeAt.Some? ==> a != b
    {
      var ea, eb := At(a, i), At(b, i);
      var same := Same(ea, eb);
      if divergeAt.None? {
        if same {
          assert a[..i + 1] == a[..i] + [a[i]] && b[..i + 1] == b[..i] + [b[i]];
          shared := shared + 1;
        } else {
          CommonStops(a, b, i);
          CommonIsWhole(a, b);
          divergeAt := Some(i + 1);
        }
      }
      rows := rows + [DiffRow(i + 1, ea, eb, same)];
    }
    if divergeAt.None? {
      assert a == a[..n] && b == b[..n];
      CommonIsWhole(a, b);
    }
    CommonRows(a, b);
  }
}

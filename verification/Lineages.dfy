/** The tree of forks, and what it says about the diaries: a run shares with each of its
    ancestors at least the shortest prefix copied on the way, for ever. */
module Lineages {
  import opened Diary
  import opened Engine
  import opened Tables
  import opened Protocol
  import opened Store
  import opened Fleet
  import opened FleetSafety
  import opened Guarantees
  import History
  import Safety
  import Diff

  ghost function DiaryIn(f: State, r: RunId): seq<Event>
    requires Known(f, r)
  {
    Events(View(f, r).diary)
  }

  /** `path` leads from a run to its parent, and so on. */
  ghost predicate Ascends(f: State, path: seq<RunId>) {
    && |path| > 0
    && (forall i :: 0 <= i < |path| ==> path[i] in f.db.runs)
    && (forall i :: 0 <= i < |path| - 1 ==>
          f.db.runs[path[i]].parent.Some? && f.db.runs[path[i]].parent.value.run == path[i + 1])
  }

  /** The least fork_seq on the way up; a bound of one's own for the empty way. */
  ghost function Kept(f: State, path: seq<RunId>, bound: nat): (k: nat)
    requires Ascends(f, path)
    ensures k <= bound
    decreases |path|
  {
    if |path| == 1 then bound
    else
      var at := f.db.runs[path[0]].parent.value.at;
      Up(f, path);
      Kept(f, path[1..], if at < bound then at else bound)
  }

  lemma Up(f: State, path: seq<RunId>)
    requires Ascends(f, path) && |path| > 1
    ensures Ascends(f, path[1..])
  {
    var rest := path[1..];
    forall i | 0 <= i < |rest| - 1
      ensures f.db.runs[rest[i]].parent.Some? && f.db.runs[rest[i]].parent.value.run == rest[i + 1]
    {
      assert rest[i] == path[i + 1];
    }
  }

  /** The parent relation is a forest: each step up leads to an older run, so no run is its
      own ancestor and every way up ends. */
  lemma {:induction false} Forest(code: Code, f: State, path: seq<RunId>, i: nat, j: nat)
    requires Reachable(code, f) && Ascends(f, path) && i <= j < |path|
    ensures f.db.runs[path[j]].created + (j - i) <= f.db.runs[path[i]].created
    decreases j - i
  {
    hide Inv;
    if i < j {
      Forest(code, f, path, i, j - 1);
      var a, c := CellOf(code, f, path[j]);
      assert Copies(f, path[j - 1]);
    }
  }

  lemma NoOwnAncestor(code: Code, f: State, path: seq<RunId>, i: nat, j: nat)
    requires Reachable(code, f) && Ascends(f, path) && i < j < |path|
    ensures path[i] != path[j] && |path| <= f.db.runs[path[0]].created + 1
  {
    Forest(code, f, path, i, j);
    Forest(code, f, path, 0, |path| - 1);
  }

  lemma SharesWithParent(code: Code, f: State, r: RunId)
    requires Reachable(code, f) && r in f.db.runs && f.db.runs[r].parent.Some?
    ensures var Origin(parent, at) := f.db.runs[r].parent.value;
      && parent in f.db.runs && Known(f, r) && Known(f, parent) && 1 <= at
      && Diff.Share(DiaryIn(f, r), DiaryIn(f, parent), at)
      && |DiaryIn(f, r)| > at && DiaryIn(f, r)[at].PatchApplied?
  {
    hide Inv;
    var a, c := CellOf(code, f, r);
    assert Copies(f, r);
  }

  lemma ShareLess(a: seq<Event>, b: seq<Event>, n: nat, m: nat)
    requires Diff.Share(a, b, n) && m <= n
    ensures Diff.Share(a, b, m)
  {
    assert a[..m] == a[..n][..m] && b[..m] == b[..n][..m];
  }

  /** A run shares with any ancestor at least the least fork_seq on the way to it. */
  lemma {:induction false} SharesWithAncestor(code: Code, f: State, path: seq<RunId>, bound: nat)
    requires Reachable(code, f) && Ascends(f, path) && Known(f, path[0]) && bound <= |DiaryIn(f, path[0])|
    ensures Known(f, path[|path| - 1])
    ensures Diff.Share(DiaryIn(f, path[0]), DiaryIn(f, path[|path| - 1]), Kept(f, path, bound))
    decreases |path|
  {
    hide Known, View, Reachable;
    if |path| > 1 {
      Up(f, path);
      SharesWithParent(code, f, path[0]);
      var at := f.db.runs[path[0]].parent.value.at;
      var less := if at < bound then at else bound;
      SharesWithAncestor(code, f, path[1..], less);
      var k := Kept(f, path[1..], less);
      ShareLess(DiaryIn(f, path[0]), DiaryIn(f, path[1]), at, k);
      assert path[1..][|path| - 2] == path[|path| - 1];
    }
  }

  /** ... and for ever after: the way up never changes, and neither does what is kept on it. */
  lemma SharesForEver(code: Code, fs: seq<State>, steps: seq<Step>, i: nat, j: nat, path: seq<RunId>, bound: nat)
    requires Execution(code, fs, steps) && i <= j < |fs| && Ascends(fs[i], path)
    requires Known(fs[i], path[0]) && bound <= |DiaryIn(fs[i], path[0])|
    ensures Ascends(fs[j], path) && Kept(fs[j], path, bound) == Kept(fs[i], path, bound)
    ensures Known(fs[j], path[0]) && Known(fs[j], path[|path| - 1])
    ensures Diff.Share(DiaryIn(fs[j], path[0]), DiaryIn(fs[j], path[|path| - 1]), Kept(fs[i], path, bound))
  {
    hide View, Safety.GrewUnder, Next, Enables;
    History.NoLateEvent(code, fs, steps, i, j);
    WayStays(fs[i], fs[j], path, bound);
    Prefix(code, fs, steps, j);
    assert bound <= |DiaryIn(fs[j], path[0])| by { DiaryGrew(fs[i], fs[j], path[0]); }
    SharesWithAncestor(code, fs[j], path, bound);
  }

  lemma DiaryGrew(f: State, g: State, r: RunId)
    requires Extends(f, g) && r in f.db.runs
    ensures Known(f, r) && Known(g, r) && DiaryIn(f, r) <= DiaryIn(g, r)
  {
    hide View;
  }

  lemma {:induction false} WayStays(f: State, g: State, path: seq<RunId>, bound: nat)
    requires Extends(f, g) && Ascends(f, path)
    ensures Ascends(g, path) && Kept(g, path, bound) == Kept(f, path, bound)
    decreases |path|
  {
    hide View;
    assert forall i :: 0 <= i < |path| ==> RunExtends(f, g, path[i]);
    if |path| > 1 {
      Up(f, path);
      Up(g, path);
      var at := f.db.runs[path[0]].parent.value.at;
      WayStays(f, g, path[1..], if at < bound then at else bound);
    }
  }

  /** Every state of an execution is reachable. */
  lemma Prefix(code: Code, fs: seq<State>, steps: seq<Step>, i: nat)
    requires Execution(code, fs, steps) && i < |fs|
    ensures Reachable(code, fs[i])
  {
    hide Enables, Next;
    var gs, ts := fs[..i + 1], steps[..i];
    assert Execution(code, gs, ts) && gs[|ts|] == fs[i];
  }

  /** The diff of a fork and its parent reports the fork point exactly, unless the event
      that follows it in the parent is an identical patch; which cannot be when the fork was
      taken at the parent's own part of its diary. */
  lemma DiffOfFork(code: Code, f: State, child: RunId)
    requires Reachable(code, f) && child in f.db.runs && f.db.runs[child].parent.Some?
    ensures var Origin(parent, at) := f.db.runs[child].parent.value;
      && parent in f.db.runs && Known(f, child) && Known(f, parent)
      && var p, c := DiaryIn(f, parent), DiaryIn(f, child);
         && at < |c| && at <= |p|
         && Diff.Common(p, c) >= at
         && (Diff.Common(p, c) == at <==> |p| == at || p[at] != c[at])
         && (at >= Floor(f.db.runs[parent]) ==> Diff.Common(p, c) == at)
  {
    hide View, Reachable;
    SharesWithParent(code, f, child);
    var Origin(parent, at) := f.db.runs[child].parent.value;
    var p, c := DiaryIn(f, parent), DiaryIn(f, child);
    assert Diff.Share(p, c, at);
    Diff.CommonIsLongest(p, c, at);
    Diff.CommonIsLongest(p, c, at + 1);
    if |p| == at || p[at] != c[at] {
      Diff.CommonStops(p, c, at);
    } else {
      assert p[..at + 1] == p[..at] + [p[at]] && c[..at + 1] == c[..at] + [c[at]];
    }
    NoPatchBeyond(code, f, parent);
  }

  lemma NoPatchBeyond(code: Code, f: State, r: RunId)
    requires Reachable(code, f) && r in f.db.runs
    ensures Known(f, r)
    ensures forall i :: Floor(f.db.runs[r]) <= i < |DiaryIn(f, r)| ==> !DiaryIn(f, r)[i].PatchApplied?
  {
    hide Replay, Performed, Exact, Stamped, Leased, Gated, Billed, Trace;
    var a, c := CellOf(code, f, r);
  }

  // ----- parent_of and children_of -----

  /** The order of children_of: by fork_seq, then by age. */
  ghost predicate Before(db: Db, p: RunId, q: RunId) {
    p in db.runs && q in db.runs && db.runs[p].parent.Some? && db.runs[q].parent.Some? &&
    var i, j := db.runs[p].parent.value.at, db.runs[q].parent.value.at;
    i < j || (i == j && db.runs[p].created <= db.runs[q].created)
  }

  ghost function ForksOf(db: Db, r: RunId): set<RunId> {
    set q | q in db.runs && db.runs[q].parent.Some? && db.runs[q].parent.value.run == r
  }

  lemma {:induction false} HasFirst(db: Db, s: set<RunId>)
    requires s != {} && forall q :: q in s ==> q in db.runs && db.runs[q].parent.Some?
    ensures exists q :: q in s && forall p :: p in s ==> Before(db, q, p)
  {
    var x :| x in s;
    var rest := s - {x};
    assert forall q :: q in s ==> q == x || q in rest;
    if rest == {} {
      assert forall p :: p in s ==> Before(db, x, p);
    } else {
      HasFirst(db, rest);
      var y :| y in rest && forall p :: p in rest ==> Before(db, y, p);
      var q := if Before(db, x, y) then x else y;
      assert q in s && forall p :: p in s ==> Before(db, q, p);
    }
  }

  ghost function InOrder(db: Db, s: set<RunId>): (rows: seq<(RunId, nat)>)
    requires forall q :: q in s ==> q in db.runs && db.runs[q].parent.Some?
    decreases |s|
  {
    if s == {} then []
    else
      HasFirst(db, s);
      var q :| q in s && forall p :: p in s ==> Before(db, q, p);
      [(q, db.runs[q].parent.value.at)] + InOrder(db, s - {q})
  }

  ghost function ChildrenOf(db: Db, r: RunId): seq<(RunId, nat)> {
    InOrder(db, ForksOf(db, r))
  }

  lemma {:induction false} InOrderLists(db: Db, s: set<RunId>)
    requires forall q :: q in s ==> q in db.runs && db.runs[q].parent.Some?
    ensures |InOrder(db, s)| == |s|
    ensures forall row :: row in InOrder(db, s) <==> row.0 in s && row.1 == db.runs[row.0].parent.value.at
    ensures forall i, j :: 0 <= i < j < |s| ==> Before(db, InOrder(db, s)[i].0, InOrder(db, s)[j].0)
    decreases |s|
  {
    if s != {} {
      var first := InOrder(db, s)[0];
      InOrderLists(db, s - {first.0});
      assert InOrder(db, s) == [first] + InOrder(db, s - {first.0});
      forall j | 0 < j < |s| ensures Before(db, first.0, InOrder(db, s)[j].0) {
        assert InOrder(db, s)[j] in InOrder(db, s - {first.0});
      }
    }
  }

  /** children_of lists each fork of a run once, in order; it agrees with parent_of. */
  lemma ChildrenAgree(db: Db, r: RunId, child: RunId, at: nat)
    requires child in db.runs
    ensures (child, at) in ChildrenOf(db, r) <==> db.runs[child].parent == Some(Origin(r, at))
    ensures |ChildrenOf(db, r)| == |ForksOf(db, r)|
    ensures forall i, j :: 0 <= i < j < |ForksOf(db, r)| ==>
      var (p, k), (q, m) := ChildrenOf(db, r)[i], ChildrenOf(db, r)[j];
      && p in db.runs && q in db.runs
      && (k < m || (k == m && db.runs[p].created <= db.runs[q].created))
  {
    InOrderLists(db, ForksOf(db, r));
    var rows := ChildrenOf(db, r);
    forall i, j | 0 <= i < j < |ForksOf(db, r)| ensures
      && rows[i].0 in db.runs && rows[j].0 in db.runs
      && (rows[i].1 < rows[j].1
          || (rows[i].1 == rows[j].1 && db.runs[rows[i].0].created <= db.runs[rows[j].0].created))
    {
      assert rows[i] in rows && rows[j] in rows;
      assert Before(db, rows[i].0, rows[j].0);
    }
  }
}

/**
 * VLAN sets kept as ascending lists, and their collapse into maximal runs of
 * consecutive values printed as `"a-b, c"` (the loop of `_get_vlan_range` in
 * `sdxlib/topology_utils.py`).
 */
module VlanRuns {
  import opened Text

  /** Strictly ascending: a sorted list without duplicates, as `sorted(set(...))` yields. */
  predicate Increasing(xs: seq<int>) {
    forall i, j | 0 <= i < j < |xs| :: xs[i] < xs[j]
  }

  /** `list(range(a, b + 1))`. */
  function Interval(a: int, b: int): (r: seq<int>)
    ensures |r| == if a <= b then b - a + 1 else 0
    ensures forall k | 0 <= k < |r| :: r[k] == a + k
    ensures forall v :: v in r <==> a <= v <= b
    decreases b - a
  {
    if a > b then [] else [a] + Interval(a + 1, b)
  }

  /** `s.add(n)` on a set held as an ascending list. */
  function Insert(xs: seq<int>, n: int): (r: seq<int>)
    ensures Increasing(xs) ==> Increasing(r)
    ensures forall v :: v in r <==> v in xs || v == n
  {
    if |xs| == 0 then [n]
    else if n < xs[0] then [n] + xs
    else if n == xs[0] then xs
    else
      var rest := Insert(xs[1..], n);
      assert Increasing(xs) ==> forall j | 0 <= j < |rest| :: xs[0] < rest[j] by {
        if Increasing(xs) {
          forall j | 0 <= j < |rest| ensures xs[0] < rest[j] {
            assert rest[j] in rest;
          }
        }
      }
      [xs[0]] + rest
  }

  /** Inserting every value of `ns`, in order. */
  function InsertAll(xs: seq<int>, ns: seq<int>): (r: seq<int>)
    ensures Increasing(xs) ==> Increasing(r)
    ensures forall v :: v in r <==> v in xs || v in ns
    decreases |ns|
  {
    if |ns| == 0 then xs else InsertAll(Insert(xs, ns[0]), ns[1..])
  }

  // ---------------------------------------------------------------- runs

  /** The run `lo..hi` of consecutive VLANs. */
  datatype Run = Run(lo: int, hi: int)

  /** Puts `r` in front of `rest`, joining it to the first run when the two touch. */
  function Merge(r: Run, rest: seq<Run>): seq<Run> {
    if |rest| > 0 && rest[0].lo == r.hi + 1 then [Run(r.lo, rest[0].hi)] + rest[1..] else [r] + rest
  }

  /** The runs of consecutive values in `xs`, front to back. */
  function Runs(xs: seq<int>): (runs: seq<Run>)
    ensures |xs| > 0 <==> |runs| > 0
    ensures |xs| > 0 ==> runs[0].lo == xs[0]
  {
    if |xs| == 0 then [] else Merge(Run(xs[0], xs[0]), Runs(xs[1..]))
  }

  /** The values the runs cover, in order. */
  function Expand(runs: seq<Run>): seq<int> {
    if |runs| == 0 then [] else Interval(runs[0].lo, runs[0].hi) + Expand(runs[1..])
  }

  predicate Proper(runs: seq<Run>) {
    forall k | 0 <= k < |runs| :: runs[k].lo <= runs[k].hi
  }

  /** Ascending, and no two runs touch: every run is maximal. */
  predicate Separated(runs: seq<Run>) {
    forall k | 0 <= k < |runs| - 1 :: runs[k].hi + 1 < runs[k + 1].lo
  }

  /** Expanding the runs of `xs` gives back `xs`. */
  lemma {:induction false} RunsExpand(xs: seq<int>)
    ensures Proper(Runs(xs))
    ensures Expand(Runs(xs)) == xs
  {
    if |xs| > 0 {
      var rest := Runs(xs[1..]);
      RunsExpand(xs[1..]);
      if |rest| > 0 && rest[0].lo == xs[0] + 1 {
        var r := [Run(xs[0], rest[0].hi)] + rest[1..];
        assert r[1..] == rest[1..];
        assert Interval(xs[0], rest[0].hi) == [xs[0]] + Interval(rest[0].lo, rest[0].hi);
        assert Expand(rest) == Interval(rest[0].lo, rest[0].hi) + Expand(rest[1..]);
        assert Expand(r) == Interval(xs[0], rest[0].hi) + Expand(rest[1..]);
      } else {
        var r := [Run(xs[0], xs[0])] + rest;
        assert r[1..] == rest;
        assert Interval(xs[0], xs[0]) == [xs[0]];
      }
      assert [xs[0]] + xs[1..] == xs;
    }
  }

  /** The runs of an ascending list are ascending and maximal. */
  lemma {:induction false} RunsSeparated(xs: seq<int>)
    requires Increasing(xs)
    ensures Separated(Runs(xs))
  {
    if |xs| > 0 {
      var rest := Runs(xs[1..]);
      RunsSeparated(xs[1..]);
      if |rest| > 0 {
        assert rest[0].lo == xs[1];
      }
      if |rest| > 0 && rest[0].lo == xs[0] + 1 {
        var r := [Run(xs[0], rest[0].hi)] + rest[1..];
        assert forall k | 0 < k < |r| :: r[k] == rest[k];
      } else {
        var r := [Run(xs[0], xs[0])] + rest;
        assert forall k | 0 < k < |r| :: r[k] == rest[k - 1];
      }
    }
  }

  lemma MergeGrow(s: int, e: int, rest: seq<Run>)
    ensures Merge(Run(s, e), Merge(Run(e + 1, e + 1), rest)) == Merge(Run(s, e + 1), rest)
  {
    if |rest| > 0 && rest[0].lo == e + 2 {
      assert ([Run(e + 1, rest[0].hi)] + rest[1..])[1..] == rest[1..];
    } else {
      assert ([Run(e + 1, e + 1)] + rest)[1..] == rest;
    }
  }

  lemma MergeSplit(s: int, e: int, v: int, rest: seq<Run>)
    requires v != e + 1
    ensures Merge(Run(s, e), Merge(Run(v, v), rest)) == [Run(s, e)] + Merge(Run(v, v), rest)
  {
  }

  // ---------------------------------------------------------------- printing

  /** `f"{start}-{end}" if start != end else str(start)`. */
  function RunText(r: Run): string {
    if r.lo != r.hi then IntToString(r.lo) + "-" + IntToString(r.hi) else IntToString(r.lo)
  }

  function RunTexts(runs: seq<Run>): (ts: seq<string>)
    ensures |ts| == |runs|
    ensures forall k | 0 <= k < |runs| :: ts[k] == RunText(runs[k])
  {
    seq(|runs|, k requires 0 <= k < |runs| => RunText(runs[k]))
  }

  /** `", ".join(ranges)`. */
  function RenderRuns(runs: seq<Run>): string {
    Join(RunTexts(runs), ", ")
  }

  /**
   * The collapse loop: walks the ascending VLANs keeping the current run `first..last`,
   * closing it whenever the next value does not extend it.
   */
  method CollapseRuns(xs: seq<int>) returns (text: string)
    requires |xs| > 0
    ensures text == RenderRuns(Runs(xs))
  {
    var ranges: seq<string> := [];
    ghost var done: seq<Run> := [];
    var first, last := xs[0], xs[0];
    RunsStep(xs, 0);
    for i := 1 to |xs|
      invariant ranges == RunTexts(done)
      invariant Runs(xs) == done + Merge(Run(first, last), Runs(xs[i..]))
    {
      var vlan := xs[i];
      if vlan == last + 1 {
        CollapseGrow(xs, i, done, first, last);
        last := vlan;
      } else {
        CollapseSplit(xs, i, done, first, last);
        RunTextsSnoc(done, Run(first, last));
        ranges := ranges + [RunText(Run(first, last))];
        done := done + [Run(first, last)];
        first, last := vlan, vlan;
      }
    }
    CollapseEnd(xs, done, Run(first, last));
    ranges := ranges + [RunText(Run(first, last))];
    text := Join(ranges, ", ");
  }

  /** A value that extends the open run keeps the loop invariant with the run grown. */
  lemma CollapseGrow(xs: seq<int>, i: int, done: seq<Run>, first: int, last: int)
    requires 0 < i < |xs| && xs[i] == last + 1
    requires Runs(xs) == done + Merge(Run(first, last), Runs(xs[i..]))
    ensures Runs(xs) == done + Merge(Run(first, xs[i]), Runs(xs[i + 1..]))
  {
    RunsStep(xs, i);
    MergeGrow(first, last, Runs(xs[i + 1..]));
  }

  /** Any other value closes the open run and starts a new one. */
  lemma CollapseSplit(xs: seq<int>, i: int, done: seq<Run>, first: int, last: int)
    requires 0 < i < |xs| && xs[i] != last + 1
    requires Runs(xs) == done + Merge(Run(first, last), Runs(xs[i..]))
    ensures Runs(xs) == (done + [Run(first, last)]) + Merge(Run(xs[i], xs[i]), Runs(xs[i + 1..]))
  {
    RunsStep(xs, i);
    MergeSplit(first, last, xs[i], Runs(xs[i + 1..]));
    AppendAssoc(done, Run(first, last), Merge(Run(xs[i], xs[i]), Runs(xs[i + 1..])));
  }

  lemma AppendAssoc(done: seq<Run>, r: Run, rest: seq<Run>)
    ensures done + ([r] + rest) == (done + [r]) + rest
  {
  }

  /** After the last value, closing the open run gives all the runs. */
  lemma CollapseEnd(xs: seq<int>, done: seq<Run>, r: Run)
    requires Runs(xs) == done + Merge(r, Runs(xs[|xs|..]))
    ensures RunTexts(done) + [RunText(r)] == RunTexts(Runs(xs))
  {
    assert Runs(xs[|xs|..]) == [] by {
      assert xs[|xs|..] == [];
    }
    assert Merge(r, []) == [r];
    assert Runs(xs) == done + [r];
    RunTextsSnoc(done, r);
  }

  lemma RunsStep(xs: seq<int>, i: int)
    requires 0 <= i < |xs|
    ensures Runs(xs[i..]) == Merge(Run(xs[i], xs[i]), Runs(xs[i + 1..]))
  {
    assert xs[i..][1..] == xs[i + 1..];
  }

  lemma RunTextsSnoc(runs: seq<Run>, r: Run)
    ensures RunTexts(runs + [r]) == RunTexts(runs) + [RunText(r)]
  {
  }
}

/**
 * The VLAN availability helpers of `sdxlib/topology_utils.py`: reading VLAN strings,
 * the free VLANs of a port printed as runs, the VLANs in use per port, the port rows
 * and the search filters of `get_available_ports` and `get_all_l2vpns`.
 */
module TopologyUtils {
  import opened Outcomes
  import opened Text
  import opened Py
  import opened VlanRuns

  // Messages of the exceptions raised here.
  const ExpectedStringMsg := "expected string or bytes-like object, got '"
  const NoLowerAttributeMsg := "' object has no attribute 'lower'"

  // ---------------------------------------------------------------- _parse_vlan_value

  /** `start, end = map(int, pieces)`, then `range(start, end + 1)`; nothing if that raises. */
  function RangeOf(pieces: seq<string>): seq<int> {
    if |pieces| != 2 then []
    else
      match (ParseInt(pieces[0]), ParseInt(pieces[1]))
      case (Some(a), Some(b)) => Interval(a, b)
      case _ => []
  }

  /**
   * The VLANs one stripped comma part adds: `A-B` or `A:B` (a `-` wins over a `:`)
   * expands to `A..B`, a digit string gives itself, and anything `int()` cannot read
   * adds nothing.
   */
  function PartVlans(part: string): seq<int> {
    if '-' in part then RangeOf(Split(part, '-'))
    else if ':' in part then RangeOf(Split(part, ':'))
    else if IsDigits(part) then [DigitsValue(part)]
    else []
  }

  /** The VLANs of `part.strip()`. */
  function StrippedPartVlans(part: string): seq<int> {
    PartVlans(Strip(part))
  }

  /** The VLANs of the comma parts, in order and with their duplicates. */
  function PartsVlans(parts: seq<string>): seq<int> {
    FlatMap(StrippedPartVlans, parts)
  }

  /** The list `_parse_vlan_value(v)` returns. */
  function ParsedVlans(v: Json): seq<int> {
    if IsPyInt(v) then [PyIntValue(v)]
    else if v.JStr? then PartsVlans(Split(v.s, ','))
    else []
  }

  /** `_parse_vlan_value`: the loop over the comma parts, extending `out`. */
  method ParseVlanValue(v: Json) returns (out: seq<int>)
    ensures out == ParsedVlans(v)
  {
    if IsPyInt(v) {
      return [PyIntValue(v)];
    }
    if !v.JStr? {
      return [];
    }
    out := ReadParts(Split(v.s, ','));
  }

  /** The loop over the comma parts, extending `out`. */
  method ReadParts(parts: seq<string>) returns (out: seq<int>)
    ensures out == PartsVlans(parts)
  {
    out := [];
    for i := 0 to |parts|
      invariant out == PartsVlans(parts[..i])
    {
      var added := ReadPart(Strip(parts[i]));
      FlatMapSnoc(StrippedPartVlans, parts, i);
      out := out + added;
    }
    assert parts[..|parts|] == parts;
  }

  /** The body of the loop: what one stripped part adds to `out`. */
  method ReadPart(part: string) returns (added: seq<int>)
    ensures added == PartVlans(part)
  {
    if '-' in part || ':' in part {
      var sep := if '-' in part then '-' else ':';
      added := ReadRange(Split(part, sep));
    } else if IsDigits(part) {
      added := [DigitsValue(part)];
    } else {
      added := [];
    }
  }

  /** The `try` block of a range part. */
  method ReadRange(pieces: seq<string>) returns (added: seq<int>)
    ensures added == RangeOf(pieces)
  {
    added := [];
    if |pieces| == 2 {
      var start, end := ParseInt(pieces[0]), ParseInt(pieces[1]);
      if start.Some? && end.Some? && start.value <= end.value {
        added := Interval(start.value, end.value);
      }
    }
  }

  /** A VLAN is in the list exactly when one of the comma parts contributes it. */
  lemma PartsVlansMembers(parts: seq<string>, x: int)
    ensures x in PartsVlans(parts) <==> exists k | 0 <= k < |parts| :: x in PartVlans(Strip(parts[k]))
  {
    FlatMapMembers(StrippedPartVlans, parts, x);
  }

  /** `int()` reads a digit string as its value. */
  lemma DigitsParse(t: string)
    requires IsDigits(t)
    ensures ParseInt(t) == Some(DigitsValue(t))
  {
  }

  /** A digit string holds no separator. */
  lemma DigitsNoSeparator(t: string)
    requires IsDigits(t)
    ensures '-' !in t && ':' !in t && ',' !in t
  {
  }

  lemma DigitsUnspaced(t: string)
    requires IsDigits(t)
    ensures !IsSpace(t[0]) && !IsSpace(t[|t| - 1])
  {
    assert IsDigit(t[0]) && IsDigit(t[|t| - 1]);
  }

  /** The text of a non-negative number is digits only. */
  lemma NumberText(n: int)
    requires n >= 0
    ensures IsDigits(IntToString(n)) && ParseInt(IntToString(n)) == Some(n)
    ensures '-' !in IntToString(n) && ':' !in IntToString(n) && ',' !in IntToString(n)
    ensures !IsSpace(IntToString(n)[0]) && !IsSpace(IntToString(n)[|IntToString(n)| - 1])
  {
    DigitsParse(IntToString(n));
    DigitsNoSeparator(IntToString(n));
    DigitsUnspaced(IntToString(n));
  }

  lemma SplitAround(x: string, sep: char, y: string)
    requires sep !in x && sep !in y
    ensures Split(x + [sep] + y, sep) == [x, y]
  {
    SplitAfterFirst(x, sep, y);
    SplitNoSep(y, sep);
  }

  lemma RangeOfNumbers(a: int, b: int)
    requires a >= 0 && b >= 0
    ensures RangeOf([IntToString(a), IntToString(b)]) == Interval(a, b)
  {
    NumberText(a);
    NumberText(b);
  }

  lemma PartAround(x: string, sep: char, y: string)
    requires sep == '-' || sep == ':'
    requires '-' !in x && '-' !in y && sep !in x && sep !in y
    ensures PartVlans(x + [sep] + y) == RangeOf([x, y])
  {
    var t := x + [sep] + y;
    assert t[|x|] == sep;
    SplitAround(x, sep, y);
    if sep == ':' {
      assert forall k | 0 <= k < |t| :: t[k] != '-';
    }
  }

  /** `"A-B"` and `"A:B"` expand to `A..B`, which is empty when `A > B`. */
  lemma PartRange(a: int, b: int, sep: char)
    requires a >= 0 && b >= 0 && (sep == '-' || sep == ':')
    ensures PartVlans(IntToString(a) + [sep] + IntToString(b)) == Interval(a, b)
  {
    NumberText(a);
    NumberText(b);
    PartAround(IntToString(a), sep, IntToString(b));
    RangeOfNumbers(a, b);
  }

  /** A number on its own gives a one-element list. */
  lemma PartNumber(n: int)
    requires n >= 0
    ensures PartVlans(IntToString(n)) == [n]
  {
    NumberText(n);
  }

  /** A `-` is the separator even when the part also holds a `:`. */
  lemma DashBeforeColon()
    ensures PartVlans("1:2") == [1, 2]
    ensures PartVlans("1:2-3") == []
  {
    PartRange(1, 2, ':');
    assert IntToString(1) == "1" && IntToString(2) == "2";
    assert "1" + [':'] + "2" == "1:2";
    assert Interval(1, 2) == [1, 2];
    DashPartUnreadable();
  }

  lemma DashPartUnreadable()
    ensures PartVlans("1:2-3") == []
  {
    assert "1:2-3" == "1:2" + ['-'] + "3";
    assert "1:2-3"[3] == '-';
    SplitAround("1:2", '-', "3");
    assert ParseInt("1:2") == None by {
      StripUnchanged("1:2");
      assert !IsUnderscoredDigits("1:2") by {
        assert !DigitOrJoiner("1:2", 1);
      }
    }
  }

  // ---------------------------------------------------------------- reading printed runs back

  /** The pieces after the first of a `", "`-joined list, each with its leading space. */
  function Spaced(ts: seq<string>): (r: seq<string>)
    ensures |r| == |ts|
    ensures forall k | 0 <= k < |ts| :: r[k] == " " + ts[k]
  {
    seq(|ts|, k requires 0 <= k < |ts| => " " + ts[k])
  }

  lemma {:induction false} SplitCommaJoin(p: string, ts: seq<string>)
    requires |ts| > 0 && ',' !in p
    requires forall k | 0 <= k < |ts| :: ',' !in ts[k]
    ensures Split(p + Join(ts, ", "), ',') == [p + ts[0]] + Spaced(ts[1..])
    decreases |ts|
  {
    if |ts| == 1 {
      SplitNoSep(p + ts[0], ',');
    } else {
      var rest := Join(ts[1..], ", ");
      assert p + Join(ts, ", ") == (p + ts[0]) + [','] + (" " + rest);
      SplitAfterFirst(p + ts[0], ',', " " + rest);
      SplitCommaJoin(" ", ts[1..]);
      assert ts[1..][1..] == ts[2..];
      assert Spaced(ts[1..]) == [" " + ts[1]] + Spaced(ts[2..]);
    }
  }

  /** One leading space is all `strip()` removes from a part of the printed list. */
  lemma StripSpaced(t: string)
    requires |t| > 0 && !IsSpace(t[0]) && !IsSpace(t[|t| - 1])
    ensures Strip(" " + t) == t && Strip(t) == t
  {
    LeadingSpaceTrimmed(t);
    StripUnspaced(t);
  }

  lemma LeadingSpaceTrimmed(t: string)
    requires |t| > 0 && !IsSpace(t[0])
    ensures TrimStart(" " + t) == t
  {
  }

  lemma StripUnspaced(t: string)
    requires |t| > 0 && !IsSpace(t[0]) && !IsSpace(t[|t| - 1])
    ensures Strip(t) == t
  {
    assert TrimStart(t) == t;
  }

  /** Each printed run reads back as the run's values. */
  lemma RunTextParses(r: Run)
    requires 0 <= r.lo <= r.hi
    ensures PartVlans(RunText(r)) == Interval(r.lo, r.hi)
    ensures |RunText(r)| > 0 && ',' !in RunText(r)
    ensures !IsSpace(RunText(r)[0]) && !IsSpace(RunText(r)[|RunText(r)| - 1])
  {
    NumberText(r.lo);
    NumberText(r.hi);
    if r.lo != r.hi {
      PartRange(r.lo, r.hi, '-');
      assert RunText(r) == IntToString(r.lo) + ['-'] + IntToString(r.hi);
    } else {
      PartNumber(r.lo);
    }
  }

  lemma {:induction false} SpacedRunsParse(runs: seq<Run>)
    requires Proper(runs) && forall k | 0 <= k < |runs| :: runs[k].lo >= 0
    ensures PartsVlans(Spaced(RunTexts(runs))) == Expand(runs)
    decreases |runs|
  {
    if |runs| > 0 {
      RunTextParses(runs[0]);
      StripSpaced(RunText(runs[0]));
      assert Spaced(RunTexts(runs))[1..] == Spaced(RunTexts(runs[1..]));
      SpacedRunsParse(runs[1..]);
    }
  }

  lemma {:induction false} RunLoInExpand(runs: seq<Run>, k: int)
    requires Proper(runs) && 0 <= k < |runs|
    ensures runs[k].lo in Expand(runs)
    decreases k
  {
    if k > 0 {
      RunLoInExpand(runs[1..], k - 1);
    }
  }

  /** The runs of non-negative VLANs start at non-negative values. */
  lemma RunsNonNegative(xs: seq<int>)
    requires forall k | 0 <= k < |xs| :: xs[k] >= 0
    ensures Proper(Runs(xs)) && forall k | 0 <= k < |Runs(xs)| :: Runs(xs)[k].lo >= 0
  {
    var runs := Runs(xs);
    RunsExpand(xs);
    forall k | 0 <= k < |runs| ensures runs[k].lo >= 0 {
      RunLoInExpand(runs, k);
    }
  }

  /** Splitting the printed list at the commas gives the run texts, all but the first spaced. */
  lemma RenderedParts(runs: seq<Run>)
    requires |runs| > 0 && Proper(runs) && forall k | 0 <= k < |runs| :: runs[k].lo >= 0
    ensures Split(RenderRuns(runs), ',') == [RunText(runs[0])] + Spaced(RunTexts(runs[1..]))
  {
    var ts := RunTexts(runs);
    forall k | 0 <= k < |ts| ensures ',' !in ts[k] {
      RunTextParses(runs[k]);
    }
    SplitCommaJoin("", ts);
    assert "" + Join(ts, ", ") == RenderRuns(runs);
    assert "" + ts[0] == ts[0];
    assert ts[1..] == RunTexts(runs[1..]);
  }

  /**
   * Printing the runs of a list of VLANs and reading the text back with
   * `_parse_vlan_value` gives the list again.
   */
  lemma RenderedRunsParseBack(xs: seq<int>)
    requires |xs| > 0 && forall k | 0 <= k < |xs| :: xs[k] >= 0
    ensures ParsedVlans(JStr(RenderRuns(Runs(xs)))) == xs
  {
    var runs := Runs(xs);
    RunsNonNegative(xs);
    RenderedParts(runs);
    var rest := Spaced(RunTexts(runs[1..]));
    PartsCons(RunText(runs[0]), rest);
    FirstRunParses(runs[0]);
    SpacedRunsParse(runs[1..]);
    assert Expand(runs) == Interval(runs[0].lo, runs[0].hi) + Expand(runs[1..]);
    RunsExpand(xs);
  }

  lemma PartsCons(p: string, rest: seq<string>)
    ensures PartsVlans([p] + rest) == StrippedPartVlans(p) + PartsVlans(rest)
  {
    assert ([p] + rest)[1..] == rest;
  }

  lemma FirstRunParses(r: Run)
    requires 0 <= r.lo <= r.hi
    ensures StrippedPartVlans(RunText(r)) == Interval(r.lo, r.hi)
  {
    RunTextParses(r);
    StripSpaced(RunText(r));
  }

  // ---------------------------------------------------------------- _get_vlan_range

  /** A port's VLANs in use: the dict from port id to an ascending list of VLANs. */
  type Usage = seq<(Json, seq<int>)>

  /** `usage.get(k, [])`. */
  function UsageGet(u: Usage, k: Json): (r: seq<int>)
    ensures SortedUsage(u) ==> Increasing(r)
  {
    if |u| == 0 then [] else if u[0].0 == k then u[0].1 else UsageGet(u[1..], k)
  }

  /** `port.get("id", "Unknown")`. */
  function PortIdField(port: seq<(string, Json)>): Json {
    GetOr(port, "id", JStr("Unknown"))
  }

  /**
   * `(port.get("services", {}) or {}).get("l2vpn-ptp", {}).get("vlan_range", [])`,
   * or `None` where a `.get` lands on a value that is not a dict.
   */
  function VlanRangeData(port: seq<(string, Json)>): Option<Json> {
    var services := GetOr(port, "services", JObj([]));
    var svc := if Truthy(services) then services else JObj([]);
    if !svc.JObj? then None
    else
      var l2 := GetOr(svc.fields, "l2vpn-ptp", JObj([]));
      if !l2.JObj? then None else Some(GetOr(l2.fields, "vlan_range", JList([])))
  }

  /** `(int(start), int(end))` of a two-element list. */
  function PairOf(item: Json): Option<(int, int)> {
    if item.JList? && |item.items| == 2 then
      match (IntOf(item.items[0]), IntOf(item.items[1]))
      case (Some(a), Some(b)) => Some((a, b))
      case _ => None
    else None
  }

  function PairsOf(items: seq<Json>): (r: Option<seq<(int, int)>>)
    ensures r.Some? <==> forall k | 0 <= k < |items| :: PairOf(items[k]).Some?
    ensures r.Some? ==> |r.value| == |items| && forall k | 0 <= k < |items| :: r.value[k] == PairOf(items[k]).value
  {
    if |items| == 0 then Some([])
    else
      match (PairOf(items[0]), PairsOf(items[1..]))
      case (Some(p), Some(ps)) =>
        assert forall k | 1 <= k < |items| :: items[k] == items[1..][k - 1];
        Some([p] + ps)
      case (None, _) => None
      case (_, None) =>
        assert forall k | 0 <= k < |items| - 1 :: items[1..][k] == items[k + 1];
        None
  }

  /**
   * The `[start, end]` pairs of the port's `vlan_range`; `None` where `_get_vlan_range`
   * returns `"None"` before the set is built: a lookup fails, the data is empty or not
   * a list of two-element lists, or `int()` rejects a bound.
   */
  function RangePairs(port: seq<(string, Json)>): (r: Option<seq<(int, int)>>)
    ensures r.Some? <==>
              && VlanRangeData(port).Some?
              && VlanRangeData(port).value.JList? && |VlanRangeData(port).value.items| > 0
              && forall k | 0 <= k < |VlanRangeData(port).value.items| ::
                   PairOf(VlanRangeData(port).value.items[k]).Some?
    ensures r.Some? ==> |r.value| == |VlanRangeData(port).value.items| > 0
  {
    match VlanRangeData(port)
    case None => None
    case Some(data) =>
      if !data.JList? || |data.items| == 0 then None else PairsOf(data.items)
  }

  predicate InPairs(ps: seq<(int, int)>, v: int) {
    exists k | 0 <= k < |ps| :: ps[k].0 <= v <= ps[k].1
  }

  function MinStart(ps: seq<(int, int)>): (m: int)
    requires |ps| > 0
    ensures forall k | 0 <= k < |ps| :: m <= ps[k].0
  {
    if |ps| == 1 then ps[0].0
    else
      var m := MinStart(ps[1..]);
      assert forall k | 1 <= k < |ps| :: ps[k] == ps[1..][k - 1];
      if ps[0].0 < m then ps[0].0 else m
  }

  function MaxEnd(ps: seq<(int, int)>): (m: int)
    requires |ps| > 0
    ensures forall k | 0 <= k < |ps| :: ps[k].1 <= m
  {
    if |ps| == 1 then ps[0].1
    else
      var m := MaxEnd(ps[1..]);
      assert forall k | 1 <= k < |ps| :: ps[k] == ps[1..][k - 1];
      if ps[0].1 > m then ps[0].1 else m
  }

  /** The values in `lo..hi` covered by some pair and not in use, ascending. */
  function Candidates(lo: int, hi: int, ps: seq<(int, int)>, used: seq<int>): (r: seq<int>)
    ensures forall v :: v in r <==> lo <= v <= hi && InPairs(ps, v) && v !in used
    ensures forall k | 0 <= k < |r| :: lo <= r[k]
    ensures Increasing(r)
    decreases hi - lo
  {
    if lo > hi then []
    else
      var rest := Candidates(lo + 1, hi, ps, used);
      if InPairs(ps, lo) && lo !in used then [lo] + rest else rest
  }

  /** `sorted(set(v for start, end in pairs for v in range(start, end + 1)) - in_use)`. */
  function Available(ps: seq<(int, int)>, used: seq<int>): (r: seq<int>)
    ensures Increasing(r)
    ensures forall v :: v in r <==> InPairs(ps, v) && v !in used
  {
    if |ps| == 0 then []
    else
      var lo, hi := MinStart(ps), MaxEnd(ps);
      assert forall v | InPairs(ps, v) :: lo <= v <= hi by {
        forall v | InPairs(ps, v) ensures lo <= v <= hi {
          var k :| 0 <= k < |ps| && ps[k].0 <= v <= ps[k].1;
        }
      }
      Candidates(lo, hi, ps, used)
  }

  /** The free VLANs of a port, or `None` where `_get_vlan_range` gives up. */
  function AvailableVlans(port: seq<(string, Json)>, usage: Usage): (r: Option<seq<int>>)
    ensures r.None? <==> RangePairs(port).None? || Unhashable(PortIdField(port))
    ensures r.Some? ==>
              && Increasing(r.value)
              && forall v :: v in r.value <==>
                   InPairs(RangePairs(port).value, v) && v !in UsageGet(usage, PortIdField(port))
  {
    if Unhashable(PortIdField(port)) then None
    else
      match RangePairs(port)
      case None => None
      case Some(ps) => Some(Available(ps, UsageGet(usage, PortIdField(port))))
  }

  lemma JoinHead(ts: seq<string>, sep: string)
    requires |ts| > 0 && |ts[0]| > 0
    ensures |Join(ts, sep)| > 0 && Join(ts, sep)[0] == ts[0][0]
  {
  }

  lemma IntTextHead(n: int)
    ensures |IntToString(n)| > 0 && (IsDigit(IntToString(n)[0]) || IntToString(n)[0] == '-')
  {
  }

  /**
   * What `_get_vlan_range` returns: `"None"` exactly when nothing is free or the data
   * is unusable, else the maximal runs of free VLANs, ascending, printed `"a-b, c"`;
   * for non-negative VLANs the text reads back as exactly the free set.
   */
  function VlanRangeText(port: seq<(string, Json)>, usage: Usage): (text: string)
    ensures text == "None" <==> AvailableVlans(port, usage).None? || AvailableVlans(port, usage) == Some([])
    ensures AvailableVlans(port, usage).Some? && AvailableVlans(port, usage).value != [] ==>
              && text == RenderRuns(Runs(AvailableVlans(port, usage).value))
              && Separated(Runs(AvailableVlans(port, usage).value))
              && Expand(Runs(AvailableVlans(port, usage).value)) == AvailableVlans(port, usage).value
              && ((forall k | 0 <= k < |AvailableVlans(port, usage).value| :: AvailableVlans(port, usage).value[k] >= 0)
                  ==> ParsedVlans(JStr(text)) == AvailableVlans(port, usage).value)
  {
    match AvailableVlans(port, usage)
    case None => "None"
    case Some(xs) =>
      if xs == [] then "None"
      else
        var runs := Runs(xs);
        RunsExpand(xs);
        RunsSeparated(xs);
        assert (forall k | 0 <= k < |xs| :: xs[k] >= 0) ==> ParsedVlans(JStr(RenderRuns(runs))) == xs by {
          if forall k | 0 <= k < |xs| :: xs[k] >= 0 {
            RenderedRunsParseBack(xs);
          }
        }
        JoinHead(RunTexts(runs), ", ");
        IntTextHead(runs[0].lo);
        assert RenderRuns(runs)[0] != 'N';
        RenderRuns(runs)
  }

  /** `_get_vlan_range`: the free set, then the collapse loop when it is not empty. */
  method GetVlanRange(port: seq<(string, Json)>, usage: Usage) returns (text: string)
    ensures text == VlanRangeText(port, usage)
  {
    var available := AvailableVlans(port, usage);
    if available.None? || available.value == [] {
      return "None";
    }
    text := CollapseRuns(available.value);
  }

  // ---------------------------------------------------------------- _get_vlans_in_use

  /** `usage[k].add(n)` on a `defaultdict(set)` whose sets are kept as ascending lists. */
  function AddVlan(u: Usage, k: Json, n: int): Usage {
    if |u| == 0 then [(k, [n])]
    else if u[0].0 == k then [(k, Insert(u[0].1, n))] + u[1..]
    else [u[0]] + AddVlan(u[1..], k, n)
  }

  /** Sorted ascending lists, one per port. */
  predicate SortedUsage(u: Usage) {
    forall i | 0 <= i < |u| :: Increasing(u[i].1)
  }

  /** Adding a VLAN to one port's set adds exactly that VLAN there and touches no other port. */
  lemma {:induction false} AddVlanGet(u: Usage, k: Json, n: int)
    ensures forall v :: v in UsageGet(AddVlan(u, k, n), k) <==> v in UsageGet(u, k) || v == n
    ensures forall k' | k' != k :: UsageGet(AddVlan(u, k, n), k') == UsageGet(u, k')
    ensures SortedUsage(u) ==> SortedUsage(AddVlan(u, k, n))
  {
    if |u| > 0 && u[0].0 != k {
      AddVlanGet(u[1..], k, n);
      var r := AddVlan(u, k, n);
      assert r[1..] == AddVlan(u[1..], k, n);
    } else if |u| > 0 {
      assert AddVlan(u, k, n)[1..] == u[1..];
    }
  }

  function AddVlans(u: Usage, k: Json, ns: seq<int>): Usage
    decreases |ns|
  {
    if |ns| == 0 then u else AddVlans(AddVlan(u, k, ns[0]), k, ns[1..])
  }

  lemma {:induction false} AddVlansGet(u: Usage, k: Json, ns: seq<int>)
    ensures forall v :: v in UsageGet(AddVlans(u, k, ns), k) <==> v in UsageGet(u, k) || v in ns
    ensures forall k' | k' != k :: UsageGet(AddVlans(u, k, ns), k') == UsageGet(u, k')
    ensures SortedUsage(u) ==> SortedUsage(AddVlans(u, k, ns))
    decreases |ns|
  {
    if |ns| > 0 {
      AddVlanGet(u, k, ns[0]);
      AddVlansGet(AddVlan(u, k, ns[0]), k, ns[1..]);
    }
  }

  /** An endpoint `_get_vlans_in_use` records: a dict with a truthy `port_id` and a VLAN. */
  predicate Records(ep: Json) {
    ep.JObj? && Truthy(Get(ep.fields, "port_id")) && Get(ep.fields, "vlan") != JNull
  }

  /** The endpoint puts VLAN `x` in use on port `k`. */
  predicate Contributes(ep: Json, k: Json, x: int) {
    Records(ep) && Get(ep.fields, "port_id") == k && x in ParsedVlans(Get(ep.fields, "vlan"))
  }

  /** An endpoint whose port id cannot be a dict key, reached with at least one VLAN. */
  predicate Unrecordable(ep: Json) {
    Records(ep) && Unhashable(Get(ep.fields, "port_id")) && |ParsedVlans(Get(ep.fields, "vlan"))| > 0
  }

  /** The usage dict after one endpoint. */
  function StepUsage(u: Usage, ep: Json): Usage {
    if Records(ep) then AddVlans(u, Get(ep.fields, "port_id"), ParsedVlans(Get(ep.fields, "vlan"))) else u
  }

  /** The TypeError `usage[port_id].add` raises for an endpoint that cannot be recorded. */
  function RecordError(ep: Json): Exc
    requires ep.JObj?
  {
    UnhashableError(Get(ep.fields, "port_id"))
  }

  /** `eps[j]` is the first endpoint that cannot be recorded. */
  predicate FirstUnrecordable(eps: seq<Json>, j: int) {
    FirstWhere(Unrecordable, eps, j)
  }

  /**
   * An L2VPN whose first unrecordable endpoint is `j`, after L2VPNs that all record,
   * holds the first unrecordable endpoint of them all.
   */
  lemma FirstUnrecordableFlat(l2vpns: seq<seq<Json>>, i: int, j: int)
    requires 0 <= i < |l2vpns| && FirstUnrecordable(l2vpns[i], j)
    requires forall ep | ep in Flatten(l2vpns[..i]) :: !Unrecordable(ep)
    ensures l2vpns[i][j] in Flatten(l2vpns)
    ensures exists n :: FirstUnrecordable(Flatten(l2vpns), n) && Flatten(l2vpns)[n] == l2vpns[i][j]
  {
    FirstWhereFlat(Unrecordable, l2vpns, i, j);
  }

  /** The usage dict after the endpoints, in order. */
  function UsageOf(u: Usage, eps: seq<Json>): Usage
    decreases |eps|
  {
    if |eps| == 0 then u else UsageOf(StepUsage(u, eps[0]), eps[1..])
  }

  /** One more endpoint of the prefix is one more step. */
  lemma UsageOfSnoc(u: Usage, eps: seq<Json>, j: int)
    requires 0 <= j < |eps|
    ensures UsageOf(u, eps[..j + 1]) == StepUsage(UsageOf(u, eps[..j]), eps[j])
  {
    UsageOfAppend(u, eps[..j], [eps[j]]);
    assert eps[..j] + [eps[j]] == eps[..j + 1];
  }

  lemma {:induction false} UsageOfAppend(u: Usage, a: seq<Json>, b: seq<Json>)
    ensures UsageOf(u, a + b) == UsageOf(UsageOf(u, a), b)
    decreases |a|
  {
    if |a| > 0 {
      assert (a + b)[1..] == a[1..] + b;
      UsageOfAppend(StepUsage(u, a[0]), a[1..], b);
    } else {
      assert a + b == b;
    }
  }

  lemma {:induction false} AddVlansAppend(u: Usage, k: Json, a: seq<int>, b: seq<int>)
    ensures AddVlans(u, k, a + b) == AddVlans(AddVlans(u, k, a), k, b)
    decreases |a|
  {
    if |a| > 0 {
      assert (a + b)[1..] == a[1..] + b;
      AddVlansAppend(AddVlan(u, k, a[0]), k, a[1..], b);
    } else {
      assert a + b == b;
    }
  }

  /**
   * Each port's VLANs in use are exactly those its recorded endpoints contribute,
   * ascending and without duplicates.
   */
  lemma {:induction false} UsageOfMembers(u: Usage, eps: seq<Json>, k: Json, x: int)
    ensures x in UsageGet(UsageOf(u, eps), k) <==>
              x in UsageGet(u, k) || exists ep | ep in eps :: Contributes(ep, k, x)
    decreases |eps|
  {
    if |eps| > 0 {
      var ep := eps[0];
      var u' := StepUsage(u, ep);
      if Records(ep) {
        AddVlansGet(u, Get(ep.fields, "port_id"), ParsedVlans(Get(ep.fields, "vlan")));
      }
      UsageOfMembers(u', eps[1..], k, x);
      assert x in UsageGet(u', k) <==> x in UsageGet(u, k) || Contributes(ep, k, x);
      assert forall e | e in eps :: e == ep || e in eps[1..];
    }
  }

  lemma {:induction false} UsageOfSorted(u: Usage, eps: seq<Json>)
    requires SortedUsage(u)
    ensures SortedUsage(UsageOf(u, eps))
    decreases |eps|
  {
    if |eps| > 0 {
      if Records(eps[0]) {
        AddVlansGet(u, Get(eps[0].fields, "port_id"), ParsedVlans(Get(eps[0].fields, "vlan")));
      }
      UsageOfSorted(StepUsage(u, eps[0]), eps[1..]);
    }
  }

  /** The VLANs in use on a port come out ascending and without duplicates, as `sorted(set)`. */
  lemma UsageSorted(eps: seq<Json>, k: Json)
    ensures Increasing(UsageGet(UsageOf([], eps), k))
  {
    UsageOfSorted([], eps);
  }

  /**
   * The aggregation loop of `_get_vlans_in_use` over the friendly L2VPN records, each
   * given as its `endpoints` list; a port id that is a list or a dict raises TypeError.
   */
  method VlansInUse(l2vpns: seq<seq<Json>>) returns (r: Result<Usage>)
    ensures r.Failure? <==> exists ep | ep in Flatten(l2vpns) :: Unrecordable(ep)
    ensures r.Failure? ==>
              exists j :: FirstUnrecordable(Flatten(l2vpns), j) && r.error == RecordError(Flatten(l2vpns)[j])
    ensures r.Success? ==> r.value == UsageOf([], Flatten(l2vpns))
  {
    if |l2vpns| == 0 {
      return Success([]);
    }
    var usage: Usage := [];
    for i := 0 to |l2vpns|
      invariant usage == UsageOf([], Flatten(l2vpns[..i]))
      invariant forall ep | ep in Flatten(l2vpns[..i]) :: !Unrecordable(ep)
    {
      var next := RecordEndpoints(usage, l2vpns[i]);
      if next.Failure? {
        var j :| FirstUnrecordable(l2vpns[i], j) && next.error == RecordError(l2vpns[i][j]);
        FirstUnrecordableFlat(l2vpns, i, j);
        return Failure(next.error);
      }
      FlattenSnoc(l2vpns, i);
      UsageOfAppend([], Flatten(l2vpns[..i]), l2vpns[i]);
      usage := next.value;
    }
    assert l2vpns[..|l2vpns|] == l2vpns;
    return Success(usage);
  }

  /** The loop over one L2VPN's endpoints. */
  method RecordEndpoints(usage: Usage, eps: seq<Json>) returns (r: Result<Usage>)
    ensures r.Failure? <==> exists j | 0 <= j < |eps| :: Unrecordable(eps[j])
    ensures r.Failure? ==> exists j :: FirstUnrecordable(eps, j) && r.error == RecordError(eps[j])
    ensures r.Success? ==> r.value == UsageOf(usage, eps)
  {
    var u := usage;
    for j := 0 to |eps|
      invariant u == UsageOf(usage, eps[..j])
      invariant forall k | 0 <= k < j :: !Unrecordable(eps[k])
    {
      var next := RecordEndpoint(u, eps[j]);
      if next.Failure? {
        assert FirstUnrecordable(eps, j);
        return next;
      }
      UsageOfSnoc(usage, eps, j);
      u := next.value;
    }
    assert eps[..|eps|] == eps;
    return Success(u);
  }

  /** One endpoint: a dict with a truthy `port_id` and a `vlan` adds each parsed VLAN. */
  method RecordEndpoint(usage: Usage, ep: Json) returns (r: Result<Usage>)
    ensures r.Failure? <==> Unrecordable(ep)
    ensures r.Failure? ==> ep.JObj? && r.error == RecordError(ep)
    ensures r.Success? ==> r.value == StepUsage(usage, ep)
  {
    if !ep.JObj? {
      return Success(usage);
    }
    var portId := Get(ep.fields, "port_id");
    var vlan := Get(ep.fields, "vlan");
    if !(Truthy(portId) && vlan != JNull) {
      return Success(usage);
    }
    var ns := ParseVlanValue(vlan);
    r := AddEach(usage, portId, ns);
  }

  /** `for n in ...: usage[port_id].add(n)`, which raises on the first VLAN for an unhashable key. */
  method AddEach(usage: Usage, portId: Json, ns: seq<int>) returns (r: Result<Usage>)
    ensures r.Failure? <==> Unhashable(portId) && |ns| > 0
    ensures r.Failure? ==> r.error == UnhashableError(portId)
    ensures r.Success? ==> r.value == AddVlans(usage, portId, ns)
  {
    var u := usage;
    assert ns[..0] == [];
    for m := 0 to |ns|
      invariant u == AddVlans(usage, portId, ns[..m])
      invariant m > 0 ==> !Unhashable(portId)
    {
      if Unhashable(portId) {
        return Failure(UnhashableError(portId));
      }
      AddVlansAppend(usage, portId, ns[..m], [ns[m]]);
      assert ns[..m] + [ns[m]] == ns[..m + 1];
      u := AddVlan(u, portId, ns[m]);
    }
    assert ns[..|ns|] == ns;
    return Success(u);
  }

  /**
   * The friendly endpoints `get_all_l2vpns` builds from `l2vpn.endpoints or []`: each
   * dict endpoint reduced to `port_id` and `vlan`, with `"Unknown"` for a missing key.
   */
  function FriendlyEndpoints(endpoints: Json): (r: Result<seq<Json>>)
    ensures r.Failure? <==> Truthy(endpoints) && Elements(endpoints).Failure?
    ensures r.Success? ==> forall k | 0 <= k < |r.value| ::
              r.value[k].JObj? && Keys(r.value[k].fields) == ["port_id", "vlan"]
  {
    if !Truthy(endpoints) then Success([])
    else
      match Elements(endpoints)
      case Failure(e) => Failure(e)
      case Success(items) => Success(FriendlyOf(items))
  }

  function FriendlyOf(items: seq<Json>): (r: seq<Json>)
    ensures |r| <= |items|
    ensures forall k | 0 <= k < |r| :: r[k].JObj? && Keys(r[k].fields) == ["port_id", "vlan"]
  {
    if |items| == 0 then []
    else if items[0].JObj? then [FriendlyEndpoint(items[0].fields)] + FriendlyOf(items[1..])
    else FriendlyOf(items[1..])
  }

  function FriendlyEndpoint(ep: seq<(string, Json)>): Json {
    JObj([("port_id", GetOr(ep, "port_id", JStr("Unknown"))), ("vlan", GetOr(ep, "vlan", JStr("Unknown")))])
  }

  /** An endpoint without a `port_id` but with a VLAN counts as in use on port `"Unknown"`. */
  lemma MissingPortIdCountsAsUnknown(ep: seq<(string, Json)>, x: int)
    requires !HasKey(ep, "port_id") && HasKey(ep, "vlan") && x in ParsedVlans(Get(ep, "vlan"))
    ensures Contributes(FriendlyEndpoint(ep), JStr("Unknown"), x)
  {
    var f := FriendlyEndpoint(ep).fields;
    assert Get(f, "port_id") == JStr("Unknown");
    assert f[1].0 == "vlan" && "port_id" != "vlan" by {
      assert "port_id"[0] != "vlan"[0];
    }
    assert Get(f, "vlan") == GetOr(ep, "vlan", JStr("Unknown"));
    GetOrPresent(ep, "vlan", JNull, JStr("Unknown"));
  }

  // ---------------------------------------------------------------- _format_port

  /** The first index of `c` in `s`, or `|s|`. */
  function IndexOf(s: string, c: char): (r: int)
    ensures 0 <= r <= |s|
    ensures r < |s| ==> s[r] == c
    ensures forall k | 0 <= k < r :: s[k] != c
  {
    if |s| == 0 then 0 else if s[0] == c then 0 else 1 + IndexOf(s[1..], c)
  }

  lemma {:induction false} IndexOfAfter(d: string, c: char, rest: string)
    requires c !in d
    ensures IndexOf(d + [c] + rest, c) == |d|
  {
    if |d| > 0 {
      assert (d + [c] + rest)[1..] == d[1..] + [c] + rest;
      IndexOfAfter(d[1..], c, rest);
    }
  }

  /** `s` cut around position `i`. */
  lemma CutAt(s: string, i: int)
    requires 0 <= i < |s|
    ensures s == s[..i] + [s[i]] + s[i + 1..]
  {
  }

  /**
   * The three lazy groups of `(.*?):(.*?):(.*?)` over a line: the domain runs to the
   * first colon, the device to the next one, and the port takes the rest.
   */
  function SplitPortBody(body: string): Option<(string, string, string)> {
    var c1 := IndexOf(body, ':');
    if c1 == |body| then None
    else
      var rest := body[c1 + 1..];
      var c2 := IndexOf(rest, ':');
      if c2 == |rest| then None
      else Some((body[..c1], rest[..c2], rest[c2 + 1..]))
  }

  /** The groups rejoin to the line, and neither of the first two holds a colon. */
  lemma SplitPortBodyJoins(body: string)
    ensures SplitPortBody(body).Some? ==>
              && var (d, v, p) := SplitPortBody(body).value;
              && ':' !in d && ':' !in v && body == d + [':'] + (v + [':'] + p)
  {
    var c1 := IndexOf(body, ':');
    if c1 < |body| {
      var rest := body[c1 + 1..];
      var c2 := IndexOf(rest, ':');
      if c2 < |rest| {
        CutAt(body, c1);
        CutAt(rest, c2);
      }
    }
  }

  /** Any domain and device without colons come back out, whatever the port holds. */
  lemma SplitPortBodyOf(d: string, v: string, p: string)
    requires ':' !in d && ':' !in v
    ensures SplitPortBody(d + [':'] + (v + [':'] + p)) == Some((d, v, p))
  {
    var body := d + [':'] + (v + [':'] + p);
    IndexOfAfter(d, ':', v + [':'] + p);
    assert body[..|d|] == d;
    assert body[|d| + 1..] == v + [':'] + p;
    IndexOfAfter(v, ':', p);
    assert (v + [':'] + p)[..|v|] == v;
    assert (v + [':'] + p)[|v| + 1..] == p;
  }

  /** A line with fewer than two colons has no match. */
  lemma SplitPortBodyNone(body: string)
    requires forall i, j | 0 <= i < j < |body| :: !(body[i] == ':' && body[j] == ':')
    ensures SplitPortBody(body) == None
  {
    var c1 := IndexOf(body, ':');
    if c1 < |body| {
      var rest := body[c1 + 1..];
      assert forall k | 0 <= k < |rest| :: rest[k] == body[c1 + 1 + k];
    }
  }

  /** The text after `urn:sdx:port:`, without the final newline `$` may skip. */
  function PortIdLine(s: string): string
    requires |s| >= 13
  {
    var tail := s[13..];
    if |tail| > 0 && tail[|tail| - 1] == '\n' then tail[..|tail| - 1] else tail
  }

  /**
   * The groups of `re.match(r"urn:sdx:port:(.*?):(.*?):(.*?)$", s)`: `.` stops at a
   * newline, and `$` also matches before a final one.
   */
  function PortIdParts(s: string): Option<(string, string, string)> {
    if !(|s| >= 13 && s[..13] == PortUrnPrefix) then None
    else
      var line := PortIdLine(s);
      if '\n' in line then None else SplitPortBody(line)
  }

  const PortUrnPrefix := "urn:sdx:port:"

  /** The URN a match reads: the prefix, then the groups joined by colons. */
  function PortUrn(d: string, v: string, p: string): string {
    PortUrnPrefix + (d + [':'] + (v + [':'] + p))
  }

  /**
   * A match gives a domain and a device without colons and no newline anywhere, and
   * the string is their URN, possibly followed by one newline.
   */
  lemma PortIdPartsMatch(s: string)
    ensures PortIdParts(s).Some? ==>
              && var (d, v, p) := PortIdParts(s).value;
              && ':' !in d && ':' !in v && '\n' !in d && '\n' !in v && '\n' !in p
              && (s == PortUrn(d, v, p) || s == PortUrn(d, v, p) + "\n")
  {
    if |s| >= 13 && s[..13] == PortUrnPrefix {
      var line := PortIdLine(s);
      if '\n' !in line && SplitPortBody(line).Some? {
        SplitPortBodyJoins(line);
        var (d, v, p) := SplitPortBody(line).value;
        NoNewlineInParts(line, d, v, p);
        LineOfUrn(s);
      }
    }
  }

  /** The string is the prefix and the line, possibly followed by the newline it dropped. */
  lemma LineOfUrn(s: string)
    requires |s| >= 13 && s[..13] == PortUrnPrefix
    ensures s == PortUrnPrefix + PortIdLine(s) || s == PortUrnPrefix + PortIdLine(s) + "\n"
  {
    var tail := s[13..];
    assert s == s[..13] + tail;
    if |tail| > 0 && tail[|tail| - 1] == '\n' {
      assert tail == tail[..|tail| - 1] + "\n";
    }
  }

  lemma NoNewlineInParts(line: string, d: string, v: string, p: string)
    requires '\n' !in line && line == d + [':'] + (v + [':'] + p)
    ensures '\n' !in d && '\n' !in v && '\n' !in p
  {
    assert forall k | 0 <= k < |d| :: d[k] == line[k];
    assert forall k | 0 <= k < |v| :: v[k] == line[|d| + 1 + k];
    assert forall k | 0 <= k < |p| :: p[k] == line[|d| + |v| + 2 + k];
  }

  /** A port URN reads back as its domain, device and port, with or without a final newline. */
  lemma PortIdPartsOf(d: string, v: string, p: string, newline: bool)
    requires ':' !in d && ':' !in v && '\n' !in d && '\n' !in v && '\n' !in p
    ensures PortIdParts(PortUrn(d, v, p) + (if newline then "\n" else "")) == Some((d, v, p))
  {
    var line := d + [':'] + (v + [':'] + p);
    var s := PortUrn(d, v, p) + (if newline then "\n" else "");
    assert s[..13] == PortUrnPrefix;
    assert s[13..] == line + (if newline then "\n" else "");
    LineWithoutNewline(d, v, p);
    assert PortIdLine(s) == line;
    SplitPortBodyOf(d, v, p);
  }

  lemma LineWithoutNewline(d: string, v: string, p: string)
    requires '\n' !in d && '\n' !in v && '\n' !in p
    ensures '\n' !in d + [':'] + (v + [':'] + p)
  {
  }

  /** One row of the available-ports listing. */
  datatype PortRow = PortRow(
    domain: string, device: string, port: string, status: Json, portId: Json,
    entities: string, vlansAvailable: string, vlansInUse: string)

  /** `port_id or ""` once it is known to be a string or falsy. */
  function IdText(id: Json): string {
    if id.JStr? then id.s else ""
  }

  /** `port.get("entities") or []` can be iterated. */
  predicate EntitiesOk(port: seq<(string, Json)>) {
    !Truthy(Get(port, "entities")) || Elements(Get(port, "entities")).Success?
  }

  function IntTexts(xs: seq<int>): (ts: seq<string>)
    ensures |ts| == |xs|
    ensures forall k | 0 <= k < |xs| :: ts[k] == IntToString(xs[k])
  {
    seq(|xs|, k requires 0 <= k < |xs| => IntToString(xs[k]))
  }

  function JsonTexts(vs: seq<Json>): (ts: seq<string>)
    ensures |ts| == |vs|
    ensures forall k | 0 <= k < |vs| :: ts[k] == PyStr(vs[k])
  {
    seq(|vs|, k requires 0 <= k < |vs| => PyStr(vs[k]))
  }

  /**
   * `_format_port`: a port id that is truthy but not a string fails in `re.match`,
   * entities that cannot be iterated fail in the join, and an unhashable id fails
   * in `vlan_usage.get`.
   */
  function FormatPort(port: seq<(string, Json)>, usage: Usage): Result<PortRow> {
    var id := PortIdField(port);
    if Truthy(id) && !id.JStr? then
      Failure(TypeError(ExpectedStringMsg + TypeName(id) + "'"))
    else
      var parts := PortIdParts(IdText(id));
      var (domain, device, portNumber) := if parts.Some? then parts.value else ("Unknown", "Unknown", "Unknown");
      var entities := Get(port, "entities");
      var items := if Truthy(entities) then Elements(entities) else Success([]);
      if items.Failure? then Failure(items.error)
      else if Unhashable(id) then Failure(UnhashableError(id))
      else
        var inUse := UsageGet(usage, id);
        Success(PortRow(domain, device, portNumber, GetOr(port, "status", JStr("Unknown")), id,
                        Join(JsonTexts(items.value), ", "), VlanRangeText(port, usage), InUseText(inUse)))
  }

  /** `", ".join(map(str, in_use)) or "None"`. */
  function InUseText(inUse: seq<int>): (r: string)
    ensures r == "None" <==> inUse == []
  {
    if inUse == [] then "None"
    else
      var text := Join(IntTexts(inUse), ", ");
      IntTextHead(inUse[0]);
      JoinHead(IntTexts(inUse), ", ");
      assert text[0] != 'N';
      text
  }

  /**
   * `_format_port` raises exactly for a truthy port id that is not a string, entities
   * that cannot be iterated, or an unhashable id; otherwise the row carries the id, the
   * status, the URN groups (`"Unknown"` without a match) and the two VLAN texts.
   */
  lemma FormatPortSpec(port: seq<(string, Json)>, usage: Usage)
    ensures FormatPort(port, usage).Success? <==>
              && (Truthy(PortIdField(port)) ==> PortIdField(port).JStr?)
              && EntitiesOk(port)
              && !Unhashable(PortIdField(port))
    ensures FormatPort(port, usage).Success? ==>
              && var row := FormatPort(port, usage).value;
              && row.portId == PortIdField(port)
              && row.status == GetOr(port, "status", JStr("Unknown"))
              && (PortIdParts(IdText(PortIdField(port))).Some? ==>
                    (row.domain, row.device, row.port) == PortIdParts(IdText(PortIdField(port))).value)
              && (PortIdParts(IdText(PortIdField(port))).None? ==>
                    row.domain == row.device == row.port == "Unknown")
              && row.vlansAvailable == VlanRangeText(port, usage)
              && (row.vlansInUse == "None" <==> UsageGet(usage, PortIdField(port)) == [])
  {
  }

  // ---------------------------------------------------------------- get_available_ports

  /** `port.get("status") == "up" and not port.get("nni")` on a dict port. */
  predicate Listed(port: Json) {
    port.JObj? && Get(port.fields, "status") == JStr("up") && !Truthy(Get(port.fields, "nni"))
  }

  /** The row a port adds, or `None` when it is not listed or formatting it raises. */
  function RowOf(port: Json, usage: Usage): Option<PortRow> {
    if !Listed(port) then None
    else
      match FormatPort(port.fields, usage)
      case Success(row) => Some(row)
      case Failure(_) => None
  }

  /** The rows of the listed ports, in order. */
  function ListedRows(ports: seq<Json>, usage: Usage): seq<PortRow> {
    if |ports| == 0 then []
    else
      match RowOf(ports[0], usage)
      case Some(row) => [row] + ListedRows(ports[1..], usage)
      case None => ListedRows(ports[1..], usage)
  }

  /** A row is listed exactly when some port gives it. */
  lemma {:induction false} ListedRowsMembers(ports: seq<Json>, usage: Usage, row: PortRow)
    ensures row in ListedRows(ports, usage) <==> exists k | 0 <= k < |ports| :: RowOf(ports[k], usage) == Some(row)
  {
    if |ports| > 0 {
      ListedRowsMembers(ports[1..], usage, row);
      if exists k | 0 <= k < |ports| :: RowOf(ports[k], usage) == Some(row) {
        var k :| 0 <= k < |ports| && RowOf(ports[k], usage) == Some(row);
        if k > 0 {
          assert ports[1..][k - 1] == ports[k];
        }
      }
      if exists k | 0 <= k < |ports| - 1 :: RowOf(ports[1..][k], usage) == Some(row) {
        var k :| 0 <= k < |ports| - 1 && RowOf(ports[1..][k], usage) == Some(row);
        assert ports[k + 1] == ports[1..][k];
      }
    }
  }

  lemma {:induction false} ListedRowsAppend(a: seq<Json>, b: seq<Json>, usage: Usage)
    ensures ListedRows(a + b, usage) == ListedRows(a, usage) + ListedRows(b, usage)
    decreases |a|
  {
    if |a| > 0 {
      assert (a + b)[1..] == a[1..] + b;
      ListedRowsAppend(a[1..], b, usage);
    } else {
      assert a + b == b;
    }
  }

  lemma ListedRowsSnoc(ports: seq<Json>, j: int, usage: Usage)
    requires 0 <= j < |ports|
    ensures ListedRows(ports[..j + 1], usage) ==
              ListedRows(ports[..j], usage) + (if RowOf(ports[j], usage).Some? then [RowOf(ports[j], usage).value] else [])
  {
    assert ports[..j + 1] == ports[..j] + [ports[j]];
    ListedRowsAppend(ports[..j], [ports[j]], usage);
    assert [ports[j]][1..] == [];
  }

  /** `topology.get("nodes", []) or []`, iterated. */
  function TopologyNodes(topology: seq<(string, Json)>): (r: Result<seq<Json>>)
    ensures !Truthy(GetOr(topology, "nodes", JList([]))) ==> r == Success([])
    ensures GetOr(topology, "nodes", JList([])).JList? ==> r == Success(GetOr(topology, "nodes", JList([])).items)
  {
    var nodes := GetOr(topology, "nodes", JList([]));
    if !Truthy(nodes) then Success([]) else Elements(nodes)
  }

  /**
   * `node.get("ports", []) or []`, iterated. It sits outside the `try`, so a node that
   * is not a dict raises AttributeError and ports that cannot be iterated TypeError.
   */
  function NodePorts(node: Json): (r: Result<seq<Json>>)
    ensures !node.JObj? ==> r == Failure(NoGetError(node))
    ensures node.JObj? && !Truthy(GetOr(node.fields, "ports", JList([]))) ==> r == Success([])
    ensures node.JObj? && GetOr(node.fields, "ports", JList([])).JList? ==>
              r == Success(GetOr(node.fields, "ports", JList([])).items)
    ensures r.Failure? ==> r.error.AttributeError? || r.error.TypeError?
  {
    if !node.JObj? then Failure(NoGetError(node))
    else
      var ports := GetOr(node.fields, "ports", JList([]));
      if !Truthy(ports) then Success([]) else Elements(ports)
  }

  /**
   * What the gathering loop over `nodes` ends with: the first node whose ports cannot
   * be read raises, otherwise the rows of all listed ports, node by node.
   */
  function GatheredRows(nodes: seq<Json>, usage: Usage): Result<seq<PortRow>> {
    var lists := MapResults(NodePorts, nodes);
    if lists.Failure? then Failure(lists.error) else Success(ListedRows(Flatten(lists.value), usage))
  }

  /**
   * The loop raises exactly when some node's ports cannot be read, with the first such
   * node's error; otherwise it lists the rows of every node's ports in order.
   */
  lemma GatheredRowsSpec(nodes: seq<Json>, usage: Usage)
    ensures GatheredRows(nodes, usage).Success? <==> forall i | 0 <= i < |nodes| :: NodePorts(nodes[i]).Success?
    ensures GatheredRows(nodes, usage).Failure? ==>
              exists i | 0 <= i < |nodes| ::
                && NodePorts(nodes[i]).Failure? && GatheredRows(nodes, usage).error == NodePorts(nodes[i]).error
                && forall j | 0 <= j < i :: NodePorts(nodes[j]).Success?
    ensures GatheredRows(nodes, usage).Success? ==>
              GatheredRows(nodes, usage).value
              == ListedRows(Flatten(seq(|nodes|, i requires 0 <= i < |nodes| => NodePorts(nodes[i]).value)), usage)
  {
    MapResultsSuccess(NodePorts, nodes);
    if MapResults(NodePorts, nodes).Failure? {
      MapResultsFailure(NodePorts, nodes);
    } else {
      assert MapResults(NodePorts, nodes).value
             == seq(|nodes|, i requires 0 <= i < |nodes| => NodePorts(nodes[i]).value);
    }
  }

  /** A node that is not a dict makes the whole listing raise. */
  lemma NonDictNodeRaises(nodes: seq<Json>, usage: Usage, i: int)
    requires 0 <= i < |nodes| && !nodes[i].JObj?
    ensures GatheredRows(nodes, usage).Failure?
    ensures GatheredRows(nodes, usage).error.AttributeError? || GatheredRows(nodes, usage).error.TypeError?
  {
    GatheredRowsSpec(nodes, usage);
  }

  /** A node whose ports can be read adds the rows of its ports. */
  lemma GatherGrows(nodes: seq<Json>, i: int, usage: Usage)
    requires 0 <= i < |nodes| && MapResults(NodePorts, nodes[..i]).Success? && NodePorts(nodes[i]).Success?
    ensures MapResults(NodePorts, nodes[..i + 1]).Success?
    ensures ListedRows(Flatten(MapResults(NodePorts, nodes[..i + 1]).value), usage)
            == ListedRows(Flatten(MapResults(NodePorts, nodes[..i]).value), usage)
               + ListedRows(NodePorts(nodes[i]).value, usage)
  {
    var done := MapResults(NodePorts, nodes[..i]).value;
    var ports := NodePorts(nodes[i]).value;
    MapResultsSnoc(NodePorts, nodes, i);
    FlattenSnoc(done + [ports], |done|);
    assert (done + [ports])[..|done|] == done;
    assert (done + [ports])[..|done| + 1] == done + [ports];
    ListedRowsAppend(Flatten(done), ports, usage);
  }

  /**
   * The gathering loop of `get_available_ports` over the topology's nodes and their
   * ports: a port that is up, has no NNI and formats without raising adds its row; any
   * other port is skipped; a node whose ports cannot be read raises.
   */
  method GatherPorts(topology: seq<(string, Json)>, usage: Usage) returns (r: Result<seq<PortRow>>)
    ensures TopologyNodes(topology).Failure? ==> r == Failure(TopologyNodes(topology).error)
    ensures TopologyNodes(topology).Success? ==> r == GatheredRows(TopologyNodes(topology).value, usage)
  {
    var all := TopologyNodes(topology);
    if all.Failure? {
      return Failure(all.error);
    }
    var nodes := all.value;
    var rows := [];
    for i := 0 to |nodes|
      invariant MapResults(NodePorts, nodes[..i]).Success?
      invariant rows == ListedRows(Flatten(MapResults(NodePorts, nodes[..i]).value), usage)
    {
      var ports := NodePorts(nodes[i]);
      if ports.Failure? {
        MapResultsSnoc(NodePorts, nodes, i);
        return Failure(ports.error);
      }
      var more := GatherNode(ports.value, usage);
      GatherGrows(nodes, i, usage);
      rows := rows + more;
    }
    assert nodes[..|nodes|] == nodes;
    return Success(rows);
  }

  /** The inner loop over one node's ports. */
  method GatherNode(ports: seq<Json>, usage: Usage) returns (rows: seq<PortRow>)
    ensures rows == ListedRows(ports, usage)
  {
    rows := [];
    for j := 0 to |ports|
      invariant rows == ListedRows(ports[..j], usage)
    {
      var port := ports[j];
      ListedRowsSnoc(ports, j, usage);
      if port.JObj? && Get(port.fields, "status") == JStr("up") && !Truthy(Get(port.fields, "nni")) {
        var row := FormatPort(port.fields, usage);
        if row.Success? {
          rows := rows + [row.value];
        }
      }
    }
    assert ports[..|ports|] == ports;
  }

  /** The search keeps a row whose entities, device or port id contain the term. */
  predicate RowMatches(term: string, row: PortRow) {
    || IsSubstring(term, Lower(row.entities))
    || IsSubstring(term, Lower(row.device))
    || IsSubstring(term, Lower(IdText(row.portId)))
  }

  /** The optional search filter of `get_available_ports`, ignoring case. */
  function SearchRows(rows: seq<PortRow>, search: Option<string>): (r: seq<PortRow>)
    ensures search.None? || search.value == "" ==> r == rows
    ensures search.Some? && search.value != "" ==>
              forall row :: row in r <==> row in rows && RowMatches(Lower(search.value), row)
    ensures search.Some? && search.value != "" ==>
              forall row :: multiset(r)[row] == if RowMatches(Lower(search.value), row) then multiset(rows)[row] else 0
  {
    if search.None? || search.value == "" then rows
    else KeepMatching(rows, Lower(search.value))
  }

  /** The matching rows: each as often as in `rows`, any other row not at all. */
  function KeepMatching(rows: seq<PortRow>, term: string): (r: seq<PortRow>)
    ensures forall row :: row in r <==> row in rows && RowMatches(term, row)
    ensures forall row :: multiset(r)[row] == if RowMatches(term, row) then multiset(rows)[row] else 0
  {
    if |rows| == 0 then []
    else
      assert rows == [rows[0]] + rows[1..];
      if RowMatches(term, rows[0]) then [rows[0]] + KeepMatching(rows[1..], term)
      else KeepMatching(rows[1..], term)
  }

  /** The filter keeps the order: matching rows of a prefix come before those of the rest. */
  lemma {:induction false} KeepMatchingAppend(a: seq<PortRow>, b: seq<PortRow>, term: string)
    ensures KeepMatching(a + b, term) == KeepMatching(a, term) + KeepMatching(b, term)
    decreases |a|
  {
    if |a| == 0 {
      assert a + b == b;
    } else {
      assert (a + b)[0] == a[0];
      assert (a + b)[1..] == a[1..] + b;
      KeepMatchingAppend(a[1..], b, term);
    }
  }

  // ---------------------------------------------------------------- get_all_l2vpns search

  /** `s in sid.lower() or s in (l2vpn.name or "").lower()` when it does not raise. */
  predicate L2vpnMatches(term: string, sid: string, name: Json) {
    IsSubstring(term, Lower(sid)) || (name.JStr? && IsSubstring(term, Lower(name.s)))
  }

  /** The name is only read when the id does not match; a truthy non-string name raises. */
  predicate L2vpnRaises(term: string, sid: string, name: Json) {
    !IsSubstring(term, Lower(sid)) && Truthy(name) && !name.JStr?
  }

  /**
   * The search filter of `get_all_l2vpns` over `(service id, l2vpn.name)` pairs: keeps
   * the services whose id or name contains the term, ignoring case.
   */
  function SearchL2vpns(l2vpns: seq<(string, Json)>, search: Option<string>): (r: Result<seq<(string, Json)>>)
    ensures search.None? || search.value == "" ==> r == Success(l2vpns)
    ensures search.Some? && search.value != "" ==>
              && (r.Failure? <==> exists e | e in l2vpns :: L2vpnRaises(Lower(search.value), e.0, e.1))
              && (r.Success? ==> forall e :: e in r.value <==> e in l2vpns && L2vpnMatches(Lower(search.value), e.0, e.1))
              && (r.Success? ==> forall e :: multiset(r.value)[e] ==
                                   if L2vpnMatches(Lower(search.value), e.0, e.1) then multiset(l2vpns)[e] else 0)
              && (r.Failure? ==> exists e | e in l2vpns :: L2vpnRaises(Lower(search.value), e.0, e.1) && r.error == NoLowerError(e.1))
  {
    if search.None? || search.value == "" then Success(l2vpns)
    else
      var r := KeepL2vpns(l2vpns, Lower(search.value));
      if r.Failure? then
        KeepL2vpnsError(l2vpns, Lower(search.value));
        r
      else
        KeepL2vpnsContents(l2vpns, Lower(search.value));
        r
  }

  /** The AttributeError of `.lower()` on a name that is not a string. */
  function NoLowerError(name: Json): Exc {
    AttributeError("'" + TypeName(name) + NoLowerAttributeMsg)
  }

  /**
   * The dict comprehension: the first entry that raises decides the error; otherwise
   * each matching service is kept as often as it occurs, and no other.
   */
  function KeepL2vpns(l2vpns: seq<(string, Json)>, term: string): (r: Result<seq<(string, Json)>>)
    ensures r.Failure? <==> exists e | e in l2vpns :: L2vpnRaises(term, e.0, e.1)
  {
    if |l2vpns| == 0 then Success([])
    else
      var (sid, name) := l2vpns[0];
      if L2vpnRaises(term, sid, name) then
        Failure(NoLowerError(name))
      else
        match KeepL2vpns(l2vpns[1..], term)
        case Failure(e) => Failure(e)
        case Success(rest) =>
          if L2vpnMatches(term, sid, name) then Success([l2vpns[0]] + rest) else Success(rest)
  }

  /** A comprehension that does not raise keeps each matching service as often as it occurs, and no other. */
  lemma {:induction false} KeepL2vpnsContents(l2vpns: seq<(string, Json)>, term: string)
    requires KeepL2vpns(l2vpns, term).Success?
    ensures forall e :: e in KeepL2vpns(l2vpns, term).value <==> e in l2vpns && L2vpnMatches(term, e.0, e.1)
    ensures forall e :: multiset(KeepL2vpns(l2vpns, term).value)[e]
                        == if L2vpnMatches(term, e.0, e.1) then multiset(l2vpns)[e] else 0
  {
    if |l2vpns| > 0 {
      assert l2vpns == [l2vpns[0]] + l2vpns[1..];
      KeepL2vpnsContents(l2vpns[1..], term);
    }
  }

  /** A failing comprehension raises the AttributeError of the first entry that raises. */
  lemma {:induction false} KeepL2vpnsError(l2vpns: seq<(string, Json)>, term: string)
    requires KeepL2vpns(l2vpns, term).Failure?
    ensures exists i | 0 <= i < |l2vpns| ::
              && L2vpnRaises(term, l2vpns[i].0, l2vpns[i].1)
              && KeepL2vpns(l2vpns, term).error == NoLowerError(l2vpns[i].1)
              && forall j | 0 <= j < i :: !L2vpnRaises(term, l2vpns[j].0, l2vpns[j].1)
  {
    var rest := l2vpns[1..];
    if !L2vpnRaises(term, l2vpns[0].0, l2vpns[0].1) {
      KeepL2vpnsError(rest, term);
      var i :| 0 <= i < |rest|
        && L2vpnRaises(term, rest[i].0, rest[i].1) && KeepL2vpns(rest, term).error == NoLowerError(rest[i].1)
        && forall j | 0 <= j < i :: !L2vpnRaises(term, rest[j].0, rest[j].1);
      assert l2vpns[i + 1] == rest[i];
      assert forall j | 1 <= j < i + 1 :: l2vpns[j] == rest[j - 1];
    }
  }

  /** One step of the comprehension on an entry that does not raise. */
  lemma KeepL2vpnsCons(l2vpns: seq<(string, Json)>, term: string)
    requires |l2vpns| > 0 && !L2vpnRaises(term, l2vpns[0].0, l2vpns[0].1)
    requires KeepL2vpns(l2vpns[1..], term).Success?
    ensures KeepL2vpns(l2vpns, term)
            == Success((if L2vpnMatches(term, l2vpns[0].0, l2vpns[0].1) then [l2vpns[0]] else [])
                       + KeepL2vpns(l2vpns[1..], term).value)
  {
    var rest := KeepL2vpns(l2vpns[1..], term).value;
    if !L2vpnMatches(term, l2vpns[0].0, l2vpns[0].1) {
      assert [] + rest == rest;
    }
  }

  /** A comprehension that does not raise does not raise on its first entry nor on the rest. */
  lemma KeepL2vpnsUncons(l2vpns: seq<(string, Json)>, term: string)
    requires |l2vpns| > 0 && KeepL2vpns(l2vpns, term).Success?
    ensures !L2vpnRaises(term, l2vpns[0].0, l2vpns[0].1) && KeepL2vpns(l2vpns[1..], term).Success?
  {
  }

  /** The comprehension keeps the order: on `a + b` it keeps those of `a`, then those of `b`. */
  lemma {:induction false} KeepL2vpnsAppend(a: seq<(string, Json)>, b: seq<(string, Json)>, term: string)
    requires KeepL2vpns(a + b, term).Success?
    ensures KeepL2vpns(a, term).Success? && KeepL2vpns(b, term).Success?
    ensures KeepL2vpns(a + b, term).value == KeepL2vpns(a, term).value + KeepL2vpns(b, term).value
    decreases |a|
  {
    if |a| == 0 {
      assert a + b == b;
      assert KeepL2vpns(a, term) == Success([]);
      assert [] + KeepL2vpns(b, term).value == KeepL2vpns(b, term).value;
    } else {
      var ab := a + b;
      assert ab[0] == a[0];
      assert ab[1..] == a[1..] + b;
      KeepL2vpnsUncons(ab, term);
      KeepL2vpnsAppend(a[1..], b, term);
      KeepL2vpnsCons(ab, term);
      KeepL2vpnsCons(a, term);
      var head := if L2vpnMatches(term, a[0].0, a[0].1) then [a[0]] else [];
      var tail := KeepL2vpns(a[1..], term).value;
      assert head + (tail + KeepL2vpns(b, term).value) == (head + tail) + KeepL2vpns(b, term).value;
    }
  }
}

/**
 * The controller's command-line entry point, without argparse and printing: turning `--target` into a
 * list of addresses, choosing the handler for `--command`, collecting the handlers' results in the order
 * they complete, and splitting them into successful and failed operations for the summary.
 */
module Cli {
  import opened Common
  import opened Devices
  import opened Controller

  /** The characters Python's `str.isspace` accepts, the ones `str.strip()` removes. */
  predicate IsSpace(c: char) {
    c == ' ' || ('\t' <= c <= '\r') || ('\U{1C}' <= c <= '\U{1F}') || c == '\U{85}' || c == '\U{A0}' ||
    c == '\U{1680}' || ('\U{2000}' <= c <= '\U{200A}') || c == '\U{2028}' || c == '\U{2029}' ||
    c == '\U{202F}' || c == '\U{205F}' || c == '\U{3000}'
  }

  predicate AllSpace(s: string) {
    forall k :: 0 <= k < |s| ==> IsSpace(s[k])
  }

  /** Neither end of `s` is whitespace. */
  predicate Trimmed(s: string) {
    s == [] || (!IsSpace(s[0]) && !IsSpace(s[|s| - 1]))
  }

  /** `s.lstrip()`: the suffix left after dropping the leading whitespace. */
  function TrimStart(s: string): (r: string)
    ensures |r| <= |s| && r == s[|s| - |r|..]
    ensures AllSpace(s[..|s| - |r|])
    ensures r == [] || !IsSpace(r[0])
  {
    if s != [] && IsSpace(s[0]) then
      var r := TrimStart(s[1..]);
      assert s[..|s| - |r|] == [s[0]] + s[1..][..|s| - 1 - |r|];
      r
    else s
  }

  /** `s.rstrip()`: the prefix left after dropping the trailing whitespace. */
  function TrimEnd(s: string): (r: string)
    ensures |r| <= |s| && r == s[..|r|]
    ensures AllSpace(s[|r|..])
    ensures r == [] || !IsSpace(r[|r| - 1])
  {
    if s != [] && IsSpace(s[|s| - 1]) then
      var r := TrimEnd(s[..|s| - 1]);
      assert s[|r|..] == s[..|s| - 1][|r|..] + [s[|s| - 1]];
      r
    else s
  }

  /** `s.strip()` */
  function Strip(s: string): (r: string)
    ensures Trimmed(r)
    ensures |r| <= |s|
  {
    TrimEnd(TrimStart(s))
  }

  lemma {:induction false} TrimStartPadded(pad: string, rest: string)
    requires AllSpace(pad) && (rest == [] || !IsSpace(rest[0]))
    ensures TrimStart(pad + rest) == rest
  {
    if pad != [] {
      assert (pad + rest)[1..] == pad[1..] + rest;
      TrimStartPadded(pad[1..], rest);
    } else {
      assert pad + rest == rest;
    }
  }

  lemma {:induction false} TrimEndPadded(rest: string, pad: string)
    requires AllSpace(pad) && (rest == [] || !IsSpace(rest[|rest| - 1]))
    ensures TrimEnd(rest + pad) == rest
  {
    if pad != [] {
      var n := |pad| - 1;
      assert (rest + pad)[..|rest + pad| - 1] == rest + pad[..n];
      TrimEndPadded(rest, pad[..n]);
    } else {
      assert rest + pad == rest;
    }
  }

  /** `strip()` removes exactly the whitespace around an address and nothing inside it. */
  lemma StripPadded(before: string, s: string, after: string)
    requires AllSpace(before) && AllSpace(after) && Trimmed(s)
    ensures Strip(before + s + after) == s
  {
    if s == [] {
      assert before + s + after == before + after;
      if after == [] {
        assert before + after == before + [];
        TrimStartPadded(before, []);
      } else {
        TrimStartPadded(before + after, []);
        assert before + after + [] == before + after;
        assert AllSpace(before + after);
        assert TrimStart(before + after) == [];
      }
    } else {
      assert before + s + after == before + (s + after);
      TrimStartPadded(before, s + after);
      TrimEndPadded(s, after);
    }
  }

  /** `sep.join(parts)` */
  function Join(parts: seq<string>, sep: char): string {
    if parts == [] then ""
    else if |parts| == 1 then parts[0]
    else parts[0] + [sep] + Join(parts[1..], sep)
  }

  /** `s.split(sep)`: there is always at least one piece, no piece holds the separator, and joining the
      pieces back gives `s`. */
  function Split(s: string, sep: char): (parts: seq<string>)
    ensures |parts| >= 1
    ensures forall i :: 0 <= i < |parts| ==> sep !in parts[i]
    ensures Join(parts, sep) == s
  {
    if s == [] then [""]
    else
      var rest := Split(s[1..], sep);
      if s[0] == sep then
        assert Join([""] + rest, sep) == [sep] + Join(rest, sep);
        [""] + rest
      else
        var parts := [[s[0]] + rest[0]] + rest[1..];
        assert Join(parts, sep) == [s[0]] + Join(rest, sep) by {
          if |rest| > 1 {
            assert rest == [rest[0]] + rest[1..];
            assert parts[1..] == rest[1..];
          }
        }
        parts
  }

  /** Splitting undoes joining pieces that do not contain the separator. */
  lemma {:induction false} SplitJoin(parts: seq<string>, sep: char)
    requires |parts| >= 1
    requires forall i :: 0 <= i < |parts| ==> sep !in parts[i]
    ensures Split(Join(parts, sep), sep) == parts
  {
    if |parts| == 1 {
      SplitPiece(parts[0], sep);
    } else {
      SplitJoin(parts[1..], sep);
      SplitWithSeparator(parts[0], sep, Join(parts[1..], sep));
      assert [parts[0]] + parts[1..] == parts;
    }
  }

  lemma {:induction false} SplitPiece(p: string, sep: char)
    requires sep !in p
    ensures Split(p, sep) == [p]
  {
    if p != [] {
      SplitPiece(p[1..], sep);
      assert [p[0]] + p[1..] == p;
    }
  }

  lemma {:induction false} SplitWithSeparator(p: string, sep: char, tail: string)
    requires sep !in p
    ensures Split(p + [sep] + tail, sep) == [p] + Split(tail, sep)
  {
    if p == [] {
      assert p + [sep] + tail == [sep] + tail;
      assert ([sep] + tail)[1..] == tail;
    } else {
      assert (p + [sep] + tail)[1..] == p[1..] + [sep] + tail;
      SplitWithSeparator(p[1..], sep, tail);
      assert [p[0]] + p[1..] == p;
    }
  }

  /** Stripping adds no character, so a character missing from `s` is missing from `Strip(s)`. */
  lemma StripKeepsOut(s: string, c: char)
    requires c !in s
    ensures c !in Strip(s)
  {
    var t := TrimStart(s);
    assert t == s[|s| - |t|..];
    var r := TrimEnd(t);
    assert r == t[..|r|];
  }

  /** `[ip.strip() for ip in target.split(",")]` */
  function ParseTargetList(target: string): (ips: seq<string>)
    ensures |ips| == |Split(target, ',')| >= 1
    ensures forall i :: 0 <= i < |ips| ==> ',' !in ips[i] && Trimmed(ips[i])
    ensures forall i :: 0 <= i < |ips| ==> ips[i] == Strip(Split(target, ',')[i])
  {
    var parts := Split(target, ',');
    var ips := seq(|parts|, i requires 0 <= i < |parts| => Strip(parts[i]));
    forall i | 0 <= i < |ips|
      ensures ',' !in ips[i]
    {
      StripKeepsOut(parts[i], ',');
    }
    ips
  }

  /** A comma-separated list of clean addresses parses back into the same list. */
  lemma ParseJoinedTargets(ips: seq<string>)
    requires |ips| >= 1
    requires forall i :: 0 <= i < |ips| ==> ',' !in ips[i] && Trimmed(ips[i])
    ensures ParseTargetList(Join(ips, ',')) == ips
  {
    var joined := Join(ips, ',');
    SplitJoin(ips, ',');
    var parts := Split(joined, ',');
    var parsed := ParseTargetList(joined);
    assert |parsed| == |ips|;
    forall i | 0 <= i < |ips|
      ensures parsed[i] == ips[i]
    {
      assert parsed[i] == Strip(parts[i]);
      StripTrimmed(ips[i]);
    }
  }

  /** An address with no surrounding whitespace is left as it is. */
  lemma StripTrimmed(s: string)
    requires Trimmed(s)
    ensures Strip(s) == s
  {
    StripPadded([], s, []);
    assert [] + s + [] == s;
  }

  /** `--target`: "all" means every configured TV, anything else a comma-separated list. */
  method Targets(ctl: TvController, target: string) returns (ips: seq<string>)
    ensures target == "all" ==>
              |ips| == |ctl.tvs.Keys| && (forall ip :: ip in ips <==> ip in ctl.tvs) &&
              forall i, j :: 0 <= i < j < |ips| ==> ips[i] != ips[j]
    ensures target != "all" ==> ips == ParseTargetList(target)
  {
    if target == "all" {
      ips := ctl.AllTvs();
    } else {
      ips := ParseTargetList(target);
    }
  }

  /** Which handler `--command` selects. */
  datatype Plan = PowerOnPlan | PowerOffPlan | GenericPlan(key: string) | UnknownCommand

  /** The two power commands have their own handlers; any other command must map to a non-empty key. */
  function PlanFor(command: string, keys: map<string, Value>): (p: Plan)
    ensures p == PowerOnPlan <==> command == "power-on"
    ensures p == PowerOffPlan <==> command == "power-off"
    ensures p.GenericPlan? ==> command in keys && keys[command] == Str(p.key) && p.key != ""
    ensures p == UnknownCommand <==>
              command != "power-on" && command != "power-off" && !(command in keys && Truthy(keys[command]))
  {
    if command == "power-on" then PowerOnPlan
    else if command == "power-off" then PowerOffPlan
    else if command in keys && Truthy(keys[command]) then GenericPlan(keys[command].s)
    else UnknownCommand
  }

  /** One handler call to run: the `params` built for each target. */
  datatype Job = PowerOnJob(ip: string) | PowerOffJob(ip: string) | GenericJob(ip: string, key: string)

  /** The handler calls for a plan: one per target, or none for an unknown command. */
  function Jobs(plan: Plan, targets: seq<string>): (jobs: seq<Job>)
    ensures plan.UnknownCommand? ==> jobs == []
    ensures !plan.UnknownCommand? ==> |jobs| == |targets|
    ensures forall i :: 0 <= i < |jobs| ==>
              jobs[i].ip == targets[i] &&
              (plan.PowerOnPlan? ==> jobs[i].PowerOnJob?) &&
              (plan.PowerOffPlan? ==> jobs[i].PowerOffJob?) &&
              (plan.GenericPlan? ==> jobs[i] == GenericJob(targets[i], plan.key))
  {
    match plan
    case UnknownCommand => []
    case PowerOnPlan => seq(|targets|, i requires 0 <= i < |targets| => PowerOnJob(targets[i]))
    case PowerOffPlan => seq(|targets|, i requires 0 <= i < |targets| => PowerOffJob(targets[i]))
    case GenericPlan(key) => seq(|targets|, i requires 0 <= i < |targets| => GenericJob(targets[i], key))
  }

  /** What one job contributes to `results`: the handler's dict, or a failure carrying the exception. */
  function ReportFor(job: Job, outcome: Outcome<TvReport>, tvs: Table): TvReport {
    match outcome
    case Returned(report) => report
    case Raised(e) => TvReport(job.ip, TvName(tvs, job.ip), false, e)
  }

  /** `as_completed` yields every future exactly once: `order` lists job positions in completion order. */
  predicate IsCompletionOrder(order: seq<nat>, n: nat) {
    |order| == n && (forall j :: 0 <= j < n ==> order[j] < n) && (forall i :: 0 <= i < n ==> i in order)
  }

  /** The `as_completed` loop: one entry per job, in completion order. */
  method Collect(tvs: Table, jobs: seq<Job>, outcomes: seq<Outcome<TvReport>>, order: seq<nat>)
    returns (results: seq<TvReport>)
    requires |outcomes| == |jobs| && IsCompletionOrder(order, |jobs|)
    ensures |results| == |jobs|
    ensures forall j :: 0 <= j < |results| ==> results[j] == ReportFor(jobs[order[j]], outcomes[order[j]], tvs)
    ensures forall i :: 0 <= i < |jobs| ==> ReportFor(jobs[i], outcomes[i], tvs) in results
  {
    results := [];
    for j := 0 to |order|
      invariant |results| == j
      invariant forall k :: 0 <= k < j ==> results[k] == ReportFor(jobs[order[k]], outcomes[order[k]], tvs)
    {
      var i := order[j];
      var entry: TvReport;
      match outcomes[i] {
        case Returned(report) =>
          entry := report;
        case Raised(e) =>
          entry := TvReport(jobs[i].ip, TvName(tvs, jobs[i].ip), false, e);
      }
      results := results + [entry];
    }
    forall i | 0 <= i < |jobs|
      ensures ReportFor(jobs[i], outcomes[i], tvs) in results
    {
      assert i in order;
      var j :| 0 <= j < |order| && order[j] == i;
      assert results[j] == ReportFor(jobs[i], outcomes[i], tvs);
    }
  }

  /** The reports whose success is `flag`, in the order of `results`: `[r for r in results if r["success"]]`
      for true and `[r for r in results if not r["success"]]` for false. */
  function Filter(results: seq<TvReport>, flag: bool): (kept: seq<TvReport>)
    ensures |kept| <= |results|
    ensures forall r :: r in kept <==> r in results && r.success == flag
  {
    if results == [] then []
    else (if results[0].success == flag then [results[0]] else []) + Filter(results[1..], flag)
  }

  /** Filtering works piece by piece, so each list keeps the relative order of `results`. */
  lemma {:induction false} FilterAppend(a: seq<TvReport>, b: seq<TvReport>, flag: bool)
    ensures Filter(a + b, flag) == Filter(a, flag) + Filter(b, flag)
  {
    if a != [] {
      assert (a + b)[0] == a[0];
      assert (a + b)[1..] == a[1..] + b;
      FilterAppend(a[1..], b, flag);
    } else {
      assert a + b == b;
    }
  }

  /** Every report lands in exactly one of the two lists. */
  lemma {:induction false} FilterSplits(results: seq<TvReport>)
    ensures |Filter(results, true)| + |Filter(results, false)| == |results|
    ensures multiset(Filter(results, true)) + multiset(Filter(results, false)) == multiset(results)
  {
    if results != [] {
      FilterSplits(results[1..]);
      assert results == [results[0]] + results[1..];
    }
  }

  /** The summary's split into successful and failed operations, each kept in the order of `results`. */
  function Partition(results: seq<TvReport>): (p: (seq<TvReport>, seq<TvReport>))
    ensures |p.0| + |p.1| == |results|
    ensures forall r :: r in p.0 <==> r in results && r.success
    ensures forall r :: r in p.1 <==> r in results && !r.success
    ensures multiset(p.0) + multiset(p.1) == multiset(results)
    ensures forall a, b :: results == a + b ==>
              p.0 == Filter(a, true) + Filter(b, true) && p.1 == Filter(a, false) + Filter(b, false)
  {
    FilterSplits(results);
    forall a, b | results == a + b
      ensures Filter(results, true) == Filter(a, true) + Filter(b, true)
      ensures Filter(results, false) == Filter(a, false) + Filter(b, false)
    {
      FilterAppend(a, b, true);
      FilterAppend(a, b, false);
    }
    (Filter(results, true), Filter(results, false))
  }
}

/**
 * Text scraping of command output: picking the GUID of a power plan out of
 * `powercfg /list`, and the adapter names out of the table PowerShell prints for
 * `Get-NetAdapter | ... | Select-Object Name`.
 */
module ScriptOutput {
  import opened Wrappers
  import opened Text

  // ---------------------------------------------------------------- power plan GUID

  predicate IsLowerHex(c: char) {
    '0' <= c <= '9' || 'a' <= c <= 'f'
  }

  predicate IsDashPosition(j: int) {
    j == 8 || j == 13 || j == 18 || j == 23
  }

  /**
   * The pattern `[0-9a-f]{8}-[0-9a-f]{4}-[0-9a-f]{4}-[0-9a-f]{4}-[0-9a-f]{12}`: the
   * textual UUID form of section 3 of RFC 4122, lowercase hexadecimal digits only.
   */
  predicate IsGuid(g: string) {
    |g| == 36 && forall j :: 0 <= j < 36 ==> if IsDashPosition(j) then g[j] == '-' else IsLowerHex(g[j])
  }

  predicate GuidAt(s: string, i: int) {
    0 <= i && i + 36 <= |s| && IsGuid(s[i..i + 36])
  }

  /** The leftmost match of the pattern at or after position `i` (the pattern has a fixed length). */
  function FirstGuidFrom(s: string, i: nat): (r: Option<string>)
    requires i <= |s|
    ensures r.Some? ==> exists k :: (i <= k && GuidAt(s, k) && r.value == s[k..k + 36]
      && forall j :: i <= j < k ==> !GuidAt(s, j))
    ensures r.None? ==> forall j :: i <= j ==> !GuidAt(s, j)
    decreases |s| - i
  {
    if i + 36 > |s| then None
    else if GuidAt(s, i) then Some(s[i..i + 36])
    else FirstGuidFrom(s, i + 1)
  }

  /** `Regex.Match(line, pattern)`: the leftmost match, if any. */
  function FirstGuid(s: string): (r: Option<string>)
    ensures r.Some? ==> IsGuid(r.value)
  {
    FirstGuidFrom(s, 0)
  }

  // ---------------------------------------------------------------- first-match searches

  /** The index of the first element satisfying `p`, if any. */
  function FirstWhere<T>(xs: seq<T>, p: T -> bool): (r: Option<nat>)
    ensures r.Some? ==> r.value < |xs| && p(xs[r.value])
  {
    if xs == [] then None
    else
      var h := FirstWhere(xs[..|xs| - 1], p);
      if h.Some? then h
      else if p(xs[|xs| - 1]) then Some(|xs| - 1)
      else None
  }

  lemma {:induction false} FirstWhereSpec<T>(xs: seq<T>, p: T -> bool)
    ensures FirstWhere(xs, p).None? <==> forall j :: 0 <= j < |xs| ==> !p(xs[j])
    ensures FirstWhere(xs, p).Some? ==> forall j :: 0 <= j < FirstWhere(xs, p).value ==> !p(xs[j])
  {
    if xs != [] {
      var n := |xs| - 1;
      FirstWhereSpec(xs[..n], p);
      assert forall j :: 0 <= j < n ==> xs[..n][j] == xs[j];
    }
  }

  /** One more element after a prefix without a match. */
  lemma FirstWhereStep<T>(xs: seq<T>, i: nat, p: T -> bool)
    requires i < |xs| && FirstWhere(xs[..i], p).None?
    ensures FirstWhere(xs[..i + 1], p) == if p(xs[i]) then Some(i) else None
  {
    assert xs[..i + 1][..i] == xs[..i];
  }

  /** A match in a prefix is the first match of the whole sequence. */
  lemma {:induction false} FirstWherePrefix<T>(xs: seq<T>, k: nat, p: T -> bool)
    requires k <= |xs| && FirstWhere(xs[..k], p).Some?
    ensures FirstWhere(xs, p) == FirstWhere(xs[..k], p)
    decreases |xs| - k
  {
    if k < |xs| {
      var n := |xs| - 1;
      assert xs[..n][..k] == xs[..k];
      FirstWherePrefix(xs[..n], k, p);
    } else {
      assert xs[..k] == xs;
    }
  }

  /** `f` of every element after the first one satisfying `p`, in order. */
  function AfterFirst<T, U>(xs: seq<T>, p: T -> bool, f: T -> U): seq<U> {
    if xs == [] then []
    else
      var prev := xs[..|xs| - 1];
      if FirstWhere(prev, p).Some? then AfterFirst(prev, p, f) + [f(xs[|xs| - 1])] else []
  }

  /** One more element: a match so far carries on, an earlier one keeps the next element. */
  lemma AfterFirstStep<T, U>(xs: seq<T>, i: nat, p: T -> bool, f: T -> U)
    requires i < |xs|
    ensures FirstWhere(xs[..i + 1], p).Some? <==> FirstWhere(xs[..i], p).Some? || p(xs[i])
    ensures AfterFirst(xs[..i + 1], p, f)
         == if FirstWhere(xs[..i], p).Some? then AfterFirst(xs[..i], p, f) + [f(xs[i])] else []
  {
    assert xs[..i + 1][..i] == xs[..i];
  }

  lemma {:induction false} AfterFirstSpec<T, U>(xs: seq<T>, p: T -> bool, f: T -> U)
    ensures FirstWhere(xs, p).None? ==> AfterFirst(xs, p, f) == []
    ensures FirstWhere(xs, p).Some? ==>
      var h := FirstWhere(xs, p).value;
      && |AfterFirst(xs, p, f)| == |xs| - h - 1
      && forall k :: 0 <= k < |AfterFirst(xs, p, f)| ==> AfterFirst(xs, p, f)[k] == f(xs[h + 1 + k])
  {
    if xs != [] {
      var n := |xs| - 1;
      var prev := xs[..n];
      AfterFirstSpec(prev, p, f);
      if FirstWhere(prev, p).Some? {
        var h := FirstWhere(prev, p).value;
        assert FirstWhere(xs, p) == Some(h);
        var r := AfterFirst(xs, p, f);
        assert r == AfterFirst(prev, p, f) + [f(xs[n])];
        forall k | 0 <= k < |r| ensures r[k] == f(xs[h + 1 + k]) {
          if k < |r| - 1 {
            assert r[k] == AfterFirst(prev, p, f)[k];
            assert prev[h + 1 + k] == xs[h + 1 + k];
          }
        }
      }
    }
  }

  // ---------------------------------------------------------------- choosing the plan

  /** A line that names the plan, case-insensitively, and holds a GUID. */
  predicate PlanLine(line: string, plan: string) {
    ContainsIgnoreCase(line, plan) && FirstGuid(line).Some?
  }

  function PlanMatcher(plan: string): string -> bool {
    line => PlanLine(line, plan)
  }

  /** The first GUID on the first line that names the plan and holds a GUID. */
  function PlanGuid(lines: seq<string>, plan: string): Option<string> {
    var k := FirstWhere(lines, PlanMatcher(plan));
    if k.Some? then FirstGuid(lines[k.value]) else None
  }

  /**
   * There is a GUID exactly when some line names the plan and holds one; it is the
   * leftmost GUID of the first such line.
   */
  lemma PlanGuidSpec(lines: seq<string>, plan: string)
    ensures PlanGuid(lines, plan).None? <==> forall j :: 0 <= j < |lines| ==> !PlanLine(lines[j], plan)
    ensures PlanGuid(lines, plan).Some? ==>
      && IsGuid(PlanGuid(lines, plan).value)
      && exists k :: (0 <= k < |lines| && PlanLine(lines[k], plan)
        && PlanGuid(lines, plan) == FirstGuid(lines[k])
        && forall j :: 0 <= j < k ==> !PlanLine(lines[j], plan))
  {
    var p := PlanMatcher(plan);
    FirstWhereSpec(lines, p);
    var k := FirstWhere(lines, p);
    if k.Some? {
      assert PlanLine(lines[k.value], plan);
    } else {
      assert forall j :: 0 <= j < |lines| ==> !p(lines[j]);
    }
  }

  /** The search loop of `SetPowerPlan`: the first line that names the plan and has a GUID wins. */
  method FindPlanGuid(output: string, planName: string) returns (guid: Option<string>)
    ensures guid == PlanGuid(SplitLines(output), planName)
  {
    var lines := SplitLines(output);
    guid := None;
    var i := 0;
    while i < |lines|
      invariant 0 <= i <= |lines|
      invariant FirstWhere(lines[..i], PlanMatcher(planName)).None?
      invariant guid == None
    {
      FirstWhereStep(lines, i, PlanMatcher(planName));
      if ContainsIgnoreCase(lines[i], planName) {
        var m := FirstGuid(lines[i]);
        if m.Some? {
          guid := m;
          FirstWherePrefix(lines, i + 1, PlanMatcher(planName));
          break;
        }
      }
      i := i + 1;
    }
    assert guid.None? ==> lines[..i] == lines;
  }

  // ---------------------------------------------------------------- adapter names

  /** The column header of the table. */
  predicate IsHeader(line: string) {
    StartsWith(Trim(line), "Name")
  }

  /** The index of the first header line, if any. */
  function HeaderIndex(lines: seq<string>): Option<nat> {
    FirstWhere(lines, IsHeader)
  }

  /** Every line after the first header, trimmed, in order. */
  function AdapterNames(lines: seq<string>): seq<string> {
    AfterFirst(lines, IsHeader, Trim)
  }

  /** The header is the first line whose trimmed text starts with "Name". */
  lemma HeaderIndexSpec(lines: seq<string>)
    ensures HeaderIndex(lines).None? <==> forall j :: 0 <= j < |lines| ==> !IsHeader(lines[j])
    ensures HeaderIndex(lines).Some? ==>
      && HeaderIndex(lines).value < |lines| && IsHeader(lines[HeaderIndex(lines).value])
      && forall j :: 0 <= j < HeaderIndex(lines).value ==> !IsHeader(lines[j])
  {
    FirstWhereSpec(lines, IsHeader);
  }

  /**
   * With no header line there are no adapters; otherwise the adapters are the
   * lines after the header, each trimmed, and the header itself is not one.
   */
  lemma AdapterNamesSpec(lines: seq<string>)
    ensures HeaderIndex(lines).None? ==> AdapterNames(lines) == []
    ensures HeaderIndex(lines).Some? ==>
      var h := HeaderIndex(lines).value;
      && |AdapterNames(lines)| == |lines| - h - 1
      && forall k :: 0 <= k < |AdapterNames(lines)| ==> AdapterNames(lines)[k] == Trim(lines[h + 1 + k])
  {
    AfterFirstSpec(lines, IsHeader, Trim);
  }

  /** The parsing loop of `OptimizeNetworkAdapters`, with its `headerPassed` flag. */
  method ParseAdapterNames(output: string) returns (adapterNames: seq<string>)
    ensures adapterNames == AdapterNames(SplitLines(output))
  {
    var lines := SplitLines(output);
    adapterNames := [];
    var headerPassed := false;
    var i := 0;
    while i < |lines|
      invariant 0 <= i <= |lines|
      invariant headerPassed <==> FirstWhere(lines[..i], IsHeader).Some?
      invariant adapterNames == AfterFirst(lines[..i], IsHeader, Trim)
    {
      AfterFirstStep(lines, i, IsHeader, Trim);
      if !headerPassed {
        headerPassed := StartsWith(Trim(lines[i]), "Name");
      } else {
        adapterNames := adapterNames + [Trim(lines[i])];
      }
      i := i + 1;
    }
    assert lines[..i] == lines;
  }
}

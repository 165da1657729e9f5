/** Resolving directives: numeric clamping, the skip list, and the filter it feeds. */
module Config {
  import opened Wrappers
  import opened Numerals
  import opened Text
  import opened TraceModel
  import Pipeline
  import PipelineBudget
  import PipelineCap

  // --- Numeric directives ----------------------------------------------------------

  datatype Warning = OutOfRange(directive: string, value: Int64, clampedTo: Int64)

  predicate InRange(raw: Option<Int64>, lo: int, hi: int) { raw.Some? ==> lo <= raw.value <= hi }

  function Or(raw: Option<Int64>, default: Int64): Int64 { if raw.Some? then raw.value else default }

  function Warned(wanted: Int64, lo: int, hi: int, directive: string, value: Int64): seq<Warning> {
    if lo <= wanted <= hi then [] else [OutOfRange(directive, wanted, value)]
  }

  /** `clamp_directive`: the allowed value nearest to the one asked for, with one
      warning when they differ. */
  method ClampDirective(raw: Option<Int64>, default: Int64, lo: Int64, hi: Int64, directive: string,
                        warnings: seq<Warning>)
    returns (value: Int64, warnings': seq<Warning>)
    ensures lo <= hi ==> lo <= value <= hi
    ensures lo <= Or(raw, default) <= hi ==> value == Or(raw, default)
    ensures Or(raw, default) < lo ==> value == lo
    ensures lo <= Or(raw, default) && Or(raw, default) > hi ==> value == hi
    ensures warnings' == warnings + Warned(Or(raw, default), lo, hi, directive, value)
    ensures lo <= hi ==> Nearest(raw, default, lo, hi, value)
    ensures lo <= default <= hi ==> warnings' == warnings + Moved(directive, raw, value)
    ensures lo <= default <= hi ==> (warnings' == [] <==> warnings == [] && InRange(raw, lo, hi))
    ensures lo <= default <= hi && InRange(raw, lo, hi) ==> value == Or(raw, default)
  {
    value := if raw.Some? then raw.value else default;
    warnings' := warnings;
    if value < lo {
      warnings' := warnings' + [OutOfRange(directive, value, lo)];
      value := lo;
    } else if value > hi {
      warnings' := warnings' + [OutOfRange(directive, value, hi)];
      value := hi;
    }
  }

  datatype RawNumbers = RawNumbers(
    enabled: Option<bool>, flushRecords: Option<Int64>, flushBytes: Option<Int64>, bufferCap: Option<Int64>,
    maxDepth: Option<Int64>, retryCount: Option<Int64>, retryBackoffMs: Option<Int64>, httpTimeoutMs: Option<Int64>,
    shutdownGraceMs: Option<Int64>, queueDepth: Option<Int64>)

  datatype Numbers = Numbers(
    flushRecords: Int64, flushBytes: Int64, bufferCap: Int64, maxDepth: Int64, retryCount: Int64,
    retryBackoffMs: Int64, httpTimeoutMs: Int64, shutdownGraceMs: Int64, queueDepth: Int64)

  const DEFAULTS := Numbers(10_000, 1_048_576, 67_108_864, 1024, 3, 100, 2_000, 5_000, 8)

  /** What every resolved configuration meets; the cap is never below the flush threshold. */
  predicate InBounds(n: Numbers) {
    && 1 <= n.flushRecords <= 1_000_000_000 && 1024 <= n.flushBytes <= 1_000_000_000
    && n.flushBytes <= n.bufferCap <= 10_000_000_000 && 1 <= n.maxDepth <= 65_535
    && 0 <= n.retryCount <= 10 && 1 <= n.retryBackoffMs <= 60_000 && 100 <= n.httpTimeoutMs <= 60_000
    && 0 <= n.shutdownGraceMs <= 60_000 && 1 <= n.queueDepth <= 1024
  }

  /** Every directive set lies in its own range, the cap at or above the flush
      threshold in force. */
  predicate AllInRange(raw: RawNumbers) {
    && InRange(raw.flushRecords, 1, 1_000_000_000) && InRange(raw.flushBytes, 1024, 1_000_000_000)
    && InRange(raw.bufferCap, Max(1024, Or(raw.flushBytes, DEFAULTS.flushBytes)), 10_000_000_000)
    && InRange(raw.maxDepth, 1, 65_535) && InRange(raw.retryCount, 0, 10) && InRange(raw.retryBackoffMs, 1, 60_000)
    && InRange(raw.httpTimeoutMs, 100, 60_000) && InRange(raw.shutdownGraceMs, 0, 60_000)
    && InRange(raw.queueDepth, 1, 1024)
  }

  /** Every number is the value allowed that is nearest to the one asked for, and the
      warnings name the directives that were out of range, in the order of the fields. */
  predicate Resolves(raw: RawNumbers, n: Numbers, warnings: seq<Warning>) {
    && Nearest(raw.flushRecords, DEFAULTS.flushRecords, 1, 1_000_000_000, n.flushRecords)
    && Nearest(raw.flushBytes, DEFAULTS.flushBytes, 1024, 1_000_000_000, n.flushBytes)
    && Nearest(raw.bufferCap, Max(DEFAULTS.bufferCap, n.flushBytes), n.flushBytes, 10_000_000_000, n.bufferCap)
    && Nearest(raw.maxDepth, DEFAULTS.maxDepth, 1, 65_535, n.maxDepth)
    && Nearest(raw.retryCount, DEFAULTS.retryCount, 0, 10, n.retryCount)
    && Nearest(raw.retryBackoffMs, DEFAULTS.retryBackoffMs, 1, 60_000, n.retryBackoffMs)
    && Nearest(raw.httpTimeoutMs, DEFAULTS.httpTimeoutMs, 100, 60_000, n.httpTimeoutMs)
    && Nearest(raw.shutdownGraceMs, DEFAULTS.shutdownGraceMs, 0, 60_000, n.shutdownGraceMs)
    && Nearest(raw.queueDepth, DEFAULTS.queueDepth, 1, 1024, n.queueDepth)
    && warnings ==
       Moved("flush_records", raw.flushRecords, n.flushRecords) + Moved("flush_bytes", raw.flushBytes, n.flushBytes)
       + Moved("buffer_cap_bytes", raw.bufferCap, n.bufferCap) + Moved("max_depth", raw.maxDepth, n.maxDepth)
       + Moved("retry_count", raw.retryCount, n.retryCount)
       + Moved("retry_backoff_ms", raw.retryBackoffMs, n.retryBackoffMs)
       + Moved("http_timeout_ms", raw.httpTimeoutMs, n.httpTimeoutMs)
       + Moved("shutdown_grace_ms", raw.shutdownGraceMs, n.shutdownGraceMs)
       + Moved("shipper_queue_depth", raw.queueDepth, n.queueDepth)
  }

  /** The allowed value nearest to the one given, or to the default. */
  predicate Nearest(raw: Option<Int64>, default: Int64, lo: int, hi: int, value: Int64) {
    var wanted := Or(raw, default);
    lo <= value <= hi && forall other :: lo <= other <= hi ==> Distance(wanted, value) <= Distance(wanted, other)
  }

  function Distance(a: int, b: int): nat { if a <= b then b - a else a - b }

  /** One warning for a directive given and not kept. */
  function Moved(directive: string, raw: Option<Int64>, value: Int64): seq<Warning> {
    if raw.Some? && raw.value != value then [OutOfRange(directive, raw.value, value)] else []
  }

  /** The numeric half of `from_ini_values`. */
  method FromIniValues(raw: RawNumbers) returns (n: Numbers, warnings: seq<Warning>)
    ensures InBounds(n)
    ensures raw.enabled == Some(false) ==> n == DEFAULTS && warnings == []
    ensures raw.enabled != Some(false) ==> Resolves(raw, n, warnings) && (warnings == [] <==> AllInRange(raw))
    ensures raw.enabled != Some(false) && AllInRange(raw) ==>
      && n.flushRecords == Or(raw.flushRecords, DEFAULTS.flushRecords)
      && n.flushBytes == Or(raw.flushBytes, DEFAULTS.flushBytes)
      && n.bufferCap == Or(raw.bufferCap, Max(DEFAULTS.bufferCap, n.flushBytes))
      && n.maxDepth == Or(raw.maxDepth, DEFAULTS.maxDepth)
      && n.retryCount == Or(raw.retryCount, DEFAULTS.retryCount)
      && n.retryBackoffMs == Or(raw.retryBackoffMs, DEFAULTS.retryBackoffMs)
      && n.httpTimeoutMs == Or(raw.httpTimeoutMs, DEFAULTS.httpTimeoutMs)
      && n.shutdownGraceMs == Or(raw.shutdownGraceMs, DEFAULTS.shutdownGraceMs)
      && n.queueDepth == Or(raw.queueDepth, DEFAULTS.queueDepth)
  {
    hide InRange, Warned, Nearest, Moved;
    warnings := [];
    if raw.enabled == Some(false) {
      return DEFAULTS, [];
    }
    var flushRecords, flushBytes, bufferCap, maxDepth, retryCount, backoff, timeout, grace, depth;
    flushRecords, warnings := ClampDirective(raw.flushRecords, 10_000, 1, 1_000_000_000, "flush_records", warnings);
    flushBytes, warnings := ClampDirective(raw.flushBytes, 1_048_576, 1024, 1_000_000_000, "flush_bytes", warnings);
    var lower := Max(1024, flushBytes);
    bufferCap, warnings :=
      ClampDirective(raw.bufferCap, Max(67_108_864, flushBytes), lower, 10_000_000_000, "buffer_cap_bytes", warnings);
    maxDepth, warnings := ClampDirective(raw.maxDepth, 1024, 1, 65_535, "max_depth", warnings);
    retryCount, warnings := ClampDirective(raw.retryCount, 3, 0, 10, "retry_count", warnings);
    backoff, warnings := ClampDirective(raw.retryBackoffMs, 100, 1, 60_000, "retry_backoff_ms", warnings);
    timeout, warnings := ClampDirective(raw.httpTimeoutMs, 2_000, 100, 60_000, "http_timeout_ms", warnings);
    grace, warnings := ClampDirective(raw.shutdownGraceMs, 5_000, 0, 60_000, "shutdown_grace_ms", warnings);
    depth, warnings := ClampDirective(raw.queueDepth, 8, 1, 1024, "shipper_queue_depth", warnings);
    n := Numbers(flushRecords, flushBytes, bufferCap, maxDepth, retryCount, backoff, timeout, grace, depth);
  }

  /** `TraceLimits::from(&Config)`: the casts lose nothing and the limits are those
      the recorder's theorems ask for. */
  function LimitsOf(n: Numbers): (l: TraceLimits)
    requires InBounds(n)
    ensures 1 <= l.maxDepth && l.maxDepth == n.maxDepth
    ensures l.bufferCap == n.bufferCap && l.flushRecords == n.flushRecords && l.flushBytes == n.flushBytes
    ensures 1 <= l.flushRecords && l.flushBytes <= l.bufferCap <= 10_000_000_000 < U64_MAX
  {
    TraceLimits(n.maxDepth, n.bufferCap, n.flushRecords, n.flushBytes)
  }

  /** Whatever the directives say, a process runs within the overshoot bound of
      the cap they resolve to. */
  lemma ResolvedCapBound(n: Numbers, actions: seq<Pipeline.Action>, s: Pipeline.Sys)
    requires InBounds(n)
    requires s == Pipeline.Execute(Pipeline.InitSys(LimitsOf(n), n.queueDepth), actions)
    requires PipelineCap.NeverSaturates(Pipeline.InitSys(LimitsOf(n), n.queueDepth), actions)
    ensures 0 <= s.budget + CALL_RECORD_FIXED_BYTES * PipelineCap.OpenFrames(s)
        <= n.bufferCap + CALL_RECORD_FIXED_BYTES * (n.maxDepth - 1) < U64_MAX
  {
    hide Pipeline.Execute, Pipeline.InitSys, PipelineCap.NeverSaturates;
    PipelineCap.CapOvershootBounded(LimitsOf(n), n.queueDepth, actions, s);
    PipelineBudget.BudgetConserved(LimitsOf(n), n.queueDepth, actions, Pipeline.ActTimeout);
  }

  // --- The skip list ---------------------------------------------------------------

  const TYPES_1: seq<string> :=
    ["is_array", "is_bool", "is_callable", "is_countable", "is_float", "is_int", "is_integer"]
  const TYPES_2: seq<string> :=
    ["is_iterable", "is_long", "is_null", "is_numeric", "is_object", "is_scalar", "is_string"]
  const INTROSPECTION_1: seq<string> := ["gettype", "get_class", "get_called_class"]
  const INTROSPECTION_2: seq<string> := ["get_parent_class", "function_exists", "method_exists"]
  const INTROSPECTION_3: seq<string> := ["property_exists", "defined", "spl_object_id", "spl_object_hash"]
  const LENGTHS_1: seq<string> := ["strlen", "count", "sizeof", "array_key_exists"]
  const LENGTHS_2: seq<string> := ["key_exists", "key", "current"]
  const CONVERSIONS: seq<string> := ["intval", "floatval", "doubleval", "strval", "boolval"]
  const MATH: seq<string> := ["abs", "floor", "ceil", "round", "intdiv"]

  /** `DEFAULT_SKIP_FUNCTIONS`. */
  const DEFAULT_SKIP_FUNCTIONS: seq<string> :=
    TYPES_1 + TYPES_2 + INTROSPECTION_1 + INTROSPECTION_2
    + INTROSPECTION_3 + LENGTHS_1 + LENGTHS_2 + CONVERSIONS + MATH

  function LowerChar(c: char): char { if 'A' <= c <= 'Z' then c - 'A' + 'a' else c }

  /** `to_ascii_lowercase`. */
  function Lower(s: string): (t: string)
    ensures |t| == |s| && forall i :: 0 <= i < |s| ==> t[i] == LowerChar(s[i])
  {
    if s == "" then "" else [LowerChar(s[0])] + Lower(s[1..])
  }

  /** Trim each piece, drop the empty ones, lower the rest. */
  function Collected(pieces: seq<string>): set<string> {
    if pieces == [] then {}
    else
      var name := Trim(pieces[0]);
      (if name == "" then {} else {Lower(name)}) + Collected(pieces[1..])
  }

  function SetOf(names: seq<string>): set<string> { set i | 0 <= i < |names| :: names[i] }

  /** `parse_skip_functions`. */
  function ParseSkipFunctions(raw: Option<string>): set<string> {
    var parsed := if raw.Some? then Collected(Split(raw.value, ',')) else {};
    if parsed == {} then SetOf(DEFAULT_SKIP_FUNCTIONS) else parsed
  }

  /** A name the skip list can hold. */
  predicate WellFormed(name: string) {
    name != "" && Trimmed(name) && ',' !in name && Lower(name) == name
  }

  ghost predicate AllWellFormed(names: set<string>) { forall name :: name in names ==> WellFormed(name) }

  /** Exactly the non-empty entries, trimmed and lowered. */
  lemma {:induction false} CollectedIff(pieces: seq<string>, name: string)
    ensures name in Collected(pieces) <==> exists p :: p in pieces && Trim(p) != "" && Lower(Trim(p)) == name
  {
    if pieces != [] {
      CollectedIff(pieces[1..], name);
      assert pieces == [pieces[0]] + pieces[1..];
    }
  }

  lemma LowerTwice(s: string)
    ensures Lower(Lower(s)) == Lower(s)
  {
  }

  lemma LowerTrimmed(s: string)
    ensures Trimmed(Lower(s)) <==> Trimmed(s)
  {
  }

  lemma LowerKeepsCommaFree(s: string)
    requires ',' !in s
    ensures ',' !in Lower(s)
  {
  }

  lemma PieceWellFormed(p: string)
    requires ',' !in p && Trim(p) != ""
    ensures WellFormed(Lower(Trim(p)))
  {
    hide Trim, Trimmed, Lower;
    TrimFacts(p);
    LowerTrimmed(Trim(p));
    LowerTwice(Trim(p));
    LowerKeepsCommaFree(Trim(p));
  }

  /** Letters and underscores only. */
  predicate Plain(name: string) {
    name != "" && forall i :: 0 <= i < |name| ==> 'a' <= name[i] <= 'z' || name[i] == '_'
  }

  predicate AllPlain(names: seq<string>) { forall i :: 0 <= i < |names| ==> Plain(names[i]) }

  lemma PlainWellFormed(name: string)
    requires Plain(name)
    ensures WellFormed(name)
  {
  }

  lemma Types1Plain()
    ensures AllPlain(TYPES_1)
  {
  }

  lemma Types2Plain()
    ensures AllPlain(TYPES_2)
  {
  }

  lemma Introspection1Plain()
    ensures AllPlain(INTROSPECTION_1)
  {
  }

  lemma Introspection2Plain()
    ensures AllPlain(INTROSPECTION_2)
  {
  }

  lemma Introspection3Plain()
    ensures AllPlain(INTROSPECTION_3)
  {
  }

  lemma Lengths1Plain()
    ensures AllPlain(LENGTHS_1)
  {
  }

  lemma Lengths2Plain()
    ensures AllPlain(LENGTHS_2)
  {
  }

  lemma ConversionsPlain()
    ensures AllPlain(CONVERSIONS)
  {
  }

  lemma MathPlain()
    ensures AllPlain(MATH)
  {
  }

  lemma DefaultsWellFormed()
    ensures AllWellFormed(SetOf(DEFAULT_SKIP_FUNCTIONS)) && SetOf(DEFAULT_SKIP_FUNCTIONS) != {}
  {
    Types1Plain();
    Types2Plain();
    Introspection1Plain();
    Introspection2Plain();
    Introspection3Plain();
    Lengths1Plain();
    Lengths2Plain();
    ConversionsPlain();
    MathPlain();
    hide Plain, WellFormed;
    var names := DEFAULT_SKIP_FUNCTIONS;
    assert names[0] in SetOf(names);
    forall name | name in SetOf(names) ensures WellFormed(name) {
      assert Plain(name);
      PlainWellFormed(name);
    }
  }

  /** Whatever the directive says, the resolved set is non-empty and holds only
      trimmed, lowercase, comma-free names. */
  lemma ParsedWellFormed(raw: Option<string>, names: set<string>)
    requires names == ParseSkipFunctions(raw)
    ensures names != {} && AllWellFormed(names)
  {
    DefaultsWellFormed();
    if raw.Some? {
      var pieces := Split(raw.value, ',');
      SplitPiecesAvoid(raw.value, ',');
      forall name | name in Collected(pieces) ensures WellFormed(name) {
        CollectedIff(pieces, name);
        var p :| p in pieces && Trim(p) != "" && Lower(Trim(p)) == name;
        PieceWellFormed(p);
      }
    }
  }

  // --- The printed row ---------------------------------------------------------------

  /** `skip_names.join(", ")`. */
  function Row(names: seq<string>): string { Join(names, ", ") }

  /** After the first, a piece of the row is a name behind one space. */
  function Spaced(names: seq<string>): seq<string> { seq(|names|, i requires 0 <= i < |names| => " " + names[i]) }

  /** The row after its first name. */
  function Rest(names: seq<string>, sep: string): string { Join([""] + names, sep) }

  lemma RestStep(names: seq<string>, sep: string)
    requires names != []
    ensures Rest(names, sep) == sep + (names[0] + Rest(names[1..], sep))
  {
    JoinHead("", names, sep);
    JoinHead(names[0], names[1..], sep);
    assert [names[0]] + names[1..] == names;
    assert "" + (sep + Join(names, sep)) == sep + Join(names, sep);
  }

  lemma JoinHead(head: string, rest: seq<string>, sep: string)
    ensures Join([head] + rest, sep) == head + Rest(rest, sep)
    ensures rest != [] ==> Join([head] + rest, sep) == head + (sep + Join(rest, sep))
  {
  }

  lemma {:induction false} SplitRow(first: string, rest: seq<string>)
    requires ',' !in first && forall i :: 0 <= i < |rest| ==> ',' !in rest[i]
    ensures Split(first + Rest(rest, ", "), ',') == [first] + Spaced(rest)
    decreases |rest|
  {
    hide Split, IndexOf, Join;
    if rest == [] {
      assert Rest(rest, ", ") == "" by {
        RestEmpty(rest);
      }
      assert first + "" == first;
      NoSplit(first, ',');
    } else {
      hide Rest;
      var (next, more) := (" " + rest[0], rest[1..]);
      RestStep(rest, ", ");
      assert ", " == [','] + " ";
      assert first + Rest(rest, ", ") == first + [','] + (next + Rest(more, ", "));
      SplitRow(next, more);
      SplitStep(first, ',', next + Rest(more, ", "));
      assert Spaced(rest) == [next] + Spaced(more);
    }
  }

  lemma RestEmpty(rest: seq<string>)
    requires rest == []
    ensures Rest(rest, ", ") == ""
  {
  }

  lemma NoSplit(s: string, c: char)
    requires c !in s
    ensures Split(s, c) == [s]
  {
  }

  lemma TrimSpaced(name: string)
    requires Trimmed(name)
    ensures Trim(" " + name) == name && Trim(name) == name
  {
    TrimFacts(name);
    assert (" " + name)[1..] == name;
    assert TrimStart(" " + name) == TrimStart(name);
  }

  /** Re-parsing the row gives back the set it was printed from exactly when the
      set is non-empty and well-formed, in whatever order its names are listed.
      (The empty set, which only a disabled configuration has, reads back as the
      defaults.) */
  lemma RowRoundTripIff(names: seq<string>)
    ensures ParseSkipFunctions(Some(Row(names))) == SetOf(names) <==> names != [] && AllWellFormed(SetOf(names))
  {
    ParsedWellFormed(Some(Row(names)), ParseSkipFunctions(Some(Row(names))));
    if names != [] && AllWellFormed(SetOf(names)) {
      RowComesBack(names);
    } else if names == [] {
      assert SetOf(names) == {};
    }
  }

  lemma RowComesBack(names: seq<string>)
    requires names != [] && AllWellFormed(SetOf(names))
    ensures ParseSkipFunctions(Some(Row(names))) == SetOf(names)
  {
    hide Trim, Trimmed, Split, Lower;
    forall i | 0 <= i < |names| ensures WellFormed(names[i]) {
      assert names[i] in SetOf(names);
    }
    var pieces := [names[0]] + Spaced(names[1..]);
    assert names == [names[0]] + names[1..];
    JoinHead(names[0], names[1..], ", ");
    SplitRow(names[0], names[1..]);
    forall i | 0 <= i < |names| ensures Trim(pieces[i]) == names[i] {
      TrimSpaced(names[i]);
    }
    forall name ensures name in Collected(pieces) <==> name in SetOf(names) {
      CollectedIff(pieces, name);
      if name in SetOf(names) {
        var i :| 0 <= i < |names| && names[i] == name;
        assert pieces[i] in pieces;
      }
    }
    assert Collected(pieces) == SetOf(names);
    assert names[0] in SetOf(names);
  }

  /** Lexicographic order, as `sort_unstable` on strings. */
  predicate Less(a: string, b: string) {
    b != "" && (a == "" || a[0] < b[0] || (a[0] == b[0] && Less(a[1..], b[1..])))
  }

  ghost predicate Sorted(names: seq<string>) {
    forall i, j :: 0 <= i < j < |names| ==> Less(names[i], names[j])
  }

  lemma {:induction false} LessOrder(a: string, b: string)
    ensures !(Less(a, b) && Less(b, a)) && !Less(a, a)
  {
    if a != "" {
      LessOrder(a[1..], if b == "" then "" else b[1..]);
    }
  }

  /** The row does not depend on the order the set was iterated in: a set has one
      sorted listing. */
  lemma {:induction false} SortedListingUnique(a: seq<string>, b: seq<string>)
    requires Sorted(a) && Sorted(b) && SetOf(a) == SetOf(b)
    ensures a == b && Row(a) == Row(b)
    decreases |a|
  {
    hide Less;
    NonEmptySet(b);
    if a == [] {
      assert SetOf(a) == {};
    } else {
      assert a[0] in SetOf(a);
      var k :| 0 <= k < |b| && b[k] == a[0];
      assert b[0] in SetOf(b);
      var m :| 0 <= m < |a| && a[m] == b[0];
      LessOrder(a[0], b[0]);
      assert a[0] == b[0];
      SameTail(a, b);
      SortedListingUnique(a[1..], b[1..]);
      assert a == [a[0]] + a[1..] && b == [b[0]] + b[1..];
    }
  }

  lemma NonEmptySet(names: seq<string>)
    ensures SetOf(names) == {} <==> names == []
  {
    if names != [] {
      assert names[0] in SetOf(names);
    }
  }

  lemma SameTail(a: seq<string>, b: seq<string>)
    requires a != [] && b != [] && Sorted(a) && Sorted(b) && SetOf(a) == SetOf(b) && a[0] == b[0]
    ensures SetOf(a[1..]) == SetOf(b[1..])
  {
    TailSet(a);
    TailSet(b);
  }

  lemma TailSet(a: seq<string>)
    requires a != [] && Sorted(a)
    ensures SetOf(a[1..]) == SetOf(a) - {a[0]}
  {
    hide Less;
    forall i | 1 <= i < |a| ensures a[i] != a[0] {
      LessOrder(a[0], a[i]);
    }
    forall name | name in SetOf(a) && name != a[0] ensures name in SetOf(a[1..]) {
      var i :| 0 <= i < |a| && a[i] == name;
      assert a[1..][i - 1] == name;
    }
    forall name | name in SetOf(a[1..]) ensures name in SetOf(a) && name != a[0] {
      var i :| 0 <= i < |a[1..]| && a[1..][i] == name;
      assert a[i + 1] == name;
    }
  }

  // --- The filter --------------------------------------------------------------------

  datatype CallInfo = CallInfo(functionName: Option<string>, className: Option<string>, isInternal: bool)

  function SkipKey(name: string, className: Option<string>): string {
    if className.Some? then Lower(className.value) + "::" + Lower(name) else Lower(name)
  }

  /** `should_observe_filter`. */
  predicate ShouldObserve(skipInternal: bool, skip: set<string>, info: CallInfo) {
    if skipInternal && info.isInternal then false
    else if info.functionName.None? then true
    else SkipKey(info.functionName.value, info.className) !in skip
  }

  /** The same but for the case of ASCII letters, which are 32 apart. */
  predicate SameLetter(a: char, b: char) {
    || a == b
    || ('A' <= a <= 'Z' && b as int == a as int + 32)
    || ('A' <= b <= 'Z' && a as int == b as int + 32)
  }

  predicate SameButCase(a: string, b: string) {
    |a| == |b| && forall i :: 0 <= i < |a| ==> SameLetter(a[i], b[i])
  }

  lemma LowerCharIff(a: char, b: char)
    ensures LowerChar(a) == LowerChar(b) <==> SameLetter(a, b)
  {
  }

  /** Two names fold to one exactly when they differ in letter case only. */
  lemma LowerIff(a: string, b: string)
    ensures Lower(a) == Lower(b) <==> SameButCase(a, b)
  {
    hide LowerChar, SameLetter;
    if Lower(a) == Lower(b) {
      forall i | 0 <= i < |a| ensures SameLetter(a[i], b[i]) {
        assert Lower(a)[i] == Lower(b)[i];
        LowerCharIff(a[i], b[i]);
      }
    }
    if SameButCase(a, b) {
      forall i | 0 <= i < |a| ensures Lower(a)[i] == Lower(b)[i] {
        LowerCharIff(a[i], b[i]);
      }
    }
  }

  /** `class::name`, or the bare name. */
  function CalledName(info: CallInfo): string
    requires info.functionName.Some?
  {
    if info.className.Some? then info.className.value + "::" + info.functionName.value else info.functionName.value
  }

  lemma KeyIsLowered(info: CallInfo)
    requires info.functionName.Some?
    ensures SkipKey(info.functionName.value, info.className) == Lower(CalledName(info))
  {
    assert LowerChar(':') == ':';
    hide LowerChar;
  }

  /** Some entry of the directive is `name` in some letter case. */
  ghost predicate Lists(raw: string, name: string) {
    exists p :: p in Split(raw, ',') && Trim(p) != "" && SameButCase(Trim(p), name)
  }

  ghost predicate ListsAny(raw: Option<string>) {
    raw.Some? && exists p :: p in Split(raw.value, ',') && Trim(p) != ""
  }

  ghost predicate DefaultLists(name: string) { exists d :: d in DEFAULT_SKIP_FUNCTIONS && SameButCase(d, name) }

  /** From directives to filter: a call is skipped exactly when it is internal and
      internals are skipped, or has a name that some entry gives, in any letter
      case, or, with no entry set, one of the default names. */
  lemma SkipListTakesEffect(skipInternal: bool, raw: Option<string>, info: CallInfo)
    ensures !ShouldObserve(skipInternal, ParseSkipFunctions(raw), info) <==>
      || (skipInternal && info.isInternal)
      || (info.functionName.Some? &&
          if ListsAny(raw) then Lists(raw.value, CalledName(info)) else DefaultLists(CalledName(info)))
  {
    hide Trim, Lower, Split, SkipKey, CalledName, Lists, DefaultLists, DEFAULT_SKIP_FUNCTIONS;
    if raw.Some? {
      ParsedEntriesIff(raw.value);
    }
    if info.functionName.Some? {
      KeyIsLowered(info);
      DefaultsIff(CalledName(info));
      if raw.Some? {
        ListsIff(raw.value, CalledName(info));
      }
    }
  }

  lemma ListsIff(raw: string, name: string)
    ensures Lower(name) in Collected(Split(raw, ',')) <==> Lists(raw, name)
  {
    hide Trim, Lower, Split, SameButCase;
    CollectedIff(Split(raw, ','), Lower(name));
    forall p: string ensures Lower(Trim(p)) == Lower(name) <==> SameButCase(Trim(p), name) {
      LowerIff(Trim(p), name);
    }
  }

  lemma SetOfIff(names: seq<string>, name: string)
    ensures name in SetOf(names) <==> name in names
  {
    if name in names {
      var i :| 0 <= i < |names| && names[i] == name;
    }
  }

  lemma DefaultsIff(name: string)
    ensures Lower(name) in SetOf(DEFAULT_SKIP_FUNCTIONS) <==> DefaultLists(name)
  {
    hide Lower, SameButCase, DEFAULT_SKIP_FUNCTIONS;
    DefaultsWellFormed();
    forall d | d in DEFAULT_SKIP_FUNCTIONS ensures d == Lower(name) <==> SameButCase(d, name) {
      assert d in SetOf(DEFAULT_SKIP_FUNCTIONS);
      assert WellFormed(d);
      LowerIff(d, name);
    }
    SetOfIff(DEFAULT_SKIP_FUNCTIONS, Lower(name));
  }

  lemma ParsedEntriesIff(raw: string)
    ensures Collected(Split(raw, ',')) == {} <==> !ListsAny(Some(raw))
  {
    hide Trim, Lower, Split;
    var pieces := Split(raw, ',');
    if ListsAny(Some(raw)) {
      var q :| q in pieces && Trim(q) != "";
      CollectedIff(pieces, Lower(Trim(q)));
    }
    if Collected(pieces) != {} {
      var name :| name in Collected(pieces);
      CollectedIff(pieces, name);
    }
  }
}

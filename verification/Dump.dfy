/** The diagnostic dump: the lines it writes and the parser that reads them back. */
module Dump {
  import opened Wrappers
  import opened Numerals
  import opened Text
  import opened FunctionKeys
  import opened Dictionaries
  import opened TraceModel

  datatype ParsedFlush = ParsedFlush(recordCount: nat, estimatedBytes: nat, trigger: string)

  datatype ParsedDict = ParsedDict(fnId: nat, kind: string, line: nat, fqn: string, file: string)

  datatype ParsedDump = ParsedDump(
    dict: seq<ParsedDict>, calls: seq<CallRecord>, droppedRecords: Option<nat>, markerSeen: bool,
    flushes: seq<ParsedFlush>)

  const NOTHING := ParsedDump([], [], None, false, [])

  // --- Writing -------------------------------------------------------------------

  /** One line of the file. */
  datatype Item =
    | FlushItem(recordCount: nat, estimatedBytes: nat, trigger: FlushTrigger)
    | DictItem(entry: DictEntry)
    | CallItem(record: CallRecord)
    | DropItem(droppedRecords: nat)
    | MarkerItem(traceId: seq<nat>)

  function TriggerName(t: FlushTrigger): string {
    match t
    case ByRecords => "records"
    case ByBytes => "bytes"
    case AtShutdown => "rshutdown"
  }

  function KindName(k: FunctionKind): string {
    match k
    case UserFunction => "function"
    case MethodKind => "method"
    case ClosureKind => "closure"
    case InternalKind => "internal"
  }

  function BoolName(b: bool): string { if b then "true" else "false" }

  /** `format!("{b:02x}")` over the bytes of the id. */
  function HexBytes(bytes: seq<nat>): string {
    if bytes == [] then ""
    else (if bytes[0] < 16 then "0" else "") + Hex(bytes[0]) + HexBytes(bytes[1..])
  }

  function CallFields(r: CallRecord): seq<string> {
    [Decimal(r.callId), Decimal(r.parent), Decimal(r.fnId), Decimal(r.depth),
     SignedDecimal(r.tIn), SignedDecimal(r.tOut), SignedDecimal(r.cpuU), SignedDecimal(r.cpuS),
     SignedDecimal(r.memIn), SignedDecimal(r.memOut), BoolName(r.abnormal)]
  }

  function DictHeader(e: DictEntry): string {
    Decimal(e.fnId) + ":" + (KindName(e.kind) + ":" + (Decimal(e.line) + ":"))
  }

  function Names(e: DictEntry): string { e.fqn + "\t" + e.file }

  function FlushWords(n: nat, bytes: nat, trigger: FlushTrigger): seq<string> {
    ["record_count=" + Decimal(n), "estimated_bytes=" + Decimal(bytes), "trigger=" + TriggerName(trigger)]
  }

  function Tag(item: Item): string {
    match item
    case FlushItem(_, _, _) => "F:"
    case DictItem(_) => "D:"
    case CallItem(_) => "C:"
    case DropItem(_) => "DROP: dropped_records="
    case MarkerItem(_) => "RSHUTDOWN:"
  }

  function Body(item: Item): string {
    match item
    case FlushItem(n, bytes, trigger) => Join(FlushWords(n, bytes, trigger), " ")
    case DictItem(e) => DictHeader(e) + Names(e)
    case CallItem(r) => Join(CallFields(r), ":")
    case DropItem(n) => Decimal(n)
    case MarkerItem(id) => " dropped trace_id=" + HexBytes(id)
  }

  function Line(item: Item): string { Tag(item) + Body(item) }

  function TextOf(items: seq<Item>): string {
    if items == [] then "" else Line(items[0]) + "\n" + TextOf(items[1..])
  }

  // --- The file format, line by line ------------------------------------------------

  lemma FlushLineText(n: nat, bytes: nat, trigger: FlushTrigger)
    ensures Line(FlushItem(n, bytes, trigger)) ==
      "F:" + Join(["record_count=" + Decimal(n), "estimated_bytes=" + Decimal(bytes), "trigger="
                   + match trigger
                     case ByRecords => "records"
                     case ByBytes => "bytes"
                     case AtShutdown => "rshutdown"], " ")
  {
    hide Decimal, Join;
  }

  lemma DictLineText(e: DictEntry)
    ensures Line(DictItem(e)) ==
      "D:" + (Decimal(e.fnId) + ":"
      + ((match e.kind
          case UserFunction => "function"
          case MethodKind => "method"
          case ClosureKind => "closure"
          case InternalKind => "internal")
      + ":" + (Decimal(e.line) + ":"))
      + (e.fqn + "\t" + e.file))
  {
    hide Decimal;
  }

  lemma MarkerLineText(id: seq<nat>)
    ensures Line(MarkerItem(id)) == "RSHUTDOWN:" + (" dropped trace_id=" + HexBytes(id))
  {
    hide HexBytes;
  }

  /** The trace id is printed two lower-case hex digits to the byte. */
  lemma {:induction false} HexBytesAt(bytes: seq<nat>, k: nat)
    requires k < |bytes| && forall i :: 0 <= i < |bytes| ==> bytes[i] < 256
    ensures |HexBytes(bytes)| == 2 * |bytes|
    ensures HexBytes(bytes)[2 * k..2 * k + 2] == HexPair(bytes[k])
  {
    hide HexBytes;
    HexBytesHead(bytes);
    if |bytes| > 1 {
      HexBytesAt(bytes[1..], if k > 0 then k - 1 else 0);
    }
    Behind(HexPair(bytes[0]), HexBytes(bytes[1..]), k);
  }

  function HexPair(b: nat): string
    requires b < 256
  {
    ["0123456789abcdef"[b / 16], "0123456789abcdef"[b % 16]]
  }

  lemma HexBytesHead(bytes: seq<nat>)
    requires bytes != [] && bytes[0] < 256
    ensures HexBytes(bytes) == HexPair(bytes[0]) + HexBytes(bytes[1..])
    ensures |bytes| == 1 ==> HexBytes(bytes[1..]) == ""
  {
    HexByte(bytes[0]);
    hide Hex, HexPair;
  }

  lemma Behind(pair: string, rest: string, k: nat)
    requires |pair| == 2 && 2 * k <= |rest|
    ensures (pair + rest)[2 * k..2 * k + 2] == if k == 0 then pair else rest[2 * k - 2..2 * k]
  {
  }

  lemma HexByte(b: nat)
    requires b < 256
    ensures (if b < 16 then "0" else "") + Hex(b) == HexPair(b)
  {
    HexDigit(b / 16);
    HexDigit(b % 16);
    hide DigitChar;
    if b >= 16 {
      assert Hex(b) == [DigitChar(b / 16)] + [DigitChar(b % 16)];
    }
  }

  lemma HexDigit(d: nat)
    requires d < 16
    ensures DigitChar(d) == "0123456789abcdef"[d]
  {
  }

  // --- Parsing -------------------------------------------------------------------

  /** The three keys a flush line has collected so far. */
  datatype FlushKeys = FlushKeys(recordCount: Option<nat>, estimatedBytes: Option<nat>, trigger: Option<string>)

  /** One `key=value` part; a part without `=` gives up the line. */
  function FlushPart(keys: FlushKeys, part: string): Option<FlushKeys> {
    match SplitOnce(part, '=')
    case None => None
    case Some((key, value)) =>
      if key == "record_count" then Some(keys.(recordCount := ParseUnsigned(value, U64_MAX)))
      else if key == "estimated_bytes" then Some(keys.(estimatedBytes := ParseUnsigned(value, U64_MAX)))
      else if key == "trigger" then Some(keys.(trigger := Some(value)))
      else Some(keys)
  }

  function FlushParts(keys: FlushKeys, parts: seq<string>): Option<FlushKeys>
    decreases |parts|
  {
    if parts == [] then Some(keys)
    else
      match FlushPart(keys, parts[0])
      case None => None
      case Some(more) => FlushParts(more, parts[1..])
  }

  function FlushOf(keys: Option<FlushKeys>): Option<ParsedFlush> {
    if keys.Some? && keys.value.recordCount.Some? && keys.value.estimatedBytes.Some? && keys.value.trigger.Some?
    then Some(ParsedFlush(keys.value.recordCount.value, keys.value.estimatedBytes.value, keys.value.trigger.value))
    else None
  }

  const NO_KEYS := FlushKeys(None, None, None)

  function ParseFlush(rest: string): Option<ParsedFlush> { FlushOf(FlushParts(NO_KEYS, SplitWhitespace(rest))) }

  /** `parse_flush_line`. */
  method ParseFlushLine(rest: string) returns (r: Option<ParsedFlush>)
    ensures r == ParseFlush(rest)
  {
    var parts := SplitWhitespace(rest);
    var keys := NO_KEYS;
    for i := 0 to |parts|
      invariant FlushParts(keys, parts[i..]) == FlushParts(NO_KEYS, parts)
    {
      assert parts[i..][0] == parts[i] && parts[i..][1..] == parts[i + 1..];
      var next := FlushPart(keys, parts[i]);
      if next.None? {
        return None;
      }
      keys := next.value;
    }
    r := FlushOf(Some(keys));
  }

  /** `<fqn>\t<file>`; without a tab the file is empty. */
  function SplitNames(names: string): (string, string) {
    var pieces := SplitN(names, 2, '\t');
    (pieces[0], if |pieces| > 1 then pieces[1] else "")
  }

  /** `parse_dict_line`. */
  function ParseDict(rest: string): Option<ParsedDict> {
    var parts := SplitN(rest, 4, ':');
    if |parts| < 4 then None
    else
      var (fnId, line) := (ParseUnsigned(parts[0], U32_MAX), ParseUnsigned(parts[2], U32_MAX));
      var (fqn, file) := SplitNames(parts[3]);
      if fnId.Some? && line.Some? then Some(ParsedDict(fnId.value, parts[1], line.value, fqn, file)) else None
  }

  /** The fields of a call line, of which only the first eleven are looked at. */
  function CallOf(parts: seq<string>): Option<CallRecord> {
    if |parts| < 11 then None
    else
      var (callId, parent, fnId) :=
        (ParseUnsigned(parts[0], U64_MAX), ParseUnsigned(parts[1], U64_MAX), ParseUnsigned(parts[2], U32_MAX));
      var depth := ParseUnsigned(parts[3], U16_MAX);
      var (tIn, tOut, cpuU) := (ParseInt64(parts[4]), ParseInt64(parts[5]), ParseInt64(parts[6]));
      var (cpuS, memIn, memOut) := (ParseInt64(parts[7]), ParseInt64(parts[8]), ParseInt64(parts[9]));
      if callId.None? || parent.None? || fnId.None? || depth.None? || tIn.None? || tOut.None? || cpuU.None?
         || cpuS.None? || memIn.None? || memOut.None? || (parts[10] != "true" && parts[10] != "false")
      then None
      else Some(CallRecord(callId.value, parent.value, fnId.value, depth.value, tIn.value, tOut.value,
                           cpuU.value, cpuS.value, memIn.value, memOut.value, parts[10] == "true"))
  }

  /** `parse_call_line`. */
  function ParseCall(rest: string): Option<CallRecord> { CallOf(Split(rest, ':')) }

  function WithDict(p: ParsedDump, entry: Option<ParsedDict>): ParsedDump {
    if entry.Some? then p.(dict := p.dict + [entry.value]) else p
  }

  function WithCall(p: ParsedDump, record: Option<CallRecord>): ParsedDump {
    if record.Some? then p.(calls := p.calls + [record.value]) else p
  }

  function WithFlush(p: ParsedDump, flush: Option<ParsedFlush>): ParsedDump {
    if flush.Some? then p.(flushes := p.flushes + [flush.value]) else p
  }

  /** What one line adds; a line that does not parse adds nothing. */
  function ParseLine(p: ParsedDump, line: string): ParsedDump {
    var (d, c, f, drop, marker) := (StripPrefix(line, "D:"), StripPrefix(line, "C:"), StripPrefix(line, "F:"),
                                    StripPrefix(line, "DROP: dropped_records="), StripPrefix(line, "RSHUTDOWN:"));
    if d.Some? then WithDict(p, ParseDict(d.value))
    else if c.Some? then WithCall(p, ParseCall(c.value))
    else if f.Some? then WithFlush(p, ParseFlush(f.value))
    else if drop.Some? then p.(droppedRecords := ParseUnsigned(Trim(drop.value), U64_MAX))
    else if marker.Some? then p.(markerSeen := true)
    else p
  }

  function ParseLines(p: ParsedDump, lines: seq<string>): ParsedDump
    decreases |lines|
  {
    if lines == [] then p else ParseLines(ParseLine(p, lines[0]), lines[1..])
  }

  function Parse(text: string): ParsedDump { ParseLines(NOTHING, Lines(text)) }

  /** `parse_dump`. */
  method ParseDump(contents: string) returns (p: ParsedDump)
    ensures p == Parse(contents)
  {
    var lines := Lines(contents);
    p := NOTHING;
    for i := 0 to |lines|
      invariant ParseLines(p, lines[i..]) == ParseLines(NOTHING, lines)
    {
      var line := lines[i];
      assert lines[i..][0] == line && lines[i..][1..] == lines[i + 1..];
      ghost var was := p;
      var d := StripPrefix(line, "D:");
      var c := StripPrefix(line, "C:");
      var f := StripPrefix(line, "F:");
      var drop := StripPrefix(line, "DROP: dropped_records=");
      if d.Some? {
        p := WithDict(p, ParseDict(d.value));
      } else if c.Some? {
        p := WithCall(p, ParseCall(c.value));
      } else if f.Some? {
        var flush := ParseFlushLine(f.value);
        p := WithFlush(p, flush);
      } else if drop.Some? {
        p := p.(droppedRecords := ParseUnsigned(Trim(drop.value), U64_MAX));
      } else if StripPrefix(line, "RSHUTDOWN:").Some? {
        p := p.(markerSeen := true);
      }
      assert p == ParseLine(was, line);
    }
  }

  /** The marker counts as seen exactly when some line begins with it. */
  lemma MarkerSeenIff(text: string)
    ensures Parse(text).markerSeen <==> exists i :: 0 <= i < |Lines(text)| && "RSHUTDOWN:" <= Lines(text)[i]
  {
    hide Lines, ParseLines;
    MarkerIn(NOTHING, Lines(text));
  }

  lemma {:induction false} MarkerIn(p: ParsedDump, lines: seq<string>)
    ensures ParseLines(p, lines).markerSeen <==>
      p.markerSeen || exists i :: 0 <= i < |lines| && "RSHUTDOWN:" <= lines[i]
    decreases |lines|
  {
    if lines != [] {
      hide ParseLine;
      var (q, rest) := (ParseLine(p, lines[0]), lines[1..]);
      MarkerLine(p, lines[0]);
      MarkerIn(q, rest);
      hide ParseLines;
      if i :| 0 <= i < |lines| && "RSHUTDOWN:" <= lines[i] {
        assert i == 0 || rest[i - 1] == lines[i];
      }
    }
  }

  lemma MarkerLine(p: ParsedDump, line: string)
    ensures ParseLine(p, line).markerSeen <==> p.markerSeen || "RSHUTDOWN:" <= line
  {
    hide ParseDict, ParseCall, ParseFlush, ParseUnsigned, Trim;
    if "RSHUTDOWN:" <= line {
      assert line[0] == 'R';
    }
  }

  // --- Each line comes back ------------------------------------------------------

  /** The machine widths of the fields a line prints. */
  predicate Fits(item: Item) {
    match item
    case FlushItem(n, bytes, _) => n <= U64_MAX && bytes <= U64_MAX
    case DictItem(e) => e.fnId <= U32_MAX
    case CallItem(r) => r.callId <= U64_MAX && r.parent <= U64_MAX && r.fnId <= U32_MAX
    case DropItem(n) => n <= U64_MAX
    case MarkerItem(_) => true
  }

  /** Names the line format can carry. */
  predicate CleanEntry(e: DictEntry) {
    && '\n' !in e.fqn && '\t' !in e.fqn
    && '\n' !in e.file && (e.file != "" ==> e.file[|e.file| - 1] != '\r')
  }

  predicate Clean(item: Item) { item.DictItem? ==> CleanEntry(item.entry) }

  function ParsedEntry(e: DictEntry): ParsedDict { ParsedDict(e.fnId, KindName(e.kind), e.line, e.fqn, e.file) }

  /** What a line should add. */
  function Expect(p: ParsedDump, item: Item): ParsedDump {
    match item
    case FlushItem(n, bytes, trigger) => WithFlush(p, Some(ParsedFlush(n, bytes, TriggerName(trigger))))
    case DictItem(e) => WithDict(p, Some(ParsedEntry(e)))
    case CallItem(r) => WithCall(p, Some(r))
    case DropItem(n) => p.(droppedRecords := Some(n))
    case MarkerItem(_) => p.(markerSeen := true)
  }

  lemma SignedChars(i: int)
    ensures forall k :: 0 <= k < |SignedDecimal(i)| ==> IsDigit(SignedDecimal(i)[k]) || SignedDecimal(i)[k] == '-'
    ensures SignedDecimal(i) != ""
  {
  }

  lemma CallFieldsAvoid(r: CallRecord, c: char)
    requires c == ':' || c == '\n' || c == '\r'
    ensures forall f :: f in CallFields(r) ==> c !in f
  {
    SignedChars(r.tIn);
    SignedChars(r.tOut);
    SignedChars(r.cpuU);
    SignedChars(r.cpuS);
    SignedChars(r.memIn);
    SignedChars(r.memOut);
    hide Decimal, SignedDecimal;
    forall f | f in CallFields(r) ensures c !in f {
      assert f == BoolName(r.abnormal) || forall k :: 0 <= k < |f| ==> IsDigit(f[k]) || f[k] == '-';
    }
  }

  lemma CallFieldsParse(r: CallRecord)
    requires Fits(CallItem(r))
    ensures CallOf(CallFields(r)) == Some(r)
  {
    hide Decimal, SignedDecimal, ParseUnsigned, ParseInt64;
    UnsignedRoundTrip(r.callId, U64_MAX);
    UnsignedRoundTrip(r.parent, U64_MAX);
    UnsignedRoundTrip(r.fnId, U32_MAX);
    UnsignedRoundTrip(r.depth, U16_MAX);
    SignedRoundTrip(r.tIn);
    SignedRoundTrip(r.tOut);
    SignedRoundTrip(r.cpuU);
    SignedRoundTrip(r.cpuS);
    SignedRoundTrip(r.memIn);
    SignedRoundTrip(r.memOut);
  }

  lemma CallComesBack(r: CallRecord)
    requires Fits(CallItem(r))
    ensures ParseCall(Join(CallFields(r), ":")) == Some(r)
  {
    hide CallOf, Split, Join;
    CallFieldsParse(r);
    CallFieldsAvoid(r, ':');
    SplitJoin(CallFields(r), ':');
  }

  lemma KeyValue(key: string, value: string)
    requires '=' !in key
    ensures SplitOnce(key + "=" + value, '=') == Some((key, value))
  {
    IndexOfAppend(key, '=', value);
    var s := key + ['='] + value;
    assert key + "=" + value == s;
    assert s[..|key|] == key && s[|key| + 1..] == value;
  }

  lemma DecimalSolid(n: nat)
    ensures NoWhitespace(Decimal(n))
  {
  }

  lemma RecordCountSolid()
    ensures NoWhitespace("record_count=")
  {
  }

  lemma EstimatedBytesSolid()
    ensures NoWhitespace("estimated_bytes=")
  {
  }

  lemma TriggerSolid(trigger: FlushTrigger)
    ensures NoWhitespace("trigger=") && NoWhitespace(TriggerName(trigger))
  {
  }

  lemma FlushWordsSolid(n: nat, bytes: nat, trigger: FlushTrigger)
    ensures forall w :: w in FlushWords(n, bytes, trigger) ==> w != "" && NoWhitespace(w)
  {
    hide Decimal, NoWhitespace, TriggerName;
    RecordCountSolid();
    EstimatedBytesSolid();
    TriggerSolid(trigger);
    DecimalSolid(n);
    DecimalSolid(bytes);
    Solid("record_count=", Decimal(n));
    Solid("estimated_bytes=", Decimal(bytes));
    Solid("trigger=", TriggerName(trigger));
  }

  lemma Solid(key: string, value: string)
    requires key != "" && NoWhitespace(key) && NoWhitespace(value)
    ensures key + value != "" && NoWhitespace(key + value)
  {
  }

  lemma FlushComesBack(n: nat, bytes: nat, trigger: FlushTrigger)
    requires n <= U64_MAX && bytes <= U64_MAX
    ensures ParseFlush(Join(FlushWords(n, bytes, trigger), " ")) == Some(ParsedFlush(n, bytes, TriggerName(trigger)))
  {
    var words := FlushWords(n, bytes, trigger);
    assert words != [];
    hide FlushParts, FlushOf, SplitWhitespace, FlushWords, Join, NoWhitespace, TriggerName;
    FlushWordsSolid(n, bytes, trigger);
    SplitWords(words);
    FlushPartsOf(n, bytes, trigger);
    assert ParseFlush(Join(words, " ")) == FlushOf(FlushParts(NO_KEYS, words));
  }

  lemma {:induction false} SplitWords(words: seq<string>)
    requires words != [] && forall w :: w in words ==> w != "" && NoWhitespace(w)
    ensures SplitWhitespace(Join(words, " ")) == words
  {
    hide SplitWhitespace, NoWhitespace;
    assert words[0] in words;
    if |words| == 1 {
      SplitWhitespaceStep(words[0], "");
    } else {
      assert forall w :: w in words[1..] ==> w in words;
      SplitWords(words[1..]);
      SplitWhitespaceStep(words[0], Join(words[1..], " "));
    }
  }

  lemma FlushPartsOf(n: nat, bytes: nat, trigger: FlushTrigger)
    requires n <= U64_MAX && bytes <= U64_MAX
    ensures FlushOf(FlushParts(NO_KEYS, FlushWords(n, bytes, trigger)))
         == Some(ParsedFlush(n, bytes, TriggerName(trigger)))
  {
    hide ParseUnsigned, SplitOnce, Decimal;
    var words := FlushWords(n, bytes, trigger);
    var (a, b, c) := (words[0], words[1], words[2]);
    KeyValue("record_count", Decimal(n));
    KeyValue("estimated_bytes", Decimal(bytes));
    KeyValue("trigger", TriggerName(trigger));
    assert a == "record_count" + "=" + Decimal(n);
    assert b == "estimated_bytes" + "=" + Decimal(bytes);
    assert c == "trigger" + "=" + TriggerName(trigger);
    UnsignedRoundTrip(n, U64_MAX);
    UnsignedRoundTrip(bytes, U64_MAX);
    var k1 := NO_KEYS.(recordCount := Some(n));
    var k2 := k1.(estimatedBytes := Some(bytes));
    var k3 := k2.(trigger := Some(TriggerName(trigger)));
    assert FlushPart(NO_KEYS, a) == Some(k1);
    assert FlushPart(k1, b) == Some(k2);
    assert FlushPart(k2, c) == Some(k3);
    assert words[1..] == [b, c] && [b, c][1..] == [c] && [c][1..] == [];
    assert FlushParts(k2, [c]) == Some(k3);
    assert FlushParts(k1, [b, c]) == Some(k3);
  }

  lemma DropComesBack(n: nat)
    requires n <= U64_MAX
    ensures ParseUnsigned(Trim(Decimal(n)), U64_MAX) == Some(n)
  {
    TrimFacts(Decimal(n));
    UnsignedRoundTrip(n, U64_MAX);
  }

  lemma {:induction false} HexBytesPlain(bytes: seq<nat>)
    ensures '\n' !in HexBytes(bytes) && '\r' !in HexBytes(bytes)
  {
    if bytes != [] {
      HexBytesPlain(bytes[1..]);
    }
  }

  lemma {:induction false} JoinPlain(parts: seq<string>, sep: string, c: char)
    requires c !in sep && forall p :: p in parts ==> c !in p
    ensures c !in Join(parts, sep)
  {
    if |parts| > 1 {
      assert forall p :: p in parts[1..] ==> p in parts;
      JoinPlain(parts[1..], sep, c);
    }
  }

  lemma DecimalPlain(n: nat, c: char)
    requires !IsDigit(c)
    ensures c !in Decimal(n)
  {
  }

  lemma FlushPlain(n: nat, bytes: nat, trigger: FlushTrigger, c: char)
    requires c == '\n' || c == '\r'
    ensures c !in Join(FlushWords(n, bytes, trigger), " ")
  {
    hide Decimal, FlushWords, Join;
    FlushWordsSolid(n, bytes, trigger);
    JoinPlain(FlushWords(n, bytes, trigger), " ", c);
  }

  lemma CallPlain(r: CallRecord, c: char)
    requires c == '\n' || c == '\r'
    ensures c !in Join(CallFields(r), ":")
  {
    hide CallFields, Join;
    CallFieldsAvoid(r, c);
    JoinPlain(CallFields(r), ":", c);
  }

  /** Lines other than dictionary lines hold no line break of any kind. */
  lemma PlainLine(item: Item, c: char)
    requires !item.DictItem? && (c == '\n' || c == '\r')
    ensures c !in Line(item)
  {
    hide Body;
    PlainBody(item, c);
  }

  lemma PlainBody(item: Item, c: char)
    requires !item.DictItem? && (c == '\n' || c == '\r')
    ensures c !in Body(item)
  {
    hide Decimal, CallFields, FlushWords, Join, HexBytes;
    match item {
      case FlushItem(n, bytes, trigger) => FlushPlain(n, bytes, trigger, c);
      case CallItem(r) => CallPlain(r, c);
      case DropItem(n) => DecimalPlain(n, c);
      case MarkerItem(id) => HexBytesPlain(id);
    }
  }

  lemma Tagged(tag: string, body: string)
    ensures StripPrefix(tag + body, tag) == Some(body)
  {
  }

  /** A text whose character `i` differs from the prefix's does not have it. */
  lemma Untagged(line: string, other: string, i: nat)
    requires i < |line| && i < |other| && line[i] != other[i]
    ensures StripPrefix(line, other) == None
  {
  }

  lemma ReadFlush(p: ParsedDump, body: string)
    ensures ParseLine(p, "F:" + body) == WithFlush(p, ParseFlush(body))
  {
  }

  lemma ReadDict(p: ParsedDump, body: string)
    ensures ParseLine(p, "D:" + body) == WithDict(p, ParseDict(body))
  {
  }

  lemma ReadCall(p: ParsedDump, body: string)
    ensures ParseLine(p, "C:" + body) == WithCall(p, ParseCall(body))
  {
  }

  lemma ReadDrop(p: ParsedDump, body: string)
    ensures ParseLine(p, "DROP: dropped_records=" + body) == p.(droppedRecords := ParseUnsigned(Trim(body), U64_MAX))
  {
    hide StripPrefix, ParseUnsigned, Trim;
    var line := "DROP: dropped_records=" + body;
    Untagged(line, "D:", 1);
    Untagged(line, "C:", 0);
    Untagged(line, "F:", 0);
    Tagged("DROP: dropped_records=", body);
  }

  lemma ReadMarker(p: ParsedDump, body: string)
    ensures ParseLine(p, "RSHUTDOWN:" + body) == p.(markerSeen := true)
  {
    hide StripPrefix;
    var line := "RSHUTDOWN:" + body;
    Untagged(line, "D:", 0);
    Untagged(line, "C:", 0);
    Untagged(line, "F:", 0);
    Untagged(line, "DROP: dropped_records=", 0);
    Tagged("RSHUTDOWN:", body);
  }

  /** Every line but a dictionary line adds exactly what it should. */
  lemma LineParses(p: ParsedDump, item: Item)
    requires !item.DictItem? && Fits(item)
    ensures ParseLine(p, Line(item)) == Expect(p, item)
  {
    hide ParseLine, Decimal, Join, CallFields, FlushWords, ParseFlush, ParseCall, ParseUnsigned, Trim, HexBytes;
    match item {
      case FlushItem(n, bytes, trigger) =>
        FlushComesBack(n, bytes, trigger);
        ReadFlush(p, Body(item));
      case CallItem(r) =>
        CallComesBack(r);
        ReadCall(p, Body(item));
      case DropItem(n) =>
        DropComesBack(n);
        ReadDrop(p, Body(item));
      case MarkerItem(_) => ReadMarker(p, Body(item));
    }
  }

  // --- Dictionary lines ------------------------------------------------------------

  /** A dictionary line comes back up to its names, whatever is left of them. */
  lemma HeaderParses(e: DictEntry, names: string)
    requires e.fnId <= U32_MAX
    ensures ParseDict(DictHeader(e) + names) ==
      Some(ParsedDict(e.fnId, KindName(e.kind), e.line, SplitNames(names).0, SplitNames(names).1))
  {
    hide Decimal, SplitN, SplitNames, ParseUnsigned;
    var (a, b, c) := (Decimal(e.fnId), KindName(e.kind), Decimal(e.line));
    DecimalPlain(e.fnId, ':');
    DecimalPlain(e.line, ':');
    assert DictHeader(e) + names == a + [':'] + (b + [':'] + (c + [':'] + names));
    SplitNStep(a, 4, ':', b + [':'] + (c + [':'] + names));
    SplitNStep(b, 3, ':', c + [':'] + names);
    SplitNStep(c, 2, ':', names);
    LastPiece(names);
    UnsignedRoundTrip(e.fnId, U32_MAX);
    UnsignedRoundTrip(e.line, U32_MAX);
    assert SplitN(DictHeader(e) + names, 4, ':') == [a, b, c, names];
  }

  lemma LastPiece(s: string)
    ensures SplitN(s, 1, ':') == [s]
  {
  }

  /** What is left of the names on the line: up to the first line break. */
  function NamesOnLine(e: DictEntry): string {
    StripCr(Names(e)[..IndexOf(Names(e), '\n')])
  }

  /** The names come back exactly when they are clean. */
  lemma NamesComeBackIff(e: DictEntry)
    ensures SplitNames(NamesOnLine(e)) == (e.fqn, e.file) <==> CleanEntry(e)
  {
    if CleanEntry(e) {
      CleanNames(e);
    } else if SplitNames(NamesOnLine(e)) == (e.fqn, e.file) {
      UncleanNames(e);
    }
  }

  lemma SplitNamesAt(fqn: string, file: string)
    requires '\t' !in fqn
    ensures SplitNames(fqn + "\t" + file) == (fqn, file)
  {
    SplitNStep(fqn, 2, '\t', file);
    assert fqn + "\t" + file == fqn + ['\t'] + file;
  }

  lemma CleanNames(e: DictEntry)
    requires CleanEntry(e)
    ensures NamesOnLine(e) == Names(e) && SplitNames(NamesOnLine(e)) == (e.fqn, e.file)
  {
    var names := Names(e);
    assert '\n' !in names;
    assert names[..|names|] == names;
    assert names[|names| - 1] == if e.file == "" then '\t' else e.file[|e.file| - 1];
    SplitNamesAt(e.fqn, e.file);
  }

  lemma UncleanNames(e: DictEntry)
    requires SplitNames(NamesOnLine(e)) == (e.fqn, e.file)
    ensures CleanEntry(e)
  {
  }

  lemma StripCrTail(head: string, tail: string)
    requires head != "" && head[|head| - 1] != '\r'
    ensures StripCr(head + tail) == head + StripCr(tail)
  {
  }

  /** Cutting a text at its first line break. */
  lemma CutAtBreak(head: string, names: string, rest: string) returns (more: string)
    requires '\n' !in head && head != "" && head[|head| - 1] != '\r'
    ensures Lines(head + names + "\n" + rest) == [head + StripCr(names[..IndexOf(names, '\n')])] + Lines(more)
    ensures '\n' !in names ==> more == rest
  {
    hide Lines, StripCr, IndexOf;
    var i := IndexOf(names, '\n');
    var tail := names[..i];
    more := rest;
    if i < |names| {
      more := names[i + 1..] + "\n" + rest;
      assert names == tail + "\n" + names[i + 1..];
    }
    assert head + names + "\n" + rest == (head + tail) + "\n" + more;
    assert '\n' !in head + tail;
    LinesStep(head + tail, more);
    StripCrTail(head, tail);
  }

  lemma Regroup(tag: string, header: string, names: string, rest: string, cut: string)
    ensures tag + (header + names) + "\n" + rest == (tag + header) + names + "\n" + rest
    ensures (tag + header) + cut == tag + (header + cut)
  {
  }

  /** The first line a dictionary entry's text makes, and the text after it. */
  lemma DictFirstLine(e: DictEntry, rest: string) returns (more: string)
    ensures Lines(Line(DictItem(e)) + "\n" + rest) == ["D:" + (DictHeader(e) + NamesOnLine(e))] + Lines(more)
    ensures CleanEntry(e) ==> more == rest
  {
    hide Lines, DictHeader, StripCr, IndexOf, Names, CleanEntry;
    HeaderPlain(e);
    CleanNamesPlain(e);
    Regroup("D:", DictHeader(e), Names(e), rest, NamesOnLine(e));
    more := CutAtBreak("D:" + DictHeader(e), Names(e), rest);
  }

  lemma HeaderPlain(e: DictEntry)
    ensures '\n' !in DictHeader(e)
    ensures DictHeader(e) != "" && DictHeader(e)[|DictHeader(e)| - 1] == ':'
  {
  }

  lemma CleanNamesPlain(e: DictEntry)
    ensures CleanEntry(e) ==> '\n' !in Names(e)
  {
  }

  // --- The round trip --------------------------------------------------------------

  predicate AllFit(items: seq<Item>) { forall i :: 0 <= i < |items| ==> Fits(items[i]) }

  predicate AllClean(items: seq<Item>) { forall i :: 0 <= i < |items| ==> Clean(items[i]) }

  function ExpectAll(p: ParsedDump, items: seq<Item>): ParsedDump
    decreases |items|
  {
    if items == [] then p else ExpectAll(Expect(p, items[0]), items[1..])
  }

  /** Parsing only ever appends dictionary entries. */
  lemma {:induction false} ParseKeepsDict(p: ParsedDump, lines: seq<string>)
    ensures p.dict <= ParseLines(p, lines).dict
    decreases |lines|
  {
    if lines != [] {
      LineKeepsDict(p, lines[0]);
      hide ParseLine;
      ParseKeepsDict(ParseLine(p, lines[0]), lines[1..]);
    }
  }

  lemma LineKeepsDict(p: ParsedDump, line: string)
    ensures p.dict <= ParseLine(p, line).dict
  {
  }

  lemma {:induction false} ExpectKeepsDict(p: ParsedDump, items: seq<Item>)
    ensures p.dict <= ExpectAll(p, items).dict
    decreases |items|
  {
    if items != [] {
      assert p.dict <= Expect(p, items[0]).dict;
      ExpectKeepsDict(Expect(p, items[0]), items[1..]);
    }
  }

  /** A clean line is read back and the rest of the text follows. */
  lemma CleanStep(p: ParsedDump, item: Item, rest: string)
    requires Fits(item) && Clean(item)
    ensures ParseLines(p, Lines(Line(item) + "\n" + rest)) == ParseLines(Expect(p, item), Lines(rest))
  {
    assert item.DictItem? ==> Expect(p, item) == WithDict(p, Some(ParsedEntry(item.entry)));
    hide ParseLine, Line, Lines, Expect;
    match item {
      case DictItem(e) =>
        DictStep(p, e, rest);
      case _ =>
        PlainLine(item, '\n');
        PlainLine(item, '\r');
        LinesStep(Line(item), rest);
        LineParses(p, item);
        assert StripCr(Line(item)) == Line(item);
        FirstLine(p, Line(item), Lines(rest));
    }
  }

  lemma FirstLine(p: ParsedDump, line: string, lines: seq<string>)
    ensures ParseLines(p, [line] + lines) == ParseLines(ParseLine(p, line), lines)
  {
  }

  lemma DictStep(p: ParsedDump, e: DictEntry, rest: string)
    requires e.fnId <= U32_MAX
    ensures CleanEntry(e) ==>
      ParseLines(p, Lines(Line(DictItem(e)) + "\n" + rest))
        == ParseLines(WithDict(p, Some(ParsedEntry(e))), Lines(rest))
    ensures !CleanEntry(e) ==>
      var q := ParseLines(p, Lines(Line(DictItem(e)) + "\n" + rest));
      |p.dict| < |q.dict| && q.dict[|p.dict|] != ParsedEntry(e)
  {
    hide ParseLine, ParseLines, Line, Lines, DictHeader, NamesOnLine, SplitNames, CleanEntry, ParseDict;
    var more := DictFirstLine(e, rest);
    var body := DictHeader(e) + NamesOnLine(e);
    HeaderParses(e, NamesOnLine(e));
    NamesComeBackIff(e);
    ReadDict(p, body);
    FirstLine(p, "D:" + body, Lines(more));
    ParseKeepsDict(ParseLine(p, "D:" + body), Lines(more));
  }

  /** From any point on: what is read is what was written exactly when every name
      is clean. An unclean one leaves a wrong entry in its place for good. */
  lemma {:induction false} ItemsRoundTripIff(p: ParsedDump, items: seq<Item>)
    requires AllFit(items)
    ensures ParseLines(p, Lines(TextOf(items))) == ExpectAll(p, items) <==> AllClean(items)
    decreases |items|
  {
    if items == [] {
    } else {
      var (item, rest) := (items[0], items[1..]);
      assert AllFit(rest) && Fits(item);
      if Clean(item) {
        assert AllClean(items) <==> AllClean(rest);
        hide AllFit, AllClean, Clean, Fits;
        assert TextOf(items) == Line(item) + "\n" + TextOf(rest);
        hide Line, Lines, Expect;
        CleanStep(p, item, TextOf(rest));
        ItemsRoundTripIff(Expect(p, item), rest);
      } else {
        assert TextOf(items) == Line(item) + "\n" + TextOf(rest);
        UncleanLost(p, items);
      }
    }
  }

  lemma UncleanLost(p: ParsedDump, items: seq<Item>)
    requires items != [] && Fits(items[0]) && !Clean(items[0])
    ensures ParseLines(p, Lines(TextOf(items))) != ExpectAll(p, items)
  {
    hide Line, Lines, ParseLines, CleanEntry;
    var (e, n) := (items[0].entry, |p.dict|);
    assert TextOf(items) == Line(DictItem(e)) + "\n" + TextOf(items[1..]);
    DictStep(p, e, TextOf(items[1..]));
    ExpectKeepsDict(Expect(p, items[0]), items[1..]);
    assert Expect(p, items[0]).dict[n] == ParsedEntry(e);
    assert ExpectAll(p, items) == ExpectAll(Expect(p, items[0]), items[1..]);
  }

  // --- A whole dump ------------------------------------------------------------------

  /** One flush as it is recorded, and the lines at the end of a trace. */
  datatype Block = Block(batch: Batch, trigger: FlushTrigger, recordCount: nat, estimatedBytes: nat)

  datatype Trailer = Trailer(staged: seq<DictEntry>, buffer: seq<CallRecord>, droppedRecords: nat, traceId: seq<nat>)

  function DictItems(entries: seq<DictEntry>): seq<Item> {
    seq(|entries|, i requires 0 <= i < |entries| => DictItem(entries[i]))
  }

  function CallItems(calls: seq<CallRecord>): seq<Item> {
    seq(|calls|, i requires 0 <= i < |calls| => CallItem(calls[i]))
  }

  function BlockItems(b: Block): seq<Item> {
    [FlushItem(b.recordCount, b.estimatedBytes, b.trigger)] + (DictItems(b.batch.dict) + CallItems(b.batch.calls))
  }

  function TrailerItems(t: Trailer): seq<Item> {
    DictItems(t.staged) + (CallItems(t.buffer) + [DropItem(t.droppedRecords), MarkerItem(t.traceId)])
  }

  function DumpItems(blocks: seq<Block>, t: Trailer): seq<Item> {
    if blocks == [] then TrailerItems(t) else BlockItems(blocks[0]) + DumpItems(blocks[1..], t)
  }

  /** Every dictionary entry of the dump, in order. */
  function Entries(blocks: seq<Block>, t: Trailer): seq<DictEntry> {
    if blocks == [] then t.staged else blocks[0].batch.dict + Entries(blocks[1..], t)
  }

  function Calls(blocks: seq<Block>, t: Trailer): seq<CallRecord> {
    if blocks == [] then t.buffer else blocks[0].batch.calls + Calls(blocks[1..], t)
  }

  function ParsedEntries(entries: seq<DictEntry>): seq<ParsedDict> {
    seq(|entries|, i requires 0 <= i < |entries| => ParsedEntry(entries[i]))
  }

  function ParsedFlushes(blocks: seq<Block>): seq<ParsedFlush> {
    seq(|blocks|, i requires 0 <= i < |blocks| =>
      ParsedFlush(blocks[i].recordCount, blocks[i].estimatedBytes, TriggerName(blocks[i].trigger)))
  }

  lemma {:induction false} TextAppend(a: seq<Item>, b: seq<Item>)
    ensures TextOf(a + b) == TextOf(a) + TextOf(b)
  {
    hide Line;
    if a == [] {
      assert a + b == b;
    } else {
      assert (a + b)[1..] == a[1..] + b;
      TextAppend(a[1..], b);
    }
  }

  lemma {:induction false} ExpectAppend(p: ParsedDump, a: seq<Item>, b: seq<Item>)
    ensures ExpectAll(p, a + b) == ExpectAll(ExpectAll(p, a), b)
    decreases |a|
  {
    hide Expect;
    if a == [] {
      assert a + b == b;
    } else {
      assert (a + b)[1..] == a[1..] + b;
      ExpectAppend(Expect(p, a[0]), a[1..], b);
    }
  }

  lemma {:induction false} ExpectEntries(p: ParsedDump, entries: seq<DictEntry>)
    ensures ExpectAll(p, DictItems(entries)) == p.(dict := p.dict + ParsedEntries(entries))
    decreases |entries|
  {
    if entries == [] {
      assert p.dict + ParsedEntries(entries) == p.dict;
    } else {
      assert DictItems(entries)[1..] == DictItems(entries[1..]);
      ExpectEntries(Expect(p, DictItem(entries[0])), entries[1..]);
      assert p.dict + [ParsedEntry(entries[0])] + ParsedEntries(entries[1..]) == p.dict + ParsedEntries(entries);
    }
  }

  lemma {:induction false} ExpectCalls(p: ParsedDump, calls: seq<CallRecord>)
    ensures ExpectAll(p, CallItems(calls)) == p.(calls := p.calls + calls)
    decreases |calls|
  {
    if calls == [] {
      assert p.calls + calls == p.calls;
    } else {
      assert CallItems(calls)[1..] == CallItems(calls[1..]);
      ExpectCalls(Expect(p, CallItem(calls[0])), calls[1..]);
      assert p.calls + [calls[0]] + calls[1..] == p.calls + calls;
    }
  }

  lemma ExpectBlock(p: ParsedDump, b: Block)
    ensures ExpectAll(p, BlockItems(b)) ==
      ParsedDump(p.dict + ParsedEntries(b.batch.dict), p.calls + b.batch.calls, p.droppedRecords, p.markerSeen,
                 p.flushes + [ParsedFlush(b.recordCount, b.estimatedBytes, TriggerName(b.trigger))])
  {
    var header := FlushItem(b.recordCount, b.estimatedBytes, b.trigger);
    var p1 := Expect(p, header);
    assert BlockItems(b)[1..] == DictItems(b.batch.dict) + CallItems(b.batch.calls);
    assert ExpectAll(p, BlockItems(b)) == ExpectAll(p1, DictItems(b.batch.dict) + CallItems(b.batch.calls));
    ExpectAppend(p1, DictItems(b.batch.dict), CallItems(b.batch.calls));
    ExpectEntries(p1, b.batch.dict);
    ExpectCalls(ExpectAll(p1, DictItems(b.batch.dict)), b.batch.calls);
  }

  /** The parsed dump that says what was written. */
  function Written(p: ParsedDump, blocks: seq<Block>, t: Trailer): ParsedDump {
    ParsedDump(p.dict + ParsedEntries(Entries(blocks, t)), p.calls + Calls(blocks, t), Some(t.droppedRecords), true,
               p.flushes + ParsedFlushes(blocks))
  }

  lemma ExpectTrailer(p: ParsedDump, t: Trailer)
    ensures ExpectAll(p, TrailerItems(t)) == Written(p, [], t)
  {
    var last := [DropItem(t.droppedRecords), MarkerItem(t.traceId)];
    ExpectAppend(p, DictItems(t.staged), CallItems(t.buffer) + last);
    ExpectEntries(p, t.staged);
    var p1 := ExpectAll(p, DictItems(t.staged));
    ExpectAppend(p1, CallItems(t.buffer), last);
    ExpectCalls(p1, t.buffer);
    var p2 := ExpectAll(p1, CallItems(t.buffer));
    assert last[1..] == [MarkerItem(t.traceId)] && last[1..][1..] == [];
    assert ExpectAll(p2, last) == ExpectAll(Expect(p2, last[0]), last[1..]);
    assert p.flushes + ParsedFlushes([]) == p.flushes;
  }

  lemma {:induction false} ExpectDump(p: ParsedDump, blocks: seq<Block>, t: Trailer)
    ensures ExpectAll(p, DumpItems(blocks, t)) == Written(p, blocks, t)
    decreases |blocks|
  {
    hide ExpectAll, BlockItems, TrailerItems, Expect;
    if blocks == [] {
      ExpectTrailer(p, t);
    } else {
      var (b, rest) := (blocks[0], blocks[1..]);
      ExpectAppend(p, BlockItems(b), DumpItems(rest, t));
      ExpectBlock(p, b);
      ExpectDump(ExpectAll(p, BlockItems(b)), rest, t);
      var dict := b.batch.dict;
      assert ParsedEntries(dict + Entries(rest, t)) == ParsedEntries(dict) + ParsedEntries(Entries(rest, t));
      assert p.dict + ParsedEntries(dict) + ParsedEntries(Entries(rest, t))
          == p.dict + (ParsedEntries(dict) + ParsedEntries(Entries(rest, t)));
      assert p.calls + b.batch.calls + Calls(rest, t) == p.calls + (b.batch.calls + Calls(rest, t));
      assert ParsedFlushes(blocks)
          == [ParsedFlush(b.recordCount, b.estimatedBytes, TriggerName(b.trigger))] + ParsedFlushes(rest);
      assert p.flushes + ParsedFlushes(blocks)
          == p.flushes + [ParsedFlush(b.recordCount, b.estimatedBytes, TriggerName(b.trigger))] + ParsedFlushes(rest);
    }
  }

  lemma AllCleanAppend(a: seq<Item>, b: seq<Item>)
    ensures AllClean(a + b) <==> AllClean(a) && AllClean(b)
  {
    if AllClean(a + b) {
      forall i | 0 <= i < |a| ensures Clean(a[i]) {
        assert (a + b)[i] == a[i];
      }
      forall i | 0 <= i < |b| ensures Clean(b[i]) {
        assert (a + b)[|a| + i] == b[i];
      }
    }
  }

  predicate EntriesClean(entries: seq<DictEntry>) { forall i :: 0 <= i < |entries| ==> CleanEntry(entries[i]) }

  lemma DictItemsClean(entries: seq<DictEntry>)
    ensures AllClean(DictItems(entries)) <==> EntriesClean(entries)
  {
    hide CleanEntry;
    if AllClean(DictItems(entries)) {
      forall i | 0 <= i < |entries| ensures CleanEntry(entries[i]) {
        assert Clean(DictItems(entries)[i]);
      }
    }
  }

  lemma EntriesCleanAppend(a: seq<DictEntry>, b: seq<DictEntry>)
    ensures EntriesClean(a + b) <==> EntriesClean(a) && EntriesClean(b)
  {
    hide CleanEntry;
    if EntriesClean(a + b) {
      forall i | 0 <= i < |a| ensures CleanEntry(a[i]) {
        assert (a + b)[i] == a[i];
      }
      forall i | 0 <= i < |b| ensures CleanEntry(b[i]) {
        assert (a + b)[|a| + i] == b[i];
      }
    }
  }

  lemma {:induction false} DumpClean(blocks: seq<Block>, t: Trailer)
    ensures AllClean(DumpItems(blocks, t)) <==> EntriesClean(Entries(blocks, t))
    decreases |blocks|
  {
    if blocks == [] {
      var last := [DropItem(t.droppedRecords), MarkerItem(t.traceId)];
      assert AllClean(last) && AllClean(CallItems(t.buffer));
      hide AllClean, EntriesClean, DictItems, CallItems;
      DictItemsClean(t.staged);
      AllCleanAppend(CallItems(t.buffer), last);
      AllCleanAppend(DictItems(t.staged), CallItems(t.buffer) + last);
    } else {
      var (b, rest) := (blocks[0], blocks[1..]);
      var header := [FlushItem(b.recordCount, b.estimatedBytes, b.trigger)];
      assert AllClean(header) && AllClean(CallItems(b.batch.calls));
      hide AllClean, EntriesClean, DictItems, CallItems;
      DictItemsClean(b.batch.dict);
      AllCleanAppend(DictItems(b.batch.dict), CallItems(b.batch.calls));
      AllCleanAppend(header, DictItems(b.batch.dict) + CallItems(b.batch.calls));
      AllCleanAppend(BlockItems(b), DumpItems(rest, t));
      EntriesCleanAppend(b.batch.dict, Entries(rest, t));
      DumpClean(rest, t);
    }
  }

  /** The round trip: a dump is read back as it was written exactly when no fqn
      holds a newline or a tab, no file holds a newline, and no file ends in a
      carriage return. Colons anywhere and tabs in a file are fine. */
  lemma DumpRoundTripIff(blocks: seq<Block>, t: Trailer, text: string)
    requires AllFit(DumpItems(blocks, t)) && text == TextOf(DumpItems(blocks, t))
    ensures Parse(text) == Written(NOTHING, blocks, t) <==> EntriesClean(Entries(blocks, t))
  {
    hide ParseLines, Lines, TextOf, ExpectAll, DumpItems, AllFit, AllClean, EntriesClean;
    ItemsRoundTripIff(NOTHING, DumpItems(blocks, t));
    ExpectDump(NOTHING, blocks, t);
    DumpClean(blocks, t);
  }

  lemma NamesDiffer(a: DictEntry, b: DictEntry)
    requires ParsedEntry(a) == ParsedEntry(b)
    ensures a == b
  {
    assert KindName(a.kind)[0] == KindName(b.kind)[0];
  }

  lemma TriggersDiffer(a: FlushTrigger, b: FlushTrigger)
    requires TriggerName(a) == TriggerName(b)
    ensures a == b
  {
    assert TriggerName(a)[0] == TriggerName(b)[0];
  }

  /** What was written can be read off what is parsed: two clean dumps that parse alike
      hold the same entries (kinds included), records, flush headers and drop count. */
  lemma ParseDetermines(blocks: seq<Block>, t: Trailer, others: seq<Block>, u: Trailer)
    requires AllFit(DumpItems(blocks, t)) && EntriesClean(Entries(blocks, t))
    requires AllFit(DumpItems(others, u)) && EntriesClean(Entries(others, u))
    requires Parse(TextOf(DumpItems(blocks, t))) == Parse(TextOf(DumpItems(others, u)))
    ensures Entries(blocks, t) == Entries(others, u) && Calls(blocks, t) == Calls(others, u)
    ensures t.droppedRecords == u.droppedRecords && |blocks| == |others|
    ensures forall i :: 0 <= i < |blocks| ==>
      && blocks[i].trigger == others[i].trigger && blocks[i].recordCount == others[i].recordCount
      && blocks[i].estimatedBytes == others[i].estimatedBytes
  {
    hide Parse, TextOf, DumpItems, AllFit, EntriesClean, Entries, Calls, Written, ParsedEntries, ParsedFlushes;
    DumpRoundTripIff(blocks, t, TextOf(DumpItems(blocks, t)));
    DumpRoundTripIff(others, u, TextOf(DumpItems(others, u)));
    var (e, f) := (Entries(blocks, t), Entries(others, u));
    WrittenAlike(NOTHING, blocks, t, others, u);
    SameEntries(e, f);
    SameFlushes(blocks, others);
  }

  lemma WrittenAlike(p: ParsedDump, blocks: seq<Block>, t: Trailer, others: seq<Block>, u: Trailer)
    requires Written(p, blocks, t) == Written(p, others, u)
    ensures ParsedEntries(Entries(blocks, t)) == ParsedEntries(Entries(others, u))
    ensures Calls(blocks, t) == Calls(others, u) && t.droppedRecords == u.droppedRecords
    ensures ParsedFlushes(blocks) == ParsedFlushes(others)
  {
    hide Entries, Calls, ParsedEntries, ParsedFlushes;
    SameTail(p.dict, ParsedEntries(Entries(blocks, t)), ParsedEntries(Entries(others, u)));
    SameTail(p.flushes, ParsedFlushes(blocks), ParsedFlushes(others));
    SameTail(p.calls, Calls(blocks, t), Calls(others, u));
  }

  lemma SameTail<T>(head: seq<T>, a: seq<T>, b: seq<T>)
    requires head + a == head + b
    ensures a == b
  {
    assert a == (head + a)[|head|..] && b == (head + b)[|head|..];
  }

  lemma SameEntries(e: seq<DictEntry>, f: seq<DictEntry>)
    requires ParsedEntries(e) == ParsedEntries(f)
    ensures e == f
  {
    hide ParsedEntry;
    var (p, q) := (ParsedEntries(e), ParsedEntries(f));
    assert |e| == |p| == |q| == |f|;
    forall i | 0 <= i < |e| ensures e[i] == f[i] {
      assert p[i] == ParsedEntry(e[i]) && q[i] == ParsedEntry(f[i]);
      NamesDiffer(e[i], f[i]);
    }
  }

  lemma SameFlushes(a: seq<Block>, b: seq<Block>)
    requires ParsedFlushes(a) == ParsedFlushes(b)
    ensures |a| == |b|
    ensures forall i :: 0 <= i < |a| ==>
      && a[i].trigger == b[i].trigger && a[i].recordCount == b[i].recordCount
      && a[i].estimatedBytes == b[i].estimatedBytes
  {
    hide TriggerName;
    var (p, q) := (ParsedFlushes(a), ParsedFlushes(b));
    assert |a| == |p| == |q| == |b|;
    forall i | 0 <= i < |a|
      ensures a[i].trigger == b[i].trigger && a[i].recordCount == b[i].recordCount
      ensures a[i].estimatedBytes == b[i].estimatedBytes
    {
      assert p[i] == q[i];
      TriggersDiffer(a[i].trigger, b[i].trigger);
    }
  }

  lemma BlockText(b: Block)
    ensures TextOf(BlockItems(b)) ==
      TextOf([FlushItem(b.recordCount, b.estimatedBytes, b.trigger)])
      + TextOf(DictItems(b.batch.dict)) + TextOf(CallItems(b.batch.calls))
  {
    hide TextOf, DictItems, CallItems;
    TextAppend(DictItems(b.batch.dict), CallItems(b.batch.calls));
    TextAppend([FlushItem(b.recordCount, b.estimatedBytes, b.trigger)],
               DictItems(b.batch.dict) + CallItems(b.batch.calls));
  }

  lemma TrailerText(t: Trailer)
    ensures TextOf(TrailerItems(t)) ==
      TextOf(DictItems(t.staged)) + TextOf(CallItems(t.buffer))
      + TextOf([DropItem(t.droppedRecords)]) + TextOf([MarkerItem(t.traceId)])
  {
    hide TextOf, DictItems, CallItems;
    var (drop, marker) := (DropItem(t.droppedRecords), MarkerItem(t.traceId));
    assert [drop, marker] == [drop] + [marker];
    TextAppend([drop], [marker]);
    TextAppend(CallItems(t.buffer), [drop, marker]);
    TextAppend(DictItems(t.staged), CallItems(t.buffer) + [drop, marker]);
  }

  // --- The writers -----------------------------------------------------------------

  /** A file opened for append. */
  class Sink {
    var text: string

    constructor (text: string)
      ensures this.text == text
    {
      this.text := text;
    }

    method WriteLine(item: Item)
      modifies this
      ensures text == old(text) + TextOf([item])
    {
      text := text + Line(item) + "\n";
      assert TextOf([item]) == Line(item) + "\n" + TextOf([]);
    }

    method WriteEntries(entries: seq<DictEntry>)
      modifies this
      ensures text == old(text) + TextOf(DictItems(entries))
    {
      hide Line;
      for i := 0 to |entries|
        invariant text == old(text) + TextOf(DictItems(entries[..i]))
      {
        WriteLine(DictItem(entries[i]));
        assert DictItems(entries[..i + 1]) == DictItems(entries[..i]) + [DictItem(entries[i])];
        TextAppend(DictItems(entries[..i]), [DictItem(entries[i])]);
      }
      assert entries[..|entries|] == entries;
    }

    method WriteCalls(calls: seq<CallRecord>)
      modifies this
      ensures text == old(text) + TextOf(CallItems(calls))
    {
      hide Line;
      for i := 0 to |calls|
        invariant text == old(text) + TextOf(CallItems(calls[..i]))
      {
        WriteLine(CallItem(calls[i]));
        assert CallItems(calls[..i + 1]) == CallItems(calls[..i]) + [CallItem(calls[i])];
        TextAppend(CallItems(calls[..i]), [CallItem(calls[i])]);
      }
      assert calls[..|calls|] == calls;
    }

    /** `write_flush_block`. */
    method WriteFlushBlock(b: Block)
      modifies this
      ensures text == old(text) + TextOf(BlockItems(b))
    {
      hide TextOf, BlockItems;
      WriteLine(FlushItem(b.recordCount, b.estimatedBytes, b.trigger));
      WriteEntries(b.batch.dict);
      WriteCalls(b.batch.calls);
      BlockText(b);
    }

    /** `write_trace_to_path`. */
    method WriteTrace(t: Trailer)
      modifies this
      ensures text == old(text) + TextOf(TrailerItems(t))
    {
      hide TextOf, TrailerItems;
      WriteEntries(t.staged);
      WriteCalls(t.buffer);
      WriteLine(DropItem(t.droppedRecords));
      WriteLine(MarkerItem(t.traceId));
      TrailerText(t);
    }
  }
}

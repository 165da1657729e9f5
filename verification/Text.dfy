/** The text operations the recorder relies on. A Rust `str` is a sequence of
    Unicode scalar values here, and `str::len` is `Utf8Len`. */
module Text {
  import opened Wrappers

  function Utf8Width(c: char): (n: nat)
    ensures 1 <= n <= 4
  {
    var u := c as int;
    if u < 0x80 then 1 else if u < 0x800 then 2 else if u < 0x1_0000 then 3 else 4
  }

  /** One byte carries 7 bits, two carry 11, three 16, four the rest. */
  lemma Utf8WidthIff(c: char)
    ensures Utf8Width(c) <= 1 <==> c as int < 128
    ensures Utf8Width(c) <= 2 <==> c as int < 2048
    ensures Utf8Width(c) <= 3 <==> c as int < 65536
  {
  }

  function Utf8Len(s: string): nat {
    if s == [] then 0 else Utf8Width(s[0]) + Utf8Len(s[1..])
  }

  lemma {:induction false} Utf8LenConcat(a: string, b: string)
    ensures Utf8Len(a + b) == Utf8Len(a) + Utf8Len(b)
  {
    if a == [] {
      assert a + b == b;
    } else {
      assert (a + b)[1..] == a[1..] + b;
      Utf8LenConcat(a[1..], b);
    }
  }

  lemma {:induction false} Utf8LenAscii(s: string)
    requires forall i :: 0 <= i < |s| ==> s[i] as int < 0x80
    ensures Utf8Len(s) == |s|
  {
    if s != [] {
      Utf8LenAscii(s[1..]);
    }
  }

  /** Position of the first `c`, or the length of `s` when there is none. */
  function IndexOf(s: string, c: char): (i: nat)
    ensures i <= |s|
    ensures i < |s| ==> s[i] == c
    ensures forall k :: 0 <= k < i ==> s[k] != c
    ensures i == |s| <==> c !in s
  {
    if s == [] then 0
    else if s[0] == c then 0
    else
      var rest := IndexOf(s[1..], c);
      assert forall k :: 0 < k <= rest && k < |s| ==> s[k] == s[1..][k - 1];
      assert c in s <==> c in s[1..];
      1 + rest
  }

  lemma IndexOfAppend(a: string, c: char, b: string)
    requires c !in a
    ensures IndexOf(a + [c] + b, c) == |a|
  {
    var s := a + [c] + b;
    var i := IndexOf(s, c);
    assert s[|a|] == c;
    assert forall k :: 0 <= k < |a| ==> s[k] == a[k];
    assert c in s;
  }

  // --- split, splitn, split_once, strip_prefix -------------------------------

  /** `str::split(c)`: always at least one piece. */
  function Split(s: string, c: char): (pieces: seq<string>)
    ensures |pieces| > 0
    decreases |s|
  {
    var i := IndexOf(s, c);
    if i == |s| then [s] else [s[..i]] + Split(s[i + 1..], c)
  }

  /** `str::splitn(n, c)`. */
  function SplitN(s: string, n: nat, c: char): (pieces: seq<string>)
    requires n > 0
    ensures 0 < |pieces| <= n
    decreases n
  {
    var i := IndexOf(s, c);
    if n == 1 || i == |s| then [s] else [s[..i]] + SplitN(s[i + 1..], n - 1, c)
  }

  /** `str::split_once(c)`. */
  function SplitOnce(s: string, c: char): Option<(string, string)> {
    var i := IndexOf(s, c);
    if i == |s| then None else Some((s[..i], s[i + 1..]))
  }

  /** `str::strip_prefix`. */
  function StripPrefix(s: string, p: string): Option<string> {
    if |p| <= |s| && s[..|p|] == p then Some(s[|p|..]) else None
  }

  lemma SplitStep(a: string, c: char, b: string)
    requires c !in a
    ensures Split(a + [c] + b, c) == [a] + Split(b, c)
  {
    IndexOfAppend(a, c, b);
    assert (a + [c] + b)[..|a|] == a && (a + [c] + b)[|a| + 1..] == b;
  }

  lemma SplitNStep(a: string, n: nat, c: char, b: string)
    requires c !in a && n > 1
    ensures SplitN(a + [c] + b, n, c) == [a] + SplitN(b, n - 1, c)
  {
    IndexOfAppend(a, c, b);
    assert (a + [c] + b)[..|a|] == a && (a + [c] + b)[|a| + 1..] == b;
  }

  lemma {:induction false} SplitPiecesAvoid(s: string, c: char)
    ensures forall p :: p in Split(s, c) ==> c !in p
    decreases |s|
  {
    var i := IndexOf(s, c);
    if i < |s| {
      SplitPiecesAvoid(s[i + 1..], c);
    }
  }

  /** Pieces glued with one separator character. */
  function Join(parts: seq<string>, sep: string): string {
    if parts == [] then ""
    else if |parts| == 1 then parts[0]
    else parts[0] + sep + Join(parts[1..], sep)
  }

  /** Splitting undoes joining when no part holds the separator. */
  lemma {:induction false} SplitJoin(parts: seq<string>, c: char)
    requires parts != []
    requires forall p :: p in parts ==> c !in p
    ensures Split(Join(parts, [c]), c) == parts
  {
    if |parts| == 1 {
      assert IndexOf(parts[0], c) == |parts[0]|;
    } else {
      hide Split, IndexOf;
      assert parts[0] in parts && forall p :: p in parts[1..] ==> p in parts;
      assert Join(parts, [c]) == parts[0] + [c] + Join(parts[1..], [c]);
      SplitJoin(parts[1..], c);
      SplitStep(parts[0], c, Join(parts[1..], [c]));
    }
  }

  // --- lines -------------------------------------------------------------------

  function StripCr(line: string): string {
    if line != [] && line[|line| - 1] == '\r' then line[..|line| - 1] else line
  }

  /** `str::lines`: a final line without a newline keeps its `\r`. */
  function Lines(s: string): seq<string>
    decreases |s|
  {
    if s == [] then []
    else
      var i := IndexOf(s, '\n');
      if i == |s| then [s] else [StripCr(s[..i])] + Lines(s[i + 1..])
  }

  lemma LinesStep(line: string, rest: string)
    requires '\n' !in line
    ensures Lines(line + "\n" + rest) == [StripCr(line)] + Lines(rest)
  {
    var s := line + "\n" + rest;
    assert s == line + ['\n'] + rest;
    IndexOfAppend(line, '\n', rest);
    assert s[..|line|] == line && s[|line| + 1..] == rest;
  }

  // --- whitespace ----------------------------------------------------------------

  /** `char::is_whitespace`: the Unicode White_Space property. */
  predicate IsWhitespace(c: char) {
    var u := c as int;
    || 0x09 <= u <= 0x0D || u == 0x20 || u == 0x85 || u == 0xA0 || u == 0x1680
    || 0x2000 <= u <= 0x200A || u == 0x2028 || u == 0x2029 || u == 0x202F
    || u == 0x205F || u == 0x3000
  }

  /** The 25 characters of the property. */
  lemma WhitespaceTable(c: char)
    ensures IsWhitespace(c) <==>
      c as int in [9, 10, 11, 12, 13, 32, 133, 160, 5760, 8192, 8193, 8194, 8195, 8196, 8197, 8198, 8199, 8200, 8201,
                   8202, 8232, 8233, 8239, 8287, 12288]
  {
  }

  function TrimStart(s: string): string {
    if s != [] && IsWhitespace(s[0]) then TrimStart(s[1..]) else s
  }

  function TrimEnd(s: string): string {
    if s != [] && IsWhitespace(s[|s| - 1]) then TrimEnd(s[..|s| - 1]) else s
  }

  /** `str::trim`. */
  function Trim(s: string): string { TrimEnd(TrimStart(s)) }

  /** No whitespace at either end. */
  predicate Trimmed(s: string) {
    s != [] ==> !IsWhitespace(s[0]) && !IsWhitespace(s[|s| - 1])
  }

  lemma {:induction false} TrimStartFacts(s: string)
    ensures TrimStart(s) != [] ==> !IsWhitespace(TrimStart(s)[0])
    ensures forall c :: c in TrimStart(s) ==> c in s
  {
    if s != [] && IsWhitespace(s[0]) {
      TrimStartFacts(s[1..]);
    }
  }

  lemma {:induction false} TrimEndFacts(s: string)
    ensures TrimEnd(s) <= s
    ensures TrimEnd(s) != [] ==> !IsWhitespace(TrimEnd(s)[|TrimEnd(s)| - 1])
    ensures forall c :: c in TrimEnd(s) ==> c in s
  {
    if s != [] && IsWhitespace(s[|s| - 1]) {
      TrimEndFacts(s[..|s| - 1]);
    }
  }

  /** Trimming leaves a trimmed text with no new characters, and is the identity on one. */
  lemma TrimFacts(s: string)
    ensures Trimmed(Trim(s))
    ensures forall c :: c in Trim(s) ==> c in s
    ensures Trimmed(s) ==> Trim(s) == s
  {
    TrimStartFacts(s);
    TrimEndFacts(TrimStart(s));
  }

  /** Position of the first whitespace character, or the length. */
  function WhitespaceIndex(s: string): (i: nat)
    ensures i <= |s|
    ensures i < |s| ==> IsWhitespace(s[i])
    ensures forall k :: 0 <= k < i ==> !IsWhitespace(s[k])
  {
    if s == [] || IsWhitespace(s[0]) then 0 else 1 + WhitespaceIndex(s[1..])
  }

  /** `str::split_whitespace`: the maximal runs of non-whitespace. */
  function SplitWhitespace(s: string): seq<string>
    decreases |s|
  {
    if s == [] then []
    else if IsWhitespace(s[0]) then SplitWhitespace(s[1..])
    else
      var i := WhitespaceIndex(s);
      [s[..i]] + SplitWhitespace(s[i..])
  }

  predicate NoWhitespace(s: string) { forall i :: 0 <= i < |s| ==> !IsWhitespace(s[i]) }

  lemma SplitWhitespaceStep(word: string, rest: string)
    requires word != [] && NoWhitespace(word)
    ensures SplitWhitespace(word + " " + rest) == [word] + SplitWhitespace(rest)
    ensures SplitWhitespace(word) == [word]
  {
    var s := word + " " + rest;
    assert s[|word|] == ' ';
    assert forall k :: 0 <= k < |word| ==> s[k] == word[k];
    assert WhitespaceIndex(s) == |word|;
    assert s[..|word|] == word && s[|word|..][1..] == rest;
    assert WhitespaceIndex(word) == |word|;
    assert word[..|word|] == word && word[|word|..] == [];
  }
}

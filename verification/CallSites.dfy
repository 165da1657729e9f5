/** Categorising a call site: the owning form, the allocation-free form the
    production begin handler uses, and exactly when the two agree. */
module CallSites {
  import opened Wrappers
  import opened Numerals
  import opened Text
  import opened FunctionKeys

  /** What the engine reports about a call. */
  datatype RawCallSite = RawCallSite(
    functionName: Option<string>,
    className: Option<string>,
    filename: Option<string>,
    lineno: UInt32,
    isInternal: bool,
    executeDataAddr: nat)

  datatype Categorised = Categorised(key: FunctionKey, kind: FunctionKind, fqn: string, file: string, line: UInt32)

  /** A name not yet rendered. */
  datatype FqnSpec =
    | Borrowed(name: string)
    | MethodName(className: string, methodName: string)
    | ClosureName(file: string, line: UInt32)
    | Unknown(kindLabel: string, addr: nat)

  datatype LazyCategorised =
    LazyCategorised(keyRef: FunctionKeyRef, kind: FunctionKind, fqnSpec: FqnSpec, file: string, line: UInt32)

  const CLOSURE_PREFIX := "{closure"

  function UnknownPlaceholder(kind: string, addr: nat): string {
    "(" + kind + ")@0x" + Hex(addr)
  }

  predicate IsClosureSite(info: RawCallSite) {
    match info.functionName
    case Some(name) => CLOSURE_PREFIX <= name
    case None => info.filename.Some?
  }

  function FileOf(info: RawCallSite): string {
    if info.filename.Some? then info.filename.value else ""
  }

  /** `categorise`. */
  function Categorise(info: RawCallSite): Categorised {
    var file := FileOf(info);
    if info.isInternal then
      var name := match info.functionName
        case Some(n) => n
        case None => UnknownPlaceholder("anonymous", info.executeDataAddr);
      Categorised(Internal(name), InternalKind, name, "", 0)
    else if info.className.Some? then
      var c := info.className.value;
      var m := match info.functionName
        case Some(n) => n
        case None => UnknownPlaceholder("unknown", info.executeDataAddr);
      Categorised(Method(c, m), MethodKind, c + "::" + m, file, info.lineno)
    else if IsClosureSite(info) then
      Categorised(Closure(file, info.lineno), ClosureKind,
                  "closure:" + file + ":" + Decimal(info.lineno), file, info.lineno)
    else
      var f := match info.functionName
        case Some(n) => n
        case None => UnknownPlaceholder("unknown", info.executeDataAddr);
      Categorised(Function(file, f, info.lineno), UserFunction, f, file, info.lineno)
  }

  /** `categorise_lazy`. An unnamed internal is steered to a `Function` key
      holding the low 32 bits of the address; an unnamed method or function
      gets the empty name. */
  function CategoriseLazy(info: RawCallSite): LazyCategorised {
    var file := FileOf(info);
    if info.isInternal then
      match info.functionName
      case Some(n) => LazyCategorised(InternalRef(n), InternalKind, Borrowed(n), "", 0)
      case None =>
        var addr := info.executeDataAddr;
        LazyCategorised(FunctionRef("", "", addr % 0x1_0000_0000), InternalKind, Unknown("anonymous", addr), "", 0)
    else if info.className.Some? then
      var c := info.className.value;
      var m := if info.functionName.Some? then info.functionName.value else "";
      LazyCategorised(MethodRef(c, m), MethodKind, MethodName(c, m), file, info.lineno)
    else if IsClosureSite(info) then
      LazyCategorised(ClosureRef(file, info.lineno), ClosureKind, ClosureName(file, info.lineno), file, info.lineno)
    else
      var f := if info.functionName.Some? then info.functionName.value else "";
      LazyCategorised(FunctionRef(file, f, info.lineno), UserFunction, Borrowed(f), file, info.lineno)
  }

  /** What becomes of a site: an internal one has no file and no line; a method is
      one with a class; of the others the closures are those whose name begins with
      `{closure`, and the unnamed ones with a file; the rest are functions. */
  lemma SiteTable(info: RawCallSite)
    ensures var c := Categorise(info);
      && (c.kind == InternalKind <==> info.isInternal)
      && (c.kind == MethodKind <==> !info.isInternal && info.className.Some?)
      && (c.kind == ClosureKind <==>
            && !info.isInternal && info.className.None?
            && ((info.functionName.None? && info.filename.Some?)
                || exists rest :: info.functionName == Some("{closure" + rest)))
      && (info.isInternal ==> c.file == "" && c.line == 0)
      && (!info.isInternal ==>
            c.line == info.lineno && (if info.filename.Some? then info.filename == Some(c.file) else c.file == ""))
      && (c.kind == InternalKind ==>
            c.key == Internal(c.fqn)
            && if info.functionName.Some? then info.functionName == Some(c.fqn)
               else c.fqn == "(anonymous)@0x" + Hex(info.executeDataAddr))
      && (c.kind == ClosureKind ==>
            c.key == Closure(c.file, c.line) && c.fqn == "closure:" + c.file + ":" + Decimal(c.line))
      && (c.kind == UserFunction ==>
            c.key == Function(c.file, c.fqn, c.line)
            && if info.functionName.Some? then info.functionName == Some(c.fqn)
               else c.fqn == "(unknown)@0x" + Hex(info.executeDataAddr))
      && (c.kind == MethodKind ==>
            c.key.Method? && info.className == Some(c.key.className)
            && c.fqn == c.key.className + "::" + c.key.methodName
            && if info.functionName.Some? then info.functionName == Some(c.key.methodName)
               else c.key.methodName == "(unknown)@0x" + Hex(info.executeDataAddr))
  {
    if info.functionName.Some? && CLOSURE_PREFIX <= info.functionName.value {
      var name := info.functionName.value;
      assert name == name[..8] + name[8..] && name[..8] == "{closure";
    }
  }

  /** `FqnSpec::render`. */
  function Render(spec: FqnSpec): string {
    match spec
    case Borrowed(name) => name
    case MethodName(c, m) => c + "::" + m
    case ClosureName(file, line) => "closure:" + file + ":" + Decimal(line)
    case Unknown(tag, addr) => UnknownPlaceholder(tag, addr)
  }

  /** `FqnSpec::render_len`: counted with `ilog10` and the bit length, nothing rendered. */
  function RenderLen(spec: FqnSpec): nat {
    match spec
    case Borrowed(name) => Utf8Len(name)
    case MethodName(c, m) => Utf8Len(c) + 2 + Utf8Len(m)
    case ClosureName(file, line) =>
      var digits := if line == 0 then 1 else Ilog10(line) + 1;
      8 + Utf8Len(file) + 1 + digits
    case Unknown(tag, addr) =>
      var hexDigits := if addr == 0 then 1 else (BitLength(addr) + 3) / 4;
      1 + Utf8Len(tag) + 1 + 1 + 2 + hexDigits
  }

  lemma LiteralLengths()
    ensures Utf8Len("::") == 2 && Utf8Len(":") == 1 && Utf8Len("closure:") == 8
    ensures Utf8Len("(") == 1 && Utf8Len(")@0x") == 4
  {
    Utf8LenAscii("::");
    Utf8LenAscii(":");
    Utf8LenAscii("closure:");
    Utf8LenAscii("(");
    Utf8LenAscii(")@0x");
  }

  lemma Utf8LenConcat4(a: string, b: string, c: string, d: string)
    ensures Utf8Len(a + b + c + d) == Utf8Len(a) + Utf8Len(b) + Utf8Len(c) + Utf8Len(d)
  {
    Utf8LenConcat(a + b + c, d);
    Utf8LenConcat(a + b, c);
    Utf8LenConcat(a, b);
  }

  /** The counted length is the length of the rendered text, for every name,
      file, line and address. */
  lemma RenderLenExact(spec: FqnSpec)
    ensures RenderLen(spec) == Utf8Len(Render(spec))
  {
    LiteralLengths();
    match spec {
      case Borrowed(_) =>
      case MethodName(c, m) =>
        Utf8LenConcat(c + "::", m);
        Utf8LenConcat(c, "::");
      case ClosureName(file, line) =>
        Utf8LenConcat4("closure:", file, ":", Decimal(line));
        Utf8LenAscii(Decimal(line));
        DecimalLength(line);
      case Unknown(tag, addr) =>
        Utf8LenConcat4("(", tag, ")@0x", Hex(addr));
        Utf8LenAscii(Hex(addr));
        HexLength(addr);
    }
  }

  /** The lazy description would intern the same key and stage the same entry. */
  predicate Agrees(lazy: LazyCategorised, cat: Categorised) {
    && ToOwned(lazy.keyRef) == cat.key
    && lazy.kind == cat.kind
    && Render(lazy.fqnSpec) == cat.fqn
    && lazy.file == cat.file
    && lazy.line == cat.line
  }

  /** A site with a name, or one that takes the closure branch. */
  predicate Identified(info: RawCallSite) {
    info.functionName.Some? || (!info.isInternal && info.className.None? && info.filename.Some?)
  }

  /** The two categorisations agree on exactly the identified sites. */
  lemma LazyAgreesIff(info: RawCallSite)
    ensures Agrees(CategoriseLazy(info), Categorise(info)) <==> Identified(info)
  {
    if !Identified(info) {
      assert UnknownPlaceholder("unknown", info.executeDataAddr)[0] == '(';
    }
  }

  /** The address can be read off its hexadecimal form. */
  lemma {:induction false} HexInjective(m: nat, n: nat)
    ensures Hex(m) == Hex(n) <==> m == n
  {
    HexLast(m);
    HexLast(n);
    if Hex(m) == Hex(n) && m >= 16 && n >= 16 {
      hide Hex, DigitChar;
      HexInjective(m / 16, n / 16);
    }
  }

  lemma HexLast(n: nat)
    ensures var (s, k) := (Hex(n), |Hex(n)| - 1);
      && s[k] == DigitChar(n % 16) && (k == 0 <==> n < 16)
      && (n >= 16 ==> s[..k] == Hex(n / 16))
  {
  }

  lemma PlaceholderInjective(tag: string, m: nat, n: nat)
    ensures UnknownPlaceholder(tag, m) == UnknownPlaceholder(tag, n) <==> m == n
  {
    hide Hex;
    HexInjective(m, n);
    var prefix := "(" + tag + ")@0x";
    assert UnknownPlaceholder(tag, m)[|prefix|..] == Hex(m) && UnknownPlaceholder(tag, n)[|prefix|..] == Hex(n);
  }

  /** What the allocation-free form makes of an unnamed site: only the low 32 bits of an
      internal's address reach its key, and methods and functions get the empty name. */
  lemma UnnamedLazily(info: RawCallSite)
    requires info.functionName.None?
    ensures var l := CategoriseLazy(info);
      if info.isInternal then
        && l.keyRef == FunctionRef("", "", info.executeDataAddr % 0x1_0000_0000) && l.kind == InternalKind
        && Render(l.fqnSpec) == "(anonymous)@0x" + Hex(info.executeDataAddr) && l.file == "" && l.line == 0
      else if info.className.Some? then
        && l.keyRef == MethodRef(info.className.value, "") && l.kind == MethodKind
        && Render(l.fqnSpec) == info.className.value + "::"
      else if info.filename.None? then
        l.keyRef == FunctionRef("", "", info.lineno) && l.kind == UserFunction && Render(l.fqnSpec) == ""
      else l.keyRef == ClosureRef(info.filename.value, info.lineno) && l.kind == ClosureKind
  {
  }

  /** Off the identified sites the lazy form also merges what the owning form
      keeps apart: unnamed methods of one class always share a lazy key, and an
      owning key only at the same address. */
  lemma UnnamedMethodsCollide(a: RawCallSite, b: RawCallSite)
    requires !a.isInternal && !b.isInternal && a.functionName.None? && b.functionName.None?
    requires a.className.Some? && a.className == b.className
    ensures CategoriseLazy(a).keyRef == CategoriseLazy(b).keyRef
    ensures Categorise(a).key == Categorise(b).key <==> a.executeDataAddr == b.executeDataAddr
  {
    hide UnknownPlaceholder;
    PlaceholderInjective("unknown", a.executeDataAddr, b.executeDataAddr);
  }
}

/** Identity of a PHP function: the owning key, its borrowed view, and what
    each of them writes to a hasher. */
module FunctionKeys {
  import opened Numerals

  datatype FunctionKind = UserFunction | MethodKind | ClosureKind | InternalKind

  datatype FunctionKey =
    | Function(file: string, funcName: string, line: UInt32)
    | Method(className: string, methodName: string)
    | Closure(file: string, line: UInt32)
    | Internal(name: string)

  datatype FunctionKeyRef =
    | FunctionRef(file: string, funcName: string, line: UInt32)
    | MethodRef(className: string, methodName: string)
    | ClosureRef(file: string, line: UInt32)
    | InternalRef(name: string)

  /** One call on a `Hasher`. */
  datatype HashWrite = WriteU8(tag: nat) | WriteStr(s: string) | WriteU32(n: UInt32)

  /** Any deterministic hasher: a function of the writes it received. */
  type Hasher = seq<HashWrite> -> nat

  const TAG_FUNCTION := 0
  const TAG_METHOD := 1
  const TAG_CLOSURE := 2
  const TAG_INTERNAL := 3

  /** `impl Hash for FunctionKey`. */
  function Writes(key: FunctionKey): seq<HashWrite> {
    match key
    case Function(file, name, line) => [WriteU8(TAG_FUNCTION), WriteStr(file), WriteStr(name), WriteU32(line)]
    case Method(className, name) => [WriteU8(TAG_METHOD), WriteStr(className), WriteStr(name)]
    case Closure(file, line) => [WriteU8(TAG_CLOSURE), WriteStr(file), WriteU32(line)]
    case Internal(name) => [WriteU8(TAG_INTERNAL), WriteStr(name)]
  }

  /** `impl Hash for FunctionKeyRef`. */
  function WritesOfRef(r: FunctionKeyRef): seq<HashWrite> {
    match r
    case FunctionRef(file, name, line) => [WriteU8(TAG_FUNCTION), WriteStr(file), WriteStr(name), WriteU32(line)]
    case MethodRef(className, name) => [WriteU8(TAG_METHOD), WriteStr(className), WriteStr(name)]
    case ClosureRef(file, line) => [WriteU8(TAG_CLOSURE), WriteStr(file), WriteU32(line)]
    case InternalRef(name) => [WriteU8(TAG_INTERNAL), WriteStr(name)]
  }

  /** `FunctionKey::matches_ref`. */
  predicate MatchesRef(key: FunctionKey, r: FunctionKeyRef) {
    match (key, r)
    case (Function(f1, n1, l1), FunctionRef(f2, n2, l2)) => f1 == f2 && n1 == n2 && l1 == l2
    case (Method(c1, m1), MethodRef(c2, m2)) => c1 == c2 && m1 == m2
    case (Closure(f1, l1), ClosureRef(f2, l2)) => f1 == f2 && l1 == l2
    case (Internal(n1), InternalRef(n2)) => n1 == n2
    case _ => false
  }

  /** `FunctionKey::as_ref`. */
  function AsRef(key: FunctionKey): FunctionKeyRef {
    match key
    case Function(file, name, line) => FunctionRef(file, name, line)
    case Method(className, name) => MethodRef(className, name)
    case Closure(file, line) => ClosureRef(file, line)
    case Internal(name) => InternalRef(name)
  }

  /** `FunctionKeyRef::to_owned`: the only key that matches `r`, hashing as `r` does. */
  function ToOwned(r: FunctionKeyRef): (key: FunctionKey)
    ensures forall k :: MatchesRef(k, r) <==> k == key
    ensures AsRef(key) == r && Writes(key) == WritesOfRef(r)
  {
    match r
    case FunctionRef(file, name, line) => Function(file, name, line)
    case MethodRef(className, name) => Method(className, name)
    case ClosureRef(file, line) => Closure(file, line)
    case InternalRef(name) => Internal(name)
  }

  /** Different keys never write the same bytes, whatever the hasher then does with them;
      the first byte alone tells the variants apart. */
  lemma WritesInjective(a: FunctionKey, b: FunctionKey)
    ensures Writes(a) == Writes(b) <==> a == b
    ensures Writes(a)[0] == Writes(b)[0] <==>
      && (a.Function? <==> b.Function?) && (a.Method? <==> b.Method?) && (a.Closure? <==> b.Closure?)
  {
  }
}

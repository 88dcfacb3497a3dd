/**
 Conversion of the variadic `interface{}` arguments of `Try.F` to machine
 words. Only the reflect kinds the conversion switch names are modelled
 individually; every other kind is `Other` and makes `F` panic.
 */
module Coercion {
  import opened Wrappers
  import opened Words

  datatype SignedKind = Int | Int8 | Int16 | Int32 | Int64
  datatype UnsignedKind = Uint | Uintptr | Uint8 | Uint16 | Uint32 | Uint64

  /** 2^(bits-1) for a signed kind, on 64-bit Windows. */
  function SignedBound(k: SignedKind): nat
  {
    match k
    case Int8 => 0x80
    case Int16 => 0x8000
    case Int32 => 0x8000_0000
    case Int | Int64 => HALF_WORD_MOD
  }

  /** 2^bits for an unsigned kind, on 64-bit Windows. */
  function UnsignedBound(k: UnsignedKind): nat
  {
    match k
    case Uint8 => 0x100
    case Uint16 => 0x1_0000
    case Uint32 => 0x1_0000_0000
    case Uint | Uintptr | Uint64 => WORD_MOD
  }

  /**
   An argument as `reflect.ValueOf` sees it. `Nil` is an untyped nil
   (kind Invalid); `Other` stands for every remaining kind (floats,
   strings, slices, structs, `unsafe.Pointer`, ...) by its kind name.
   */
  datatype Arg =
    | Ptr(address: Word)
    | Unsigned(ukind: UnsignedKind, u: nat)
    | Signed(skind: SignedKind, i: int)
    | Bool(b: bool)
    | Nil
    | Other(kind: string)

  /** What Go's static types guarantee: the value fits its kind. */
  predicate InRange(a: Arg)
  {
    match a
    case Unsigned(k, u) => u < UnsignedBound(k)
    case Signed(k, i) => -(SignedBound(k) as int) <= i < SignedBound(k)
    case _ => true
  }

  predicate Convertible(a: Arg)
  {
    !a.Other?
  }

  /** One argument to one word; `None` is the panic of the default branch. */
  function Coerce(a: Arg): (w: Option<Word>)
    ensures w.Some? <==> Convertible(a)
    ensures a.Ptr? ==> w == Some(a.address)
    ensures a.Nil? ==> w == Some(0)
    ensures a.Bool? ==> w.value <= 1 && (w.value == 1 <==> a.b)
    ensures a.Unsigned? && InRange(a) ==> w.value == a.u
    ensures a.Signed? && InRange(a) ==> AsSigned(w.value) == a.i
    ensures a.Signed? && InRange(a) ==> w.value == if a.i < 0 then a.i + WORD_MOD else a.i
  {
    match a
    case Ptr(p) => Some(p)
    case Unsigned(_, u) => Some(u % WORD_MOD)
    case Signed(_, i) => Some(i % WORD_MOD)
    case Bool(b) => Some(if b then 1 else 0)
    case Nil => Some(0)
    case Other(_) => None
  }

  /** The outcome of converting a whole argument list. */
  datatype Coerced =
    | Words(words: seq<Word>)
    | BadKind(index: nat, kind: string)

  /**
   Converts the arguments left to right; the first unconvertible one stops
   the conversion and is reported by its position.
   */
  function CoerceAll(args: seq<Arg>): (c: Coerced)
    ensures c.Words? <==> forall i :: 0 <= i < |args| ==> Convertible(args[i])
    ensures c.Words? ==> |c.words| == |args|
    ensures c.Words? ==> forall i :: 0 <= i < |args| ==> Coerce(args[i]) == Some(c.words[i])
    ensures c.BadKind? ==> c.index < |args| && args[c.index] == Other(c.kind)
    ensures c.BadKind? ==> forall j :: 0 <= j < c.index ==> Convertible(args[j])
  {
    if |args| == 0 then Words([])
    else
      match Coerce(args[0])
      case None => BadKind(0, args[0].kind)
      case Some(w) =>
        match CoerceAll(args[1..])
        case Words(ws) => Words([w] + ws)
        case BadKind(i, k) => BadKind(i + 1, k)
  }
}

/** The serde value tree and, as functions, what each of the four passes of the
    streaming serializer computes on it. */
module Passes {
  import opened Bytes
  import opened SolidityAbi

  datatype Error =
    | TypeNotRepresentable(name: string)
    | TypeNotYetSupported(name: string)

  datatype Outcome = Pass | Fail(error: Error)

  datatype Computed<+T> = Success(value: T) | Failure(error: Error)

  /** The serializer runs on targets with 32-bit and with 64-bit pointers. */
  type PointerWidth = w: nat | w == 4 || w == 8 witness 4
  const USIZE_BYTES: PointerWidth
  type usize = n: nat | n < Pow256(USIZE_BYTES)
  const USIZE_MAX: usize := Pow256(USIZE_BYTES) - 1

  /** The calls a value makes on a serde serializer. Structs, tuple structs,
      newtype structs and fixed arrays all arrive as `Tuple`. */
  datatype Value =
    | UInt(width: nat, n: nat)
    | SInt(width: nat, i: int)
    | Blob(data: bytes)
    | Marker
    | Str(utf8: bytes)
    | Seq(elems: seq<Value>)
    | Tuple(elems: seq<Value>)
    | Unsupported(error: Error)

  /** What the Rust types guarantee about the numbers and lengths in a tree. */
  predicate InRange(v: Value) {
    match v
    case UInt(w, n) => NativeWidth(w) && n < Pow256(w)
    case SInt(w, i) => NativeWidth(w) && -Pow256(w) <= 2 * i < Pow256(w)
    case Seq(es) => |es| <= USIZE_MAX && forall k :: 0 <= k < |es| ==> InRange(es[k])
    case Tuple(es) => forall k :: 0 <= k < |es| ==> InRange(es[k])
    case _ => true
  }

  /** How the library's types present a Solidity value to serde: numbers up to
      128 bits natively, U256 and addresses as one 32-byte blob, `bytes` as the
      marker tuple, `T[]` as a sequence. */
  function Represent(s: Sol): Value {
    match s
    case Uint(w, n) => if w <= 16 then UInt(w, n) else Blob(ToBe(n, 32))
    case Int(w, i) => SInt(w, i)
    case Address(a) => Blob(AlignRight(a, 0))
    case FixedBytes(b) => Blob(b)
    case DynBytes(b) => Tuple([Marker, UInt(8, |b|), Blob(b)])
    case Text(b) => Str(b)
    case DynArray(es) => Seq(RepresentAll(es))
    case FixedArray(_, es) => Tuple(RepresentAll(es))
    case Struct(fs) => Tuple(RepresentAll(fs))
  }

  function RepresentAll(ss: seq<Sol>): (vs: seq<Value>)
    ensures |vs| == |ss| && forall k :: 0 <= k < |ss| ==> vs[k] == Represent(ss[k])
  {
    if ss == [] then [] else [Represent(ss[0])] + RepresentAll(ss[1..])
  }

  /** The error every pass meets first, if there is one. */
  function Check(v: Value): Outcome {
    match v
    case Unsupported(e) => Fail(e)
    case Seq(es) => CheckAll(es)
    case Tuple(es) => CheckAll(es)
    case _ => Pass
  }

  function CheckAll(vs: seq<Value>): Outcome {
    if vs == [] then Pass else
    if Check(vs[0]).Fail? then Check(vs[0]) else CheckAll(vs[1..])
  }

  // ----- Pass 1: head size and dynamic flags -----

  predicate IsFake(v: Value) { v.Marker? }

  predicate IsDyn(v: Value) {
    match v
    case Str(_) => true
    case Seq(_) => true
    case Tuple(es) => AnyDyn(es)
    case _ => false
  }

  predicate AnyDyn(vs: seq<Value>) {
    vs != [] && (IsDyn(vs[0]) || IsFake(vs[0]) || AnyDyn(vs[1..]))
  }

  function HeadSize(v: Value): nat {
    match v
    case UInt(_, _) => SLOT_SIZE
    case SInt(_, _) => SLOT_SIZE
    case Blob(b) => PaddedLen(|b|)
    case Seq(es) => SLOT_SIZE + HeadSizes(es)
    case Tuple(es) => HeadSizes(es)
    case _ => 0
  }

  function HeadSizes(vs: seq<Value>): nat {
    if vs == [] then 0
    else (if IsDyn(vs[0]) then SLOT_SIZE else HeadSize(vs[0])) + HeadSizes(vs[1..])
  }

  // ----- Pass 3: tail size -----

  function TailSize(v: Value): nat {
    match v
    case Str(b) => SLOT_SIZE + PaddedLen(|b|)
    case Seq(es) => TailSizes(es)
    case Tuple(es) => TailSizes(es)
    case _ => 0
  }

  function TailSizes(vs: seq<Value>): nat {
    if vs == [] then 0
    else (if IsDyn(vs[0]) then HeadSize(vs[0]) else 0) + TailSize(vs[0]) + TailSizes(vs[1..])
  }

  // ----- Pass 2: head output, with a running offset -----

  function AlignRight(b: bytes, filler: byte): (r: bytes)
    ensures |b| <= SLOT_SIZE ==> |r| == SLOT_SIZE
  {
    Fill(filler, if |b| <= SLOT_SIZE then SLOT_SIZE - |b| else 0) + b
  }

  /** 128-bit integers take the zero-filling route of the unsigned ones. */
  function SignedSlot(width: nat, i: int): bytes {
    AlignRight(ToBe(i, width), if i < 0 && width != 16 then 0xff else 0)
  }

  function HeadOut(v: Value, offset: int): bytes {
    match v
    case UInt(w, n) => AlignRight(ToBe(n, w), 0)
    case SInt(w, i) => SignedSlot(w, i)
    case Blob(b) => PadRight(b)
    case Seq(es) => Be32(|es|) + HeadsOut(es, offset, SLOT_SIZE)
    case Tuple(es) => HeadsOut(es, offset, 0)
    case _ => []
  }

  function HeadsOut(vs: seq<Value>, offset: int, reduction: nat): bytes {
    if vs == [] then []
    else if IsDyn(vs[0]) then
      Be32(offset - reduction) + HeadsOut(vs[1..], offset + HeadSize(vs[0]) + TailSize(vs[0]), reduction)
    else
      HeadOut(vs[0], USIZE_MAX) + HeadsOut(vs[1..], offset, reduction)
  }

  // ----- Pass 4: tail output -----

  function TailOut(v: Value): bytes {
    match v
    case Str(b) => Be32(|b|) + PadRight(b)
    case Seq(es) => TailsOut(es)
    case Tuple(es) => TailsOut(es)
    case _ => []
  }

  function TailsOut(vs: seq<Value>): bytes {
    if vs == [] then []
    else (if IsDyn(vs[0]) then HeadOut(vs[0], HeadSize(vs[0])) + TailOut(vs[0]) else []) + TailsOut(vs[1..])
  }

  /** Everything `to_writer` (with `outer`) or `to_fnargs_writer` (without)
      writes for a supported value. */
  function Stream(v: Value, outer: bool): bytes {
    (if IsDyn(v) && outer then Be32(SLOT_SIZE) else [])
    + HeadOut(v, HeadSize(v))
    + (if IsDyn(v) then TailOut(v) else [])
  }
}

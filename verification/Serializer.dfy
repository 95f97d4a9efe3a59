/** The streaming serializer itself: one mutable pass variable, a writer that
    receives 32-byte slots, and a fresh serializer for every nested pass. */
module Serializer {
  import opened Bytes
  import opened Passes
  import opened Cost

  class Writer {
    var out: bytes

    constructor ()
      ensures out == []
    {
      out := [];
    }

    method Write(slot: bytes)
      requires |slot| == SLOT_SIZE
      modifies this
      ensures out == old(out) + slot
    {
      out := out + slot;
    }
  }

  datatype PassState =
    | HeadSizePass(size: usize, isDynamic: bool, isFakeDynamic: bool)
    | HeadPass(offset: usize)
    | TailSizePass(tailSize: usize)
    | TailPass

  function KindOf(p: PassState): Kind {
    match p
    case HeadSizePass(_, _, _) => HeadSizing
    case HeadPass(_) => Heading
    case TailSizePass(_) => TailSizing
    case TailPass => Tailing
  }

  /** `n` visits were made: all that were due, or fewer because of an error. */
  predicate Spent(n: nat, due: nat, failed: bool) {
    n <= due && (!failed ==> n == due)
  }

  /** The encoded value has a length that fits a `usize`. */
  predicate Fits(v: Value) {
    InRange(v) && HeadSize(v) + TailSize(v) <= USIZE_MAX
  }

  // ----- The effect of a pass, from state p and output o to p' and o' -----

  ghost predicate Done(v: Value, p: PassState, o: bytes, p': PassState, o': bytes) {
    match p
    case HeadSizePass(size, d, f) =>
      && p'.HeadSizePass?
      && p'.size == size + HeadSize(v)
      && p'.isDynamic == (d || IsDyn(v))
      && p'.isFakeDynamic == (f || IsFake(v))
    case HeadPass(offset) => p'.HeadPass? && o' == o + HeadOut(v, offset)
    case TailSizePass(size) => p'.TailSizePass? && p'.tailSize == size + TailSize(v)
    case TailPass => p'.TailPass? && o' == o + TailOut(v)
  }

  ghost predicate ElementReady(e: Value, reduction: usize, p: PassState) {
    && Fits(e)
    && match p
       case HeadSizePass(size, _, _) => size + (if IsDyn(e) then SLOT_SIZE else HeadSize(e)) <= USIZE_MAX
       case HeadPass(offset) =>
         IsDyn(e) ==> reduction <= offset && offset + HeadSize(e) + TailSize(e) <= USIZE_MAX
       case TailSizePass(size) => size + (if IsDyn(e) then HeadSize(e) else 0) + TailSize(e) <= USIZE_MAX
       case TailPass => true
  }

  ghost predicate ElementDone(e: Value, reduction: usize, p: PassState, o: bytes, p': PassState, o': bytes) {
    match p
    case HeadSizePass(size, d, f) =>
      && p'.HeadSizePass?
      && p'.size == size + (if IsDyn(e) then SLOT_SIZE else HeadSize(e))
      && p'.isDynamic == (d || IsDyn(e) || IsFake(e))
      && p'.isFakeDynamic == f
    case HeadPass(offset) =>
      && p'.HeadPass?
      && if IsDyn(e) then p'.offset == offset + HeadSize(e) + TailSize(e) && o' == o + Be32(offset - reduction)
         else p'.offset == offset && o' == o + HeadOut(e, USIZE_MAX)
    case TailSizePass(size) =>
      p'.TailSizePass? && p'.tailSize == size + (if IsDyn(e) then HeadSize(e) else 0) + TailSize(e)
    case TailPass =>
      p'.TailPass? && o' == o + if IsDyn(e) then HeadOut(e, HeadSize(e)) + TailOut(e) else []
  }

  /** What is left to do for the elements `es` before state `q` with output `t` is reached. */
  ghost predicate Remaining(es: seq<Value>, reduction: usize, p: PassState, o: bytes, q: PassState, t: bytes) {
    match q
    case HeadSizePass(size, d, f) =>
      && p.HeadSizePass?
      && p.size + HeadSizes(es) == size
      && d == (p.isDynamic || AnyDyn(es))
      && f == p.isFakeDynamic
    case HeadPass(_) =>
      && p.HeadPass?
      && t == o + HeadsOut(es, p.offset, reduction)
      && (AnyDyn(es) ==> reduction <= p.offset && p.offset + TailSizes(es) <= USIZE_MAX)
    case TailSizePass(size) => p.TailSizePass? && p.tailSize + TailSizes(es) == size
    case TailPass => p.TailPass? && t == o + TailsOut(es)
  }

  ghost predicate ElementsReady(es: seq<Value>, reduction: usize, p: PassState) {
    match p
    case HeadSizePass(size, _, _) => size + HeadSizes(es) <= USIZE_MAX
    case HeadPass(offset) => AnyDyn(es) ==> reduction <= offset && offset + TailSizes(es) <= USIZE_MAX
    case TailSizePass(size) => size + TailSizes(es) <= USIZE_MAX
    case TailPass => true
  }

  ghost function GoalPass(es: seq<Value>, reduction: usize, p: PassState): PassState
    requires ElementsReady(es, reduction, p)
  {
    match p
    case HeadSizePass(size, d, f) => HeadSizePass(size + HeadSizes(es), d || AnyDyn(es), f)
    case TailSizePass(size) => TailSizePass(size + TailSizes(es))
    case _ => p
  }

  ghost function GoalOut(es: seq<Value>, reduction: usize, p: PassState, o: bytes): bytes {
    match p
    case HeadPass(offset) => o + HeadsOut(es, offset, reduction)
    case TailPass => o + TailsOut(es)
    case _ => o
  }

  lemma {:induction false} FirstElementReady(es: seq<Value>, reduction: usize, p: PassState, o: bytes, q: PassState, t: bytes)
    requires es != [] && Remaining(es, reduction, p, o, q, t) && Fits(es[0])
    ensures ElementReady(es[0], reduction, p)
  {
  }

  lemma {:induction false} FirstElementDone(es: seq<Value>, reduction: usize, p: PassState, o: bytes,
                         p': PassState, o': bytes, q: PassState, t: bytes)
    requires es != [] && Remaining(es, reduction, p, o, q, t)
    requires ElementDone(es[0], reduction, p, o, p', o')
    ensures Remaining(es[1..], reduction, p', o', q, t)
  {
    match q
    case HeadPass(_) => FirstHeadDone(es, reduction, p, o, p', o', q, t);
    case TailPass => Append(o, if IsDyn(es[0]) then HeadOut(es[0], HeadSize(es[0])) + TailOut(es[0]) else [], TailsOut(es[1..]));
    case _ =>
  }

  lemma {:induction false} FirstHeadDone(es: seq<Value>, reduction: usize, p: PassState, o: bytes,
                      p': PassState, o': bytes, q: PassState, t: bytes)
    requires q.HeadPass? && es != [] && Remaining(es, reduction, p, o, q, t)
    requires ElementDone(es[0], reduction, p, o, p', o')
    ensures Remaining(es[1..], reduction, p', o', q, t)
  {
    Append(o, if IsDyn(es[0]) then Be32(p.offset - reduction) else HeadOut(es[0], USIZE_MAX),
           HeadsOut(es[1..], p'.offset, reduction));
  }

  lemma {:induction false} PadLast(b: bytes, k: nat)
    requires k % SLOT_SIZE == 0 && k <= |b| < k + SLOT_SIZE
    ensures PadRight(b) == b[..k] + if k < |b| then b[k..] + Fill(0, SLOT_SIZE - (|b| - k)) else []
  {
    assert b[..k] + b[k..] == b;
  }

  lemma {:induction false} Append(a: bytes, b: bytes, c: bytes)
    ensures a + (b + c) == a + b + c
  {
  }

  lemma {:induction false} ElementFits(vs: seq<Value>, k: nat)
    requires k < |vs|
    ensures HeadSize(vs[k]) + TailSize(vs[k]) <= HeadSizes(vs) + TailSizes(vs)
  {
    if k > 0 {
      ElementFits(vs[1..], k - 1);
    }
  }

  /** A size pass has no writer at all; the original's `NoWriter` panics. */
  class Serializer {
    const writer: Writer?
    var pass: PassState

    constructor (writer: Writer?, pass: PassState)
      ensures this.writer == writer && this.pass == pass
    {
      this.writer := writer;
      this.pass := pass;
    }

    ghost predicate Valid()
      reads this
    {
      writer == null <==> pass.HeadSizePass? || pass.TailSizePass?
    }

    ghost function Out(): bytes
      reads this, writer
    {
      if writer == null then [] else writer.out
    }

    /** What the current pass may be asked to do with `v`. Only a dynamic value
        may look at the offset, and then it is the size of its own head. */
    ghost predicate Ready(v: Value)
      reads this
    {
      && Valid()
      && Fits(v)
      && match pass
         case HeadSizePass(size, _, _) => size + HeadSize(v) <= USIZE_MAX
         case HeadPass(offset) => IsDyn(v) ==> offset == HeadSize(v)
         case TailSizePass(size) => size + TailSize(v) <= USIZE_MAX
         case TailPass => true
    }

    // ----- Slot writing helpers -----

    method WriteAligned(b: bytes, filler: byte)
      requires writer != null && |b| <= SLOT_SIZE
      modifies writer
      ensures writer.out == old(writer.out) + AlignRight(b, filler)
    {
      writer.Write(Fill(filler, SLOT_SIZE - |b|) + b);
    }

    /** Writes a length or an offset. */
    method WriteUsize(n: usize)
      requires writer != null
      modifies writer
      ensures writer.out == old(writer.out) + Be32(n)
    {
      SignExtend(n, USIZE_BYTES);
      WriteAligned(ToBe(n, USIZE_BYTES), 0);
    }

    /** Whole chunks first, then the remainder padded on the right. */
    method WritePadded(b: bytes)
      requires writer != null
      modifies writer
      ensures writer.out == old(writer.out) + PadRight(b)
    {
      var k := 0;
      while |b| - k >= SLOT_SIZE
        invariant 0 <= k <= |b| && k % SLOT_SIZE == 0
        invariant writer.out == old(writer.out) + b[..k]
      {
        writer.Write(b[k..k + SLOT_SIZE]);
        k := k + SLOT_SIZE;
      }
      PadLast(b, k);
      if k < |b| {
        writer.Write(b[k..] + Fill(0, SLOT_SIZE - (|b| - k)));
      }
    }

    // ----- Passes -----

    static method ComputeSize(v: Value) returns (r: Computed<(usize, bool, bool)>, ghost n: nat)
      requires Fits(v)
      ensures Spent(n, Visits(HeadSizing, v), r.Failure?)
      ensures r == match Check(v)
                   case Pass => Success((HeadSize(v), IsDyn(v), IsFake(v)))
                   case Fail(e) => Failure(e)
      decreases v, 3
    {
      var s := new Serializer(null, HeadSizePass(0, false, false));
      var checked;
      checked, n := s.Serialize(v);
      if checked.Fail? {
        r := Failure(checked.error);
      } else {
        r := Success((s.pass.size, s.pass.isDynamic, s.pass.isFakeDynamic));
      }
    }

    static method GetTailSize(v: Value) returns (r: Computed<usize>, ghost n: nat)
      requires Fits(v)
      ensures Spent(n, Visits(TailSizing, v), r.Failure?)
      ensures r == match Check(v)
                   case Pass => Success(TailSize(v))
                   case Fail(e) => Failure(e)
      decreases v, 3
    {
      var s := new Serializer(null, TailSizePass(0));
      var checked;
      checked, n := s.Serialize(v);
      if checked.Fail? {
        r := Failure(checked.error);
      } else {
        r := Success(s.pass.tailSize);
      }
    }

    /** Runs a writing pass over `v` on the same writer. */
    method SerializeNested(v: Value, nested: PassState) returns (r: Outcome, ghost n: nat)
      requires writer != null && Fits(v)
      requires nested.HeadPass? || nested.TailPass?
      requires nested.HeadPass? && IsDyn(v) ==> nested.offset == HeadSize(v)
      modifies writer
      ensures Spent(n, Visits(KindOf(nested), v), r.Fail?)
      ensures r == Check(v)
      ensures r.Pass? ==>
                writer.out == old(writer.out) + if nested.HeadPass? then HeadOut(v, nested.offset) else TailOut(v)
      decreases v, 3
    {
      var s := new Serializer(writer, nested);
      r, n := s.Serialize(v);
    }

    /** One tuple component or sequence element. The offset that is written
        leaves out `reduction` bytes: the length slot of a sequence. */
    method SerializeTupleElement(e: Value, reduction: usize) returns (r: Outcome, ghost n: nat)
      requires Valid() && ElementReady(e, reduction, pass)
      modifies `pass, writer
      ensures Spent(n, ElementVisits(KindOf(old(pass)), e), r.Fail?)
      ensures Valid()
      ensures r == Check(e)
      ensures r.Pass? ==> ElementDone(e, reduction, old(pass), old(Out()), pass, Out())
      decreases e, 5
    {
      var computed;
      computed, n := ComputeSize(e);
      if computed.Failure? {
        return Fail(computed.error), n;
      }
      var (headSize, isDyn, isFake) := computed.value;
      ghost var more;
      match pass {
        case HeadSizePass(size, isDynamic, fake) =>
          pass := HeadSizePass(size + (if isDyn && !isFake then SLOT_SIZE else headSize),
                               isDynamic || isDyn || isFake, fake);
          r := Pass;
        case HeadPass(_) =>
          r, more := ElementHead(e, reduction, headSize, isDyn && !isFake);
          n := n + more;
        case TailSizePass(size) =>
          var tailSize;
          tailSize, more := GetTailSize(e);
          n := n + more;
          pass := TailSizePass(size + (if isDyn && !isFake then headSize else 0) + tailSize.value);
          r := Pass;
        case TailPass =>
          r, more := ElementTail(e, headSize, isDyn && !isFake);
          n := n + more;
      }
    }

    /** The head pass: an offset for a dynamic element, else the element itself. */
    method ElementHead(e: Value, reduction: usize, headSize: usize, isDyn: bool) returns (r: Outcome, ghost n: nat)
      requires Valid() && pass.HeadPass? && ElementReady(e, reduction, pass)
      requires Check(e).Pass? && headSize == HeadSize(e) && isDyn == IsDyn(e)
      modifies `pass, writer
      ensures Valid() && r.Pass?
      ensures n == if isDyn then Visits(TailSizing, e) else Visits(Heading, e)
      ensures ElementDone(e, reduction, old(pass), old(Out()), pass, Out())
      decreases e, 4
    {
      if isDyn {
        WriteUsize(pass.offset - reduction);
        var tailSize;
        tailSize, n := GetTailSize(e);
        pass := HeadPass(pass.offset + headSize + tailSize.value);
        r := Pass;
      } else {
        r, n := SerializeNested(e, HeadPass(USIZE_MAX));
      }
    }

    /** The tail pass: head and tail of a dynamic element, with offsets relative
        to that element. */
    method ElementTail(e: Value, headSize: usize, isDyn: bool) returns (r: Outcome, ghost n: nat)
      requires Valid() && pass.TailPass? && Fits(e)
      requires Check(e).Pass? && headSize == HeadSize(e) && isDyn == IsDyn(e)
      modifies writer
      ensures r.Pass?
      ensures n == if isDyn then Visits(Heading, e) + Visits(Tailing, e) else 0
      ensures Out() == old(Out()) + if isDyn then HeadOut(e, HeadSize(e)) + TailOut(e) else []
      decreases e, 4
    {
      r, n := Pass, 0;
      if isDyn {
        r, n := SerializeNested(e, HeadPass(headSize));
        ghost var more;
        r, more := SerializeNested(e, TailPass);
        n := n + more;
      }
    }

    /** The elements of a sequence or the components of a tuple, in order. */
    method SerializeElements(v: Value, reduction: usize) returns (r: Outcome, ghost n: nat)
      requires v.Seq? || v.Tuple?
      requires Valid() && Fits(v) && ElementsReady(v.elems, reduction, pass)
      modifies `pass, writer
      ensures Spent(n, VisitsAll(KindOf(old(pass)), v.elems), r.Fail?)
      ensures Valid()
      ensures r == CheckAll(v.elems)
      ensures r.Pass? ==>
                Remaining([], reduction, pass, Out(), GoalPass(v.elems, reduction, old(pass)),
                          GoalOut(v.elems, reduction, old(pass), old(Out())))
      decreases v, 0
    {
      ghost var q := GoalPass(v.elems, reduction, pass);
      ghost var t := GoalOut(v.elems, reduction, pass, Out());
      var es := v.elems;
      var k := 0;
      n := 0;
      ghost var kind, due := KindOf(pass), VisitsAll(KindOf(pass), es);
      assert es[0..] == es;
      while k < |es|
        invariant 0 <= k <= |es|
        invariant Valid()
        invariant CheckAll(es[k..]) == CheckAll(es)
        invariant n + VisitsAll(kind, es[k..]) == due && KindOf(pass) == kind
        invariant Remaining(es[k..], reduction, pass, Out(), q, t)
      {
        ElementFits(es, k);
        assert Fits(es[k..][0]);
        FirstElementReady(es[k..], reduction, pass, Out(), q, t);
        ghost var p, o := pass, Out();
        ghost var more;
        r, more := SerializeTupleElement(es[k], reduction);
        n := n + more;
        if r.Fail? {
          return;
        }
        FirstElementDone(es[k..], reduction, p, o, pass, Out(), q, t);
        assert es[k..][1..] == es[k + 1..];
        k := k + 1;
      }
      assert es[k..] == [];
      r := Pass;
    }

    method Serialize(v: Value) returns (r: Outcome, ghost n: nat)
      requires Ready(v)
      modifies `pass, writer
      ensures Spent(n, Visits(KindOf(old(pass)), v), r.Fail?)
      ensures Valid()
      ensures r == Check(v)
      ensures r.Pass? ==> Done(v, old(pass), old(Out()), pass, Out())
      decreases v, 2
    {
      n := 1;
      match v {
        case UInt(w, i) =>
          SerializeWord(ToBe(i, w), 0);
        case SInt(w, i) =>
          SerializeWord(ToBe(i, w), if i < 0 && w != 16 then 0xff else 0);
        case Blob(b) =>
          SerializeBytes(b);
        case Marker =>
          if pass.HeadSizePass? {
            pass := pass.(isFakeDynamic := true);
          }
        case Str(b) =>
          SerializeStr(b);
        case Seq(_) =>
          r, n := SerializeSeq(v);
          return;
        case Tuple(_) =>
          r, n := SerializeElements(v, 0);
          n := n + 1;
          return;
        case Unsupported(e) =>
          return Fail(e), n;
      }
      r := Pass;
    }

    /** The length slot of a sequence belongs to its head but does not count
        towards the offsets of its elements. */
    method SerializeSeq(v: Value) returns (r: Outcome, ghost n: nat)
      requires Ready(v) && v.Seq?
      modifies `pass, writer
      ensures Spent(n, Visits(KindOf(old(pass)), v), r.Fail?)
      ensures Valid()
      ensures r == Check(v)
      ensures r.Pass? ==> Done(v, old(pass), old(Out()), pass, Out())
      decreases v, 1
    {
      if pass.HeadSizePass? {
        pass := pass.(isDynamic := true, size := pass.size + SLOT_SIZE);
      } else if pass.HeadPass? {
        WriteUsize(|v.elems|);
      }
      ghost var o, o1, length := old(Out()), Out(), Be32(|v.elems|);
      r, n := SerializeElements(v, SLOT_SIZE);
      n := n + 1;
      if old(pass).HeadPass? && r.Pass? {
        ghost var elements := HeadsOut(v.elems, old(pass).offset, SLOT_SIZE);
        assert Out() == o1 + elements == o + (length + elements);
      }
    }

    /** All native integers: one slot in the head. */
    method SerializeWord(b: bytes, filler: byte)
      requires |b| <= SLOT_SIZE && Valid()
      requires pass.HeadSizePass? ==> pass.size + SLOT_SIZE <= USIZE_MAX
      modifies `pass, writer
      ensures pass == if old(pass).HeadSizePass? then old(pass).(size := old(pass).size + SLOT_SIZE) else old(pass)
      ensures Out() == old(Out()) + if pass.HeadPass? then AlignRight(b, filler) else []
    {
      if pass.HeadSizePass? {
        pass := pass.(size := pass.size + SLOT_SIZE);
      } else if pass.HeadPass? {
        WriteAligned(b, filler);
      }
    }

    method SerializeBytes(b: bytes)
      requires Valid()
      requires pass.HeadSizePass? ==> pass.size + PaddedLen(|b|) <= USIZE_MAX
      modifies `pass, writer
      ensures pass == if old(pass).HeadSizePass? then old(pass).(size := old(pass).size + PaddedLen(|b|)) else old(pass)
      ensures Out() == old(Out()) + if pass.HeadPass? then PadRight(b) else []
    {
      if pass.HeadSizePass? {
        var r := |b| % SLOT_SIZE;
        pass := pass.(size := pass.size + (|b| - r) + (if r == 0 then 0 else SLOT_SIZE));
      } else if pass.HeadPass? {
        WritePadded(b);
      }
    }

    method SerializeStr(b: bytes)
      requires Valid() && SLOT_SIZE + PaddedLen(|b|) <= USIZE_MAX
      requires pass.TailSizePass? ==> pass.tailSize + SLOT_SIZE + PaddedLen(|b|) <= USIZE_MAX
      modifies `pass, writer
      ensures pass == match old(pass)
                      case HeadSizePass(s, _, f) => HeadSizePass(s, true, f)
                      case TailSizePass(s) => TailSizePass(s + SLOT_SIZE + PaddedLen(|b|))
                      case _ => old(pass)
      ensures Out() == old(Out()) + if pass.TailPass? then Be32(|b|) + PadRight(b) else []
    {
      match pass {
        case HeadSizePass(_, _, _) =>
          pass := pass.(isDynamic := true);
        case HeadPass(_) =>
        case TailSizePass(s) =>
          var r := |b| % SLOT_SIZE;
          pass := TailSizePass(s + SLOT_SIZE + (|b| - r) + (if r == 0 then 0 else SLOT_SIZE));
        case TailPass =>
          WriteUsize(|b|);
          WritePadded(b);
      }
    }
  }

  /** `to_writer` and, without the outer offset, `to_fnargs_writer`. A value with
      an unsupported leaf is refused before the first slot is written. */
  method ToWriter(v: Value, writer: Writer, outer: bool) returns (r: Outcome, ghost visits: nat)
    requires Fits(v)
    modifies writer
    ensures Spent(visits, StreamVisits(v), r.Fail?)
    ensures visits <= Nodes(v) * (1 + Depth(v) + Depth(v) * Depth(v))
    ensures r == Check(v)
    ensures writer.out == old(writer.out) + if r.Pass? then Stream(v, outer) else []
  {
    StreamVisitsBound(v);
    var size;
    size, visits := Serializer.ComputeSize(v);
    if size.Failure? {
      return Fail(size.error), visits;
    }
    ghost var more;
    var (headSize, isDynamic, _) := size.value;
    var s := new Serializer(writer, HeadPass(headSize));
    if isDynamic && outer {
      s.WriteUsize(SLOT_SIZE);
    }
    ghost var o, o1 := old(writer.out), writer.out;
    r, more := s.Serialize(v);
    visits := visits + more;
    ghost var o2 := writer.out;
    if isDynamic {
      s.pass := TailPass;
      r, more := s.Serialize(v);
      visits := visits + more;
    }
    JoinOutput(o, o1, o2, writer.out,
               if isDynamic && outer then Be32(SLOT_SIZE) else [],
               HeadOut(v, HeadSize(v)),
               if isDynamic then TailOut(v) else []);
  }

  lemma {:induction false} JoinOutput(o: bytes, o1: bytes, o2: bytes, o3: bytes, a: bytes, b: bytes, c: bytes)
    requires o1 == o + a && o2 == o1 + b && o3 == o2 + c
    ensures o3 == o + (a + b + c)
  {
  }
}

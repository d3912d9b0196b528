/** What a writer does to values that do not fit: numbers and counts are cut to their width, nothing is checked. */
module WireLaws {
  import opened Format
  import opened FormatLaws
  import opened Words

  // ---------------------------------------------------------------------------------------------
  // A format without its limits

  /** The same layout, with every number of its width and every count let through. */
  function Lifted(f: Fmt): Fmt {
    match f
    case FUnit => FUnit
    case FNum(w, _, _) => FNum(w, 0, Range(w) - 1)
    case FBool => FBool
    case FStr => FStr
    case FPair(f0, f1) => FPair(Lifted(f0), Lifted(f1))
    case FQuad(f0, f1, f2, f3) => FQuad(Lifted(f0), Lifted(f1), Lifted(f2), Lifted(f3))
    case FList(_, elem) => FList(COUNT_RANGE - 1, Lifted(elem))
  }

  lemma {:induction false} ConformsLifted(f: Fmt, v: Val)
    requires Conforms(f, v)
    ensures Conforms(Lifted(f), v)
    decreases f, 0, 0
  {
    match f
    case FPair(f0, f1) =>
      ConformsLifted(f0, v.first);
      ConformsLifted(f1, v.second);
    case FQuad(f0, f1, f2, f3) =>
      ConformsLifted(f0, v.part0);
      ConformsLifted(f1, v.part1);
      ConformsLifted(f2, v.part2);
      ConformsLifted(f3, v.part3);
    case FList(_, elem) =>
      ConformsTimesLifted(elem, v.count, v.body);
    case _ =>
  }

  lemma {:induction false} ConformsTimesLifted(f: Fmt, n: nat, v: Val)
    requires ConformsTimes(f, n, v)
    ensures ConformsTimes(Lifted(f), n, v)
    decreases f, 1, n
  {
    if n > 0 {
      ConformsTimesLifted(f, n - 1, v.first);
      ConformsLifted(f, v.second);
    }
  }

  /** A buffer spells one value of a layout at most, whatever the limits. */
  lemma SpellsOne(f: Fmt, b: Bytes, v: Val, u: Val)
    requires Conforms(Lifted(f), v) && Spells(b, 0, v)
    requires Conforms(Lifted(f), u) && Spells(b, 0, u)
    ensures v == u
  {
    DecExact(Lifted(f), b, 0, v, Size(v));
    DecExact(Lifted(f), b, 0, u, Size(u));
  }

  /** What is written of a value that fits its widths reads, within the limits, as that value or not at all. */
  lemma WrittenReadsAs(f: Fmt, v: Val, u: Val, end: nat)
    requires Conforms(Lifted(f), v)
    requires Dec(f, Encode(v), 0) == Item(u, end)
    ensures u == v
  {
    ConformsEncodable(Lifted(f), v);
    EmitSpells(v, []);
    DecExact(f, Encode(v), 0, u, end);
    ConformsLifted(f, u);
    SpellsOne(f, Encode(v), v, u);
  }

  // ---------------------------------------------------------------------------------------------
  // Values that are written alike

  ghost predicate SameWire(v: Val, u: Val) {
    forall acc :: Emit(v, acc) == Emit(u, acc)
  }

  lemma PairSameWire(v0: Val, v1: Val, u0: Val, u1: Val)
    requires SameWire(v0, u0) && SameWire(v1, u1)
    ensures SameWire(VPair(v0, v1), VPair(u0, u1))
  {
    forall acc
      ensures Emit(VPair(v0, v1), acc) == Emit(VPair(u0, u1), acc)
    {
      assert Emit(v0, acc) == Emit(u0, acc);
      assert Emit(v1, Emit(v0, acc)) == Emit(u1, Emit(v0, acc));
    }
  }

  lemma QuadSameWire(v0: Val, v1: Val, v2: Val, v3: Val, u0: Val, u1: Val, u2: Val, u3: Val)
    requires SameWire(v0, u0) && SameWire(v1, u1) && SameWire(v2, u2) && SameWire(v3, u3)
    ensures SameWire(VQuad(v0, v1, v2, v3), VQuad(u0, u1, u2, u3))
  {
    forall acc
      ensures Emit(VQuad(v0, v1, v2, v3), acc) == Emit(VQuad(u0, u1, u2, u3), acc)
    {
      var a1 := Emit(v0, acc);
      var a2 := Emit(v1, a1);
      var a3 := Emit(v2, a2);
      assert Emit(v0, acc) == Emit(u0, acc) && Emit(v1, a1) == Emit(u1, a1);
      assert Emit(v2, a2) == Emit(u2, a2) && Emit(v3, a3) == Emit(u3, a3);
    }
  }

  lemma {:induction false} BodySameWire<T>(layout: T -> Val, xs: seq<T>, ys: seq<T>)
    requires |xs| == |ys| && forall i :: 0 <= i < |xs| ==> SameWire(layout(xs[i]), layout(ys[i]))
    ensures SameWire(Body(layout, xs), Body(layout, ys))
  {
    hide SameWire;
    if xs == [] {
      SameWireSelf(VUnit);
    } else {
      var n := |xs| - 1;
      BodySameWire(layout, xs[..n], ys[..n]);
      PairSameWire(Body(layout, xs[..n]), layout(xs[n]), Body(layout, ys[..n]), layout(ys[n]));
    }
  }

  lemma SameWireSelf(v: Val)
    ensures SameWire(v, v)
  {
  }

  lemma ListSameWire<T>(layout: T -> Val, xs: seq<T>, ys: seq<T>)
    requires |xs| == |ys| && forall i :: 0 <= i < |xs| ==> SameWire(layout(xs[i]), layout(ys[i]))
    ensures SameWire(ListOf(layout, xs), ListOf(layout, ys))
  {
    BodySameWire(layout, xs, ys);
    forall acc: Bytes
      ensures Emit(ListOf(layout, xs), acc) == Emit(ListOf(layout, ys), acc)
    {
      assert Emit(Body(layout, xs), acc + LE(4, |xs|)) == Emit(Body(layout, ys), acc + LE(4, |xs|));
    }
  }

  /** A number is cut to 32 bits on the wire. */
  lemma CutSameWire(n: nat)
    ensures SameWire(VNum(4, n), VNum(4, n % COUNT_RANGE))
  {
    LETruncates(n);
  }
}

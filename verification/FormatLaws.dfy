/** The laws every format obeys, proved once by induction on formats and inherited by the archive. */
module FormatLaws {
  import opened Format
  import opened Words

  // ---------------------------------------------------------------------------------------------
  // The reader accepts exactly the buffers that spell a conforming value

  lemma {:induction false} SpellsFits(b: Bytes, o: nat, v: Val)
    requires Spells(b, o, v)
    ensures o + Size(v) <= |b|
    decreases Rank(v)
  {
    match v
    case VPair(v0, v1) =>
      SpellsFits(b, o + Size(v0), v1);
    case VQuad(v0, v1, v2, v3) =>
      SpellsFits(b, o, Paired(v0, v1, v2, v3));
    case VList(_, body) =>
      SpellsFits(b, o + 4, body);
    case _ =>
  }

  /** A measure for recursion over formats. */
  function Weight(f: Fmt): nat {
    match f
    case FPair(f0, f1) => 1 + Weight(f0) + Weight(f1)
    case FQuad(f0, f1, f2, f3) => 4 + Weight(f0) + Weight(f1) + Weight(f2) + Weight(f3)
    case FList(_, elem) => 1 + Weight(elem)
    case _ => 0
  }

  function FPaired(f0: Fmt, f1: Fmt, f2: Fmt, f3: Fmt): (f: Fmt)
    ensures Weight(f) < Weight(FQuad(f0, f1, f2, f3))
  {
    assert Weight(FPair(f0, f1)) == 1 + Weight(f0) + Weight(f1);
    FPair(FPair(f0, f1), FPair(f2, f3))
  }

  /** Two parts are read one after the other... */
  lemma DecPair(f0: Fmt, f1: Fmt, b: Bytes, o: nat)
    requires o <= |b|
    ensures var r0 := Dec(f0, b, o);
            Dec(FPair(f0, f1), b, o) ==
            if r0.NoItem? || Dec(f1, b, r0.end).NoItem? then NoItem
            else Item(VPair(r0.v, Dec(f1, b, r0.end).v), Dec(f1, b, r0.end).end)
  {
  }

  /** ... and so are four. */
  lemma DecQuad(f0: Fmt, f1: Fmt, f2: Fmt, f3: Fmt, b: Bytes, o: nat)
    requires o <= |b|
    ensures Dec(FQuad(f0, f1, f2, f3), b, o) ==
            var r0 := Dec(f0, b, o);
            if r0.NoItem? then NoItem else
            var r1 := Dec(f1, b, r0.end);
            if r1.NoItem? then NoItem else
            var r2 := Dec(f2, b, r1.end);
            if r2.NoItem? then NoItem else
            var r3 := Dec(f3, b, r2.end);
            if r3.NoItem? then NoItem else
            Item(VQuad(r0.v, r1.v, r2.v, r3.v), r3.end)
  {
  }

  /** Four parts are read as two pairs are. */
  lemma DecQuadIsPairs(f0: Fmt, f1: Fmt, f2: Fmt, f3: Fmt, b: Bytes, o: nat)
    requires o <= |b|
    ensures var quad, pairs := Dec(FQuad(f0, f1, f2, f3), b, o), Dec(FPaired(f0, f1, f2, f3), b, o);
            && (quad.NoItem? ==> pairs.NoItem?)
            && (quad.Item? ==>
                  && quad.v.VQuad?
                  && pairs == Item(Paired(quad.v.part0, quad.v.part1, quad.v.part2, quad.v.part3), quad.end))
  {
    DecPair(FPair(f0, f1), FPair(f2, f3), b, o);
    DecPair(f0, f1, b, o);
    DecQuad(f0, f1, f2, f3, b, o);
    hide Dec;
    var r0 := Dec(f0, b, o);
    if r0.Item? && Dec(f1, b, r0.end).Item? {
      DecPair(f2, f3, b, Dec(f1, b, r0.end).end);
    }
  }

  lemma ConformsQuadIsPairs(f0: Fmt, f1: Fmt, f2: Fmt, f3: Fmt, v0: Val, v1: Val, v2: Val, v3: Val)
    ensures Conforms(FQuad(f0, f1, f2, f3), VQuad(v0, v1, v2, v3))
         == Conforms(FPaired(f0, f1, f2, f3), Paired(v0, v1, v2, v3))
  {
    assert Conforms(FPair(f0, f1), VPair(v0, v1)) == (Conforms(f0, v0) && Conforms(f1, v1));
    assert Conforms(FPair(f2, f3), VPair(v2, v3)) == (Conforms(f2, v2) && Conforms(f3, v3));
  }

  lemma {:induction false} DecSound(f: Fmt, b: Bytes, o: nat)
    requires o <= |b| && Dec(f, b, o).Item?
    ensures var Item(v, end) := Dec(f, b, o); Conforms(f, v) && Spells(b, o, v) && end == o + Size(v)
    decreases Weight(f), 1, 0
  {
    match f
    case FUnit =>
    case FNum(w, _, _) =>
      LEAtInRange(b, o, w);
    case FBool =>
    case FStr =>
      LEAtInRange(b, o, 2);
      assert Range(1) == 0x100 && Range(2) == 0x1_0000;
    case FPair(f0, f1) =>
      DecPairSound(f0, f1, b, o);
    case FQuad(f0, f1, f2, f3) =>
      DecQuadSound(f0, f1, f2, f3, b, o);
    case FList(_, elem) =>
      LEAtInRange(b, o, 4);
      DecTimesSound(elem, LEAt(b, o, 4), b, o + 4);
  }

  lemma {:induction false} DecPairSound(f0: Fmt, f1: Fmt, b: Bytes, o: nat)
    requires o <= |b| && Dec(FPair(f0, f1), b, o).Item?
    ensures var f := FPair(f0, f1);
            var Item(v, end) := Dec(f, b, o); Conforms(f, v) && Spells(b, o, v) && end == o + Size(v)
    decreases Weight(FPair(f0, f1)), 0, 0
  {
    DecPair(f0, f1, b, o);
    hide Dec;
    DecSound(f0, b, o);
    DecSound(f1, b, Dec(f0, b, o).end);
  }

  lemma {:induction false} DecQuadSound(f0: Fmt, f1: Fmt, f2: Fmt, f3: Fmt, b: Bytes, o: nat)
    requires o <= |b| && Dec(FQuad(f0, f1, f2, f3), b, o).Item?
    ensures var f := FQuad(f0, f1, f2, f3);
            var Item(v, end) := Dec(f, b, o); Conforms(f, v) && Spells(b, o, v) && end == o + Size(v)
    decreases Weight(FPaired(f0, f1, f2, f3)), 3, 0
  {
    DecQuadIsPairs(f0, f1, f2, f3, b, o);
    DecSound(FPaired(f0, f1, f2, f3), b, o);
    var v := Dec(FQuad(f0, f1, f2, f3), b, o).v;
    ConformsQuadIsPairs(f0, f1, f2, f3, v.part0, v.part1, v.part2, v.part3);
  }

  lemma {:induction false} DecTimesSound(f: Fmt, n: nat, b: Bytes, o: nat)
    requires o <= |b| && DecTimes(f, n, b, o).Item?
    ensures var Item(v, end) := DecTimes(f, n, b, o);
            ConformsTimes(f, n, v) && Spells(b, o, v) && end == o + Size(v)
    decreases Weight(f), 2, n
  {
    if n > 0 {
      DecTimesSound(f, n - 1, b, o);
      DecSound(f, b, DecTimes(f, n - 1, b, o).end);
    }
  }

  lemma {:induction false} DecComplete(f: Fmt, b: Bytes, o: nat, v: Val)
    requires o <= |b| && Conforms(f, v) && Spells(b, o, v)
    ensures Dec(f, b, o) == Item(v, o + Size(v))
    decreases Weight(f), 1, 0
  {
    match f
    case FPair(f0, f1) =>
      DecPairComplete(f0, f1, b, o, v.first, v.second);
    case FQuad(f0, f1, f2, f3) =>
      DecQuadIsPairs(f0, f1, f2, f3, b, o);
      ConformsQuadIsPairs(f0, f1, f2, f3, v.part0, v.part1, v.part2, v.part3);
      DecComplete(FPaired(f0, f1, f2, f3), b, o, Paired(v.part0, v.part1, v.part2, v.part3));
    case FList(_, elem) =>
      DecTimesComplete(elem, v.count, b, o + 4, v.body);
    case _ =>
  }

  lemma {:induction false} DecPairComplete(f0: Fmt, f1: Fmt, b: Bytes, o: nat, v0: Val, v1: Val)
    requires o <= |b| && Conforms(f0, v0) && Conforms(f1, v1) && Spells(b, o, VPair(v0, v1))
    ensures Dec(FPair(f0, f1), b, o) == Item(VPair(v0, v1), o + Size(VPair(v0, v1)))
    decreases Weight(FPair(f0, f1)), 0, 0
  {
    DecPair(f0, f1, b, o);
    hide Dec;
    SpellsFits(b, o, v0);
    DecComplete(f0, b, o, v0);
    DecComplete(f1, b, o + Size(v0), v1);
  }

  lemma {:induction false} DecTimesComplete(f: Fmt, n: nat, b: Bytes, o: nat, v: Val)
    requires o <= |b| && ConformsTimes(f, n, v) && Spells(b, o, v)
    ensures DecTimes(f, n, b, o) == Item(v, o + Size(v))
    decreases Weight(f), 2, n
  {
    hide Dec, Conforms;
    if n > 0 {
      var o1 := o + Size(v.first);
      SpellsFits(b, o, v.first);
      DecTimesComplete(f, n - 1, b, o, v.first);
      DecComplete(f, b, o1, v.second);
    }
  }

  /** The reader of a format, characterised: it accepts exactly the conforming values that are spelled. */
  lemma DecExact(f: Fmt, b: Bytes, o: nat, v: Val, end: nat)
    requires o <= |b|
    ensures Dec(f, b, o) == Item(v, end) <==> Conforms(f, v) && Spells(b, o, v) && end == o + Size(v)
  {
    if Dec(f, b, o).Item? {
      DecSound(f, b, o);
    }
    if Conforms(f, v) && Spells(b, o, v) {
      DecComplete(f, b, o, v);
    }
  }

  // ---------------------------------------------------------------------------------------------
  // Which buffers spell the same value

  /** Two buffers that spell one value at one offset agree there, up to the spelling of true... */
  lemma {:induction false} SpellsAgree(b: Bytes, c: Bytes, o: nat, v: Val)
    requires Spells(b, o, v) && Spells(c, o, v)
    ensures Alike(b, c, o, o + Size(v), Bools(v, o))
    decreases Rank(v)
  {
    match v
    case VUnit =>
    case VNum(w, _) =>
      NumberAgrees(b, c, o, w);
    case VBool(_) =>
    case VStr(s) =>
      StringAgrees(b, c, o, s);
    case VPair(v0, v1) =>
      var o1 := o + Size(v0);
      SpellsAgree(b, c, o, v0);
      SpellsAgree(b, c, o1, v1);
      AlikeJoin(b, c, o, o1, o + Size(v), Bools(v0, o), Bools(v1, o1));
    case VQuad(v0, v1, v2, v3) =>
      SpellsAgree(b, c, o, Paired(v0, v1, v2, v3));
    case VList(_, body) =>
      NumberAgrees(b, c, o, 4);
      SpellsAgree(b, c, o + 4, body);
      AlikeJoin(b, c, o, o + 4, o + Size(v), {}, Bools(v, o));
  }

  /** ... and a buffer that agrees with a spelling of a value spells it too. */
  lemma {:induction false} AlikeSpells(b: Bytes, c: Bytes, o: nat, v: Val)
    requires Spells(b, o, v) && o <= |c| && Alike(b, c, o, o + Size(v), Bools(v, o))
    ensures Spells(c, o, v)
    decreases Rank(v)
  {
    match v
    case VUnit =>
    case VNum(w, _) =>
      NumberAgrees(b, c, o, w);
    case VBool(_) =>
    case VStr(s) =>
      StringAgrees(b, c, o, s);
    case VPair(v0, v1) =>
      var o1 := o + Size(v0);
      AlikeJoin(b, c, o, o1, o + Size(v), Bools(v0, o), Bools(v1, o1));
      AlikeSpells(b, c, o, v0);
      AlikeSpells(b, c, o1, v1);
    case VQuad(v0, v1, v2, v3) =>
      AlikeSpells(b, c, o, Paired(v0, v1, v2, v3));
    case VList(_, body) =>
      AlikeJoin(b, c, o, o + 4, o + Size(v), {}, Bools(v, o));
      NumberAgrees(b, c, o, 4);
      AlikeSpells(b, c, o + 4, body);
  }

  lemma AlikeJoin(b: Bytes, c: Bytes, lo: nat, mid: nat, hi: nat, left: set<nat>, right: set<nat>)
    requires lo <= mid <= hi
    requires forall i :: i in left ==> lo <= i < mid
    requires forall i :: i in right ==> mid <= i < hi
    ensures Alike(b, c, lo, hi, left + right) <==> Alike(b, c, lo, mid, left) && Alike(b, c, mid, hi, right)
    ensures {} + right == right
  {
  }

  lemma NumberAgrees(b: Bytes, c: Bytes, o: nat, width: nat)
    requires o + width <= |b| && o + width <= |c|
    ensures LEAt(b, o, width) == LEAt(c, o, width) <==> Alike(b, c, o, o + width, {})
  {
    LEAtSame(b, o, c, o, width);
    SliceAgrees(b, c, o, o + width);
  }

  lemma StringAgrees(b: Bytes, c: Bytes, o: nat, s: Bytes)
    requires Spells(b, o, VStr(s))
    ensures Spells(c, o, VStr(s)) <==> Alike(b, c, o, o + 2 + |s|, {})
  {
    if o + 2 + |s| <= |c| {
      NumberAgrees(b, c, o, 2);
      SliceAgrees(b, c, o + 2, o + 2 + |s|);
    }
  }

  lemma SliceAgrees(b: Bytes, c: Bytes, lo: nat, hi: nat)
    requires lo <= hi <= |b| && hi <= |c|
    ensures b[lo..hi] == c[lo..hi] <==> Alike(b, c, lo, hi, {})
  {
    if b[lo..hi] == c[lo..hi] {
      forall i | lo <= i < hi ensures b[i] == c[i] {
        assert b[lo..hi][i - lo] == c[lo..hi][i - lo];
      }
    }
  }

  // ---------------------------------------------------------------------------------------------
  // What a writer leaves behind

  /** Nothing in `v` is cut short on the wire. */
  predicate Encodable(v: Val)
    decreases Rank(v)
  {
    match v
    case VUnit => true
    case VNum(w, n) => n < Range(w)
    case VBool(_) => true
    case VStr(s) => |s| <= 0xFFFF
    case VPair(v0, v1) => Encodable(v0) && Encodable(v1)
    case VQuad(v0, v1, v2, v3) => Encodable(Paired(v0, v1, v2, v3))
    case VList(n, body) => n < COUNT_RANGE && Encodable(body)
  }

  lemma {:induction false} ConformsEncodable(f: Fmt, v: Val)
    requires Conforms(f, v)
    ensures Encodable(v)
    decreases Weight(f), 0, 0
  {
    match f
    case FPair(f0, f1) =>
      ConformsEncodable(f0, v.first);
      ConformsEncodable(f1, v.second);
    case FQuad(f0, f1, f2, f3) =>
      ConformsQuadIsPairs(f0, f1, f2, f3, v.part0, v.part1, v.part2, v.part3);
      ConformsEncodable(FPaired(f0, f1, f2, f3), Paired(v.part0, v.part1, v.part2, v.part3));
    case FList(_, elem) =>
      ConformsTimesEncodable(elem, v.count, v.body);
    case _ =>
  }

  lemma {:induction false} ConformsTimesEncodable(f: Fmt, n: nat, v: Val)
    requires ConformsTimes(f, n, v)
    ensures Encodable(v)
    decreases Weight(f), 1, n
  {
    if n > 0 {
      ConformsTimesEncodable(f, n - 1, v.first);
      ConformsEncodable(f, v.second);
    }
  }

  /** Writing appends; an encodable value is spelled where it was written. */
  lemma {:induction false} EmitSpells(v: Val, acc: Bytes)
    ensures acc <= Emit(v, acc) && |Emit(v, acc)| == |acc| + Size(v)
    ensures Encodable(v) ==> Spells(Emit(v, acc), |acc|, v)
    decreases Rank(v), 0
  {
    match v
    case VUnit =>
    case VNum(w, n) =>
      LEAtLE(Emit(v, acc), |acc|, w, n);
    case VBool(_) =>
    case VStr(s) =>
      LEAtLE(Emit(v, acc), |acc|, 2, |s|);
      assert Range(1) == 0x100 && Range(2) == 0x1_0000;
    case VPair(v0, v1) =>
      EmitPairSpells(v0, v1, acc);
    case VQuad(v0, v1, v2, v3) =>
      assert Emit(VPair(v0, v1), acc) == Emit(v1, Emit(v0, acc));
      assert Emit(v, acc) == Emit(Paired(v0, v1, v2, v3), acc);
      EmitSpells(Paired(v0, v1, v2, v3), acc);
    case VList(n, body) =>
      EmitListSpells(n, body, acc);
  }

  /** A writer spells true as 1. */
  lemma {:induction false} EmitSpellsBools(v: Val, acc: Bytes)
    ensures |Emit(v, acc)| == |acc| + Size(v)
    ensures forall i :: i in Bools(v, |acc|) ==> Emit(v, acc)[i] <= 1
    decreases Rank(v), 0
  {
    EmitSpells(v, acc);
    match v
    case VPair(v0, v1) =>
      EmitPairSpellsBools(v0, v1, acc);
    case VQuad(v0, v1, v2, v3) =>
      assert Emit(VPair(v0, v1), acc) == Emit(v1, Emit(v0, acc));
      assert Emit(v, acc) == Emit(Paired(v0, v1, v2, v3), acc);
      EmitSpellsBools(Paired(v0, v1, v2, v3), acc);
    case VList(n, body) =>
      EmitSpellsBools(body, acc + LE(4, n));
    case _ =>
  }

  lemma {:induction false} EmitPairSpellsBools(v0: Val, v1: Val, acc: Bytes)
    ensures var v := VPair(v0, v1);
            && |Emit(v, acc)| == |acc| + Size(v)
            && forall i :: i in Bools(v, |acc|) ==> Emit(v, acc)[i] <= 1
    decreases Rank(v0) + Rank(v1), 1
  {
    var b0 := Emit(v0, acc);
    EmitSpells(v0, acc);
    EmitSpells(v1, b0);
    EmitSpellsBools(v0, acc);
    EmitSpellsBools(v1, b0);
    forall i | i in Bools(v0, |acc|) ensures Emit(v1, b0)[i] == b0[i] {
    }
  }

  lemma {:induction false} EmitPairSpells(v0: Val, v1: Val, acc: Bytes)
    ensures var v := VPair(v0, v1);
            && acc <= Emit(v, acc) && |Emit(v, acc)| == |acc| + Size(v)
            && (Encodable(v) ==> Spells(Emit(v, acc), |acc|, v))
    decreases Rank(v0) + Rank(v1), 1
  {
    var b0 := Emit(v0, acc);
    var b1 := Emit(v1, b0);
    EmitSpells(v0, acc);
    EmitSpells(v1, b0);
    if Encodable(v0) {
      AlikeSpells(b0, b1, |acc|, v0);
    }
  }

  lemma {:induction false} EmitListSpells(n: nat, body: Val, acc: Bytes)
    ensures var v := VList(n, body);
            && acc <= Emit(v, acc) && |Emit(v, acc)| == |acc| + Size(v)
            && (Encodable(v) ==> Spells(Emit(v, acc), |acc|, v))
    decreases Rank(body), 1
  {
    var b0 := acc + LE(4, n);
    var b1 := Emit(body, b0);
    EmitSpells(body, b0);
    assert b1[|acc|..|acc| + 4] == b0[|acc|..|acc| + 4] == LE(4, n);
    assert Range(2) == 0x1_0000 && Range(4) == COUNT_RANGE;
    LEAtLE(b1, |acc|, 4, n);
  }

  /**
   The language of a format: reading all of `b` gives `v` exactly when `v` is within the limits of the format
   and `b` is what a writer produces for `v`, up to the spelling of true.
   */
  lemma LanguageOf(f: Fmt, b: Bytes, v: Val)
    ensures Dec(f, b, 0) == Item(v, |b|)
       <==> Conforms(f, v) && |b| == |Encode(v)| && Alike(Encode(v), b, 0, |b|, Bools(v, 0))
  {
    EmitSpells(v, []);
    DecExact(f, b, 0, v, |b|);
    if Conforms(f, v) {
      ConformsEncodable(f, v);
      if Spells(b, 0, v) && |b| == Size(v) {
        SpellsAgree(Encode(v), b, 0, v);
      }
      if |b| == |Encode(v)| && Alike(Encode(v), b, 0, |b|, Bools(v, 0)) {
        AlikeSpells(Encode(v), b, 0, v);
      }
    }
  }

  // ---------------------------------------------------------------------------------------------
  // Lists of typed values

  lemma BodySnoc<T>(layout: T -> Val, xs: seq<T>, x: T)
    ensures Body(layout, xs + [x]) == VPair(Body(layout, xs), layout(x))
  {
    assert (xs + [x])[..|xs|] == xs;
  }

  lemma BodyUpTo<T>(layout: T -> Val, xs: seq<T>, i: nat)
    requires i < |xs|
    ensures Body(layout, xs[..i + 1]) == VPair(Body(layout, xs[..i]), layout(xs[i]))
  {
    assert xs[..i + 1] == xs[..i] + [xs[i]];
    BodySnoc(layout, xs[..i], xs[i]);
  }

  /** The elements of a list are within limits exactly when its body is. */
  lemma {:induction false} BodyConforms<T>(layout: T -> Val, f: Fmt, xs: seq<T>)
    ensures ConformsTimes(f, |xs|, Body(layout, xs)) <==> forall i :: 0 <= i < |xs| ==> Conforms(f, layout(xs[i]))
  {
    if xs != [] {
      BodyConforms(layout, f, xs[..|xs| - 1]);
    }
  }

  /** A layout that tells elements apart tells lists of them apart. */
  lemma {:induction false} BodyInjective<T>(layout: T -> Val, xs: seq<T>, ys: seq<T>)
    requires |xs| == |ys| && Body(layout, xs) == Body(layout, ys)
    requires forall i :: 0 <= i < |xs| ==> (layout(xs[i]) == layout(ys[i]) ==> xs[i] == ys[i])
    ensures xs == ys
  {
    if xs != [] {
      BodyInjective(layout, xs[..|xs| - 1], ys[..|xs| - 1]);
      assert xs == xs[..|xs| - 1] + [xs[|xs| - 1]] && ys == ys[..|xs| - 1] + [ys[|xs| - 1]];
    }
  }

  /** Where a list of `count` elements stands after reading some of them, or after one was rejected. */
  ghost predicate Reading(f: Fmt, b: Bytes, from: nat, count: nat, ok: bool, n: nat, body: Val, offset: nat) {
    && from <= |b|
    && offset <= |b|
    && n <= count
    && if ok then DecTimes(f, n, b, from) == Item(body, offset) else DecTimes(f, count, b, from).NoItem?
  }

  /** Reading one more element advances the list, or rejects it. */
  lemma ReadingStep(f: Fmt, b: Bytes, from: nat, count: nat, n: nat, body: Val, at: nat, ok: bool, v: Val, offset: nat)
    requires Reading(f, b, from, count, true, n, body, at) && n < count && offset <= |b|
    requires if ok then Dec(f, b, at) == Item(v, offset) else Dec(f, b, at).NoItem?
    ensures Reading(f, b, from, count, ok, n + 1, VPair(body, v), offset)
  {
    if !ok {
      RejectionSpreads(f, n + 1, count, b, from);
    }
  }

  lemma {:induction false} RejectionSpreads(f: Fmt, n: nat, m: nat, b: Bytes, o: nat)
    requires o <= |b| && n <= m && DecTimes(f, n, b, o).NoItem?
    ensures DecTimes(f, m, b, o).NoItem?
    decreases m
  {
    if n < m {
      RejectionSpreads(f, n, m - 1, b, o);
    }
  }

  // ---------------------------------------------------------------------------------------------

  /** A read at any offset depends on no byte behind the value. */
  lemma DecIgnoresRest(f: Fmt, b: Bytes, rest: Bytes, o: nat, v: Val, end: nat)
    requires o <= |b| && Dec(f, b, o) == Item(v, end)
    ensures Dec(f, b + rest, o) == Item(v, end)
  {
    DecExact(f, b, o, v, end);
    AlikeSpells(b, b + rest, o, v);
    DecExact(f, b + rest, o, v, end);
  }

  // ---------------------------------------------------------------------------------------------
  // Streams of typed values

  /** The format of one typed read after another. */
  function StreamF(fs: seq<Fmt>): Fmt {
    if fs == [] then FUnit else FPair(StreamF(fs[..|fs| - 1]), fs[|fs| - 1])
  }

  function StreamV(vs: seq<Val>): Val {
    if vs == [] then VUnit else VPair(StreamV(vs[..|vs| - 1]), vs[|vs| - 1])
  }

  /** The typed reads that match a sequence of typed writes give back the values and end at the end of the buffer. */
  lemma StreamLaw(fs: seq<Fmt>, vs: seq<Val>)
    requires |fs| == |vs| && forall i :: 0 <= i < |fs| ==> Conforms(fs[i], vs[i])
    ensures Dec(StreamF(fs), Encode(StreamV(vs)), 0) == Item(StreamV(vs), |Encode(StreamV(vs))|)
  {
    var v := StreamV(vs);
    StreamConforms(fs, vs);
    ConformsEncodable(StreamF(fs), v);
    EmitSpells(v, []);
    SpellsAgree(Encode(v), Encode(v), 0, v);
    LanguageOf(StreamF(fs), Encode(v), v);
  }

  lemma {:induction false} StreamConforms(fs: seq<Fmt>, vs: seq<Val>)
    requires |fs| == |vs| && forall i :: 0 <= i < |fs| ==> Conforms(fs[i], vs[i])
    ensures Conforms(StreamF(fs), StreamV(vs))
  {
    if fs != [] {
      StreamConforms(fs[..|fs| - 1], vs[..|vs| - 1]);
    }
  }
}

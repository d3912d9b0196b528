/**
 A description language for the binary formats of the simulator.

 A `Fmt` says what a reader accepts; a `Val` is a value laid out on the wire.  `Dec` is what a chain of
 `ByteReader` calls computes, `Emit` what a chain of `ByteWriter` calls appends.
 */
module Format {
  import opened Words

  datatype Fmt =
    | FUnit                               // nothing at all
    | FNum(width: nat, lo: nat, hi: nat)  // little-endian unsigned number, accepted in lo..hi
    | FBool                               // one byte, any non-zero byte reads as true
    | FStr                                // 16-bit length, then that many bytes
    | FPair(first: Fmt, second: Fmt)
    | FQuad(part0: Fmt, part1: Fmt, part2: Fmt, part3: Fmt)
    | FList(max: nat, elem: Fmt)          // 32-bit count, at most `max`, then the elements

  datatype Val =
    | VUnit
    | VNum(width: nat, n: nat)
    | VBool(b: bool)
    | VStr(s: Bytes)
    | VPair(first: Val, second: Val)
    | VQuad(part0: Val, part1: Val, part2: Val, part3: Val)
    | VList(count: nat, body: Val)        // the body pairs all elements but the last with the last

  const COUNT_RANGE := 0x1_0000_0000

  /** The `width` low-order bytes of `n`, least significant first. */
  function LE(width: nat, n: nat): (r: Bytes)
    ensures |r| == width
    decreases width + n
  {
    if width == 0 then [] else [n % 256] + LE(width - 1, n / 256)
  }

  /** The number stored little-endian in `width` bytes at offset `o`. */
  function LEAt(b: Bytes, o: nat, width: nat): (n: nat)
    requires o + width <= |b|
    decreases |b| - o
  {
    if width == 0 then 0 else b[o] + 256 * LEAt(b, o + 1, width - 1)
  }

  /** The first number that does not fit in `width` bytes. */
  function Range(width: nat): (r: nat)
    ensures r > 0
  {
    if width == 0 then 1 else 256 * Range(width - 1)
  }

  // ---------------------------------------------------------------------------------------------
  // Reading and writing

  /** The outcome of reading one value: a rejection, or the value and the offset after it. */
  datatype Item = NoItem | Item(v: Val, end: nat)

  /** Reads one value of format `f` at offset `o`. */
  function Dec(f: Fmt, b: Bytes, o: nat): (r: Item)
    requires o <= |b|
    ensures r.Item? ==> o <= r.end <= |b|
    decreases f, 0, 0
  {
    match f
    case FUnit => Item(VUnit, o)
    case FNum(w, lo, hi) =>
      if o + w <= |b| && lo <= LEAt(b, o, w) <= hi then Item(VNum(w, LEAt(b, o, w)), o + w) else NoItem
    case FBool =>
      if o < |b| then Item(VBool(b[o] != 0), o + 1) else NoItem
    case FStr =>
      if o + 2 <= |b| && o + 2 + LEAt(b, o, 2) <= |b|
      then Item(VStr(b[o + 2..o + 2 + LEAt(b, o, 2)]), o + 2 + LEAt(b, o, 2))
      else NoItem
    case FPair(f0, f1) =>
      var r0 := Dec(f0, b, o);
      if r0.NoItem? then NoItem else
      var r1 := Dec(f1, b, r0.end);
      if r1.NoItem? then NoItem else
      Item(VPair(r0.v, r1.v), r1.end)
    case FQuad(f0, f1, f2, f3) =>
      var r0 := Dec(f0, b, o);
      if r0.NoItem? then NoItem else
      var r1 := Dec(f1, b, r0.end);
      if r1.NoItem? then NoItem else
      var r2 := Dec(f2, b, r1.end);
      if r2.NoItem? then NoItem else
      var r3 := Dec(f3, b, r2.end);
      if r3.NoItem? then NoItem else
      Item(VQuad(r0.v, r1.v, r2.v, r3.v), r3.end)
    case FList(max, elem) =>
      if o + 4 <= |b| && LEAt(b, o, 4) <= max then
        var r := DecTimes(elem, LEAt(b, o, 4), b, o + 4);
        if r.NoItem? then NoItem else Item(VList(LEAt(b, o, 4), r.v), r.end)
      else NoItem
  }

  /** Reads `n` values of format `f`, one after the other. */
  function DecTimes(f: Fmt, n: nat, b: Bytes, o: nat): (r: Item)
    requires o <= |b|
    ensures r.Item? ==> o <= r.end <= |b|
    decreases f, 1, n
  {
    if n == 0 then Item(VUnit, o) else
      var init := DecTimes(f, n - 1, b, o);
      if init.NoItem? then NoItem else
      var last := Dec(f, b, init.end);
      if last.NoItem? then NoItem else
      Item(VPair(init.v, last.v), last.end)
  }

  /** What is in the buffer once `v` has been written after `acc`. */
  function Emit(v: Val, acc: Bytes): Bytes {
    match v
    case VUnit => acc
    case VNum(w, n) => acc + LE(w, n)
    case VBool(x) => acc + [if x then 1 else 0]
    case VStr(s) => acc + LE(2, |s|) + s
    case VPair(v0, v1) => Emit(v1, Emit(v0, acc))
    case VQuad(v0, v1, v2, v3) => Emit(v3, Emit(v2, Emit(v1, Emit(v0, acc))))
    case VList(n, body) => Emit(body, acc + LE(4, n))
  }

  // ---------------------------------------------------------------------------------------------
  // What a buffer means, independently of any reader

  /** `v` is within the limits of `f`: numbers in range, lists and strings not too long. */
  predicate Conforms(f: Fmt, v: Val)
    decreases f, 0, 0
  {
    match f
    case FUnit => v.VUnit?
    case FNum(w, lo, hi) => v.VNum? && v.width == w && lo <= v.n <= hi && v.n < Range(w)
    case FBool => v.VBool?
    case FStr => v.VStr? && |v.s| <= 0xFFFF
    case FPair(f0, f1) => v.VPair? && Conforms(f0, v.first) && Conforms(f1, v.second)
    case FQuad(f0, f1, f2, f3) =>
      v.VQuad? && Conforms(f0, v.part0) && Conforms(f1, v.part1) && Conforms(f2, v.part2) && Conforms(f3, v.part3)
    case FList(max, elem) => v.VList? && v.count <= max && v.count < COUNT_RANGE && ConformsTimes(elem, v.count, v.body)
  }

  predicate ConformsTimes(f: Fmt, n: nat, v: Val)
    decreases f, 1, n
  {
    match v
    case VUnit => n == 0
    case VPair(init, last) => n > 0 && ConformsTimes(f, n - 1, init) && Conforms(f, last)
    case _ => false
  }

  /** A measure for recursion over values. */
  function Rank(v: Val): (r: nat)
    ensures r > 0
  {
    match v
    case VPair(v0, v1) => 1 + Rank(v0) + Rank(v1)
    case VQuad(v0, v1, v2, v3) => 4 + Rank(v0) + Rank(v1) + Rank(v2) + Rank(v3)
    case VList(_, body) => 1 + Rank(body)
    case _ => 1
  }

  /** Four parts are laid out as two pairs are. */
  function Paired(v0: Val, v1: Val, v2: Val, v3: Val): (v: Val)
    ensures Rank(v) < Rank(VQuad(v0, v1, v2, v3))
  {
    assert Rank(VPair(v0, v1)) == 1 + Rank(v0) + Rank(v1);
    VPair(VPair(v0, v1), VPair(v2, v3))
  }

  /** The number of bytes `v` occupies. */
  function Size(v: Val): nat
    decreases Rank(v)
  {
    match v
    case VUnit => 0
    case VNum(w, _) => w
    case VBool(_) => 1
    case VStr(s) => 2 + |s|
    case VPair(v0, v1) => Size(v0) + Size(v1)
    case VQuad(v0, v1, v2, v3) => Size(Paired(v0, v1, v2, v3))
    case VList(_, body) => 4 + Size(body)
  }

  /** The bytes of `b` from `o` on spell `v`. */
  ghost predicate Spells(b: Bytes, o: nat, v: Val)
    decreases Rank(v)
  {
    match v
    case VUnit => o <= |b|
    case VNum(w, n) => o + w <= |b| && LEAt(b, o, w) == n
    case VBool(x) => o < |b| && (b[o] != 0) == x
    case VStr(s) => o + 2 + |s| <= |b| && LEAt(b, o, 2) == |s| && b[o + 2..o + 2 + |s|] == s
    case VPair(v0, v1) => Spells(b, o, v0) && Spells(b, o + Size(v0), v1)
    case VQuad(v0, v1, v2, v3) => Spells(b, o, Paired(v0, v1, v2, v3))
    case VList(n, body) => o + 4 <= |b| && LEAt(b, o, 4) == n && Spells(b, o + 4, body)
  }

  /** The offsets of the boolean bytes of `v`, when `v` is laid out from offset `o` on. */
  function Bools(v: Val, o: nat): (r: set<nat>)
    ensures forall i :: i in r ==> o <= i < o + Size(v)
    decreases Rank(v)
  {
    match v
    case VUnit => {}
    case VNum(_, _) => {}
    case VBool(_) => {o}
    case VStr(_) => {}
    case VPair(v0, v1) => Bools(v0, o) + Bools(v1, o + Size(v0))
    case VQuad(v0, v1, v2, v3) => Bools(Paired(v0, v1, v2, v3), o)
    case VList(_, body) => Bools(body, o + 4)
  }

  /** Bytes that no reader can tell apart: equal, or two spellings of true. */
  predicate SameByte(x: U8, y: U8, isBool: bool) {
    if isBool then (x != 0) == (y != 0) else x == y
  }

  /** Two buffers agree on the bytes lo..hi, up to the spelling of true at the offsets `bools`. */
  ghost predicate Alike(b: Bytes, c: Bytes, lo: nat, hi: nat, bools: set<nat>) {
    hi <= |b| && hi <= |c| && forall i :: lo <= i < hi ==> SameByte(b[i], c[i], i in bools)
  }

  // ---------------------------------------------------------------------------------------------
  // Numbers

  /** Only the low-order bytes of a number are written. */
  lemma LETruncates(n: nat)
    ensures LE(4, n) == LE(4, n % COUNT_RANGE)
  {
    var k := n / COUNT_RANGE;
    assert Range(2) == 0x1_0000 && Range(4) == COUNT_RANGE;
    LEPeriodic(4, n % COUNT_RANGE, k);
  }

  lemma {:induction false} LEPeriodic(width: nat, n: nat, k: nat)
    ensures LE(width, n + k * Range(width)) == LE(width, n)
    decreases width
  {
    if width > 0 {
      var r := Range(width - 1);
      BytePeriodic(n, k, r);
      LEPeriodic(width - 1, n / 256, k);
    }
  }

  lemma BytePeriodic(n: nat, k: nat, r: nat)
    ensures (n + k * (256 * r)) % 256 == n % 256
    ensures (n + k * (256 * r)) / 256 == n / 256 + k * r
  {
    var t := k * r;
    assert k * (256 * r) == 256 * t;
  }

  lemma {:induction false} LEAtInRange(b: Bytes, o: nat, width: nat)
    requires o + width <= |b|
    ensures LEAt(b, o, width) < Range(width)
    decreases width
  {
    if width > 0 {
      LEAtInRange(b, o + 1, width - 1);
    }
  }

  lemma {:induction false} LEAtLE(b: Bytes, o: nat, width: nat, n: nat)
    requires o + width <= |b|
    ensures b[o..o + width] == LE(width, n) && n < Range(width) ==> LEAt(b, o, width) == n
    decreases width
  {
    if width > 0 && b[o..o + width] == LE(width, n) && n < Range(width) {
      assert b[o] == LE(width, n)[0] == n % 256;
      assert b[o + 1..o + width] == b[o..o + width][1..] == LE(width - 1, n / 256);
      LEAtLE(b, o + 1, width - 1, n / 256);
    }
  }

  lemma {:induction false} LEAtSame(b: Bytes, o: nat, c: Bytes, p: nat, width: nat)
    requires o + width <= |b| && p + width <= |c|
    ensures LEAt(b, o, width) == LEAt(c, p, width) <==> b[o..o + width] == c[p..p + width]
    decreases width
  {
    if width > 0 {
      LEAtSame(b, o + 1, c, p + 1, width - 1);
      var x, y := b[o..o + width], c[p..p + width];
      assert x == [b[o]] + b[o + 1..o + width] && y == [c[p]] + c[p + 1..p + width];
      assert x == y ==> x[0] == y[0] && x[1..] == y[1..];
    }
  }

  // ---------------------------------------------------------------------------------------------
  // What is written, and lists

  /** The bytes a fresh writer holds after writing `v`. */
  function Encode(v: Val): Bytes {
    Emit(v, [])
  }

  /** The body of a list whose elements are laid out by `layout`. */
  function Body<T>(layout: T -> Val, xs: seq<T>): Val {
    if xs == [] then VUnit else VPair(Body(layout, xs[..|xs| - 1]), layout(xs[|xs| - 1]))
  }

  function ListOf<T>(layout: T -> Val, xs: seq<T>): Val {
    VList(|xs|, Body(layout, xs))
  }
}

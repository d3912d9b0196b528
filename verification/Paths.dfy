/** Linear interpolation, and the piecewise linear path of one coordinate through timed samples. */
module Paths {
  import opened Timeline

  /** How far along from `a` to `b` the time `t` is, clamped to 0..1. */
  function Alpha(a: nat, b: nat, t: nat): (r: real)
    requires a < b && a <= t
    ensures 0.0 <= r <= 1.0
  {
    var alpha := (t - a) as real / (b - a) as real;
    if alpha > 1.0 then 1.0 else alpha
  }

  function Lerp(from: real, to: real, alpha: real): real {
    from + (to - from) * alpha
  }

  function Abs(x: real): (r: real)
    ensures r >= 0.0 && r >= x && r >= -x && (r == x || r == -x)
  {
    if x < 0.0 then -x else x
  }

  // ---------------------------------------------------------------------------------------------
  // Paths of one coordinate

  /**
   The piecewise linear path through samples of one coordinate, standing still before the first and after the last.
   */
  function Path(h: seq<Sample<real>>, t: nat): real
    requires h != []
  {
    if |h| == 1 || t <= h[0].serverTimeUs then h[0].value
    else if t <= h[1].serverTimeUs then
      Lerp(h[0].value, h[1].value, Alpha(h[0].serverTimeUs, h[1].serverTimeUs, t))
    else Path(h[1..], t)
  }

  lemma {:induction false} PathAfterLast(h: seq<Sample<real>>, t: nat)
    requires h != [] && Increasing(h) && t >= Last(h).serverTimeUs
    ensures Path(h, t) == Last(h).value
  {
    if |h| > 1 && t > h[1].serverTimeUs {
      PathAfterLast(h[1..], t);
    }
  }

  lemma {:induction false} PathInBracket(h: seq<Sample<real>>, t: nat, i: nat)
    requires Increasing(h) && Brackets(h, t, i)
    ensures Path(h, t) == Lerp(h[i - 1].value, h[i].value, Alpha(h[i - 1].serverTimeUs, h[i].serverTimeUs, t))
  {
    if i > 1 {
      assert h[1].serverTimeUs <= h[i - 1].serverTimeUs;
      PathInBracket(h[1..], t, i - 1);
    }
  }

  /** Between neighbours the coordinate moves at most `v` per microsecond. */
  ghost predicate SpeedAtMost(h: seq<Sample<real>>, v: real) {
    forall i :: 0 < i < |h| ==>
      Abs(h[i].value - h[i - 1].value) <= v * (h[i].serverTimeUs - h[i - 1].serverTimeUs) as real
  }

  lemma SlopeBound(rise: real, width: real, v: real)
    requires width > 0.0 && Abs(rise) <= v * width
    ensures -v <= rise / width <= v
  {
    var slope := rise / width;
    assert slope * width == rise;
    if slope > v {
      MulStrict(v, slope, width);
    } else if slope < -v {
      MulStrict(slope, -v, width);
    }
  }

  lemma MulStrict(a: real, b: real, c: real)
    requires a < b && c > 0.0
    ensures a * c < b * c
  {
  }

  lemma MulMono(a: real, b: real, c: real)
    requires a <= b && c >= 0.0
    ensures a * c <= b * c && c * a <= c * b
  {
  }

  /** A segment as start plus slope times elapsed time. */
  lemma SegmentAsSlope(a: real, b: real, s: nat, e: nat, t: nat)
    requires s < e && s <= t <= e
    ensures Lerp(a, b, Alpha(s, e, t)) == a + (b - a) / (e - s) as real * (t - s) as real
  {
    var width, gone := (e - s) as real, (t - s) as real;
    assert gone <= width;
    MulMono(gone, width, 1.0 / width);
    assert gone / width <= 1.0;
    assert (b - a) * (gone / width) == (b - a) / width * gone;
  }

  /** A segment no steeper than `v` moves at most `v` times the elapsed time. */
  lemma SegmentSpeed(a: real, b: real, s: nat, e: nat, t: nat, u: nat, v: real)
    requires s < e && s <= t <= u <= e && Abs(b - a) <= v * (e - s) as real
    ensures Abs(Lerp(a, b, Alpha(s, e, u)) - Lerp(a, b, Alpha(s, e, t))) <= v * (u - t) as real
  {
    hide Lerp, Alpha;
    SegmentAsSlope(a, b, s, e, t);
    SegmentAsSlope(a, b, s, e, u);
    SlopeBound(b - a, (e - s) as real, v);
    var slope, from, to := (b - a) / (e - s) as real, (t - s) as real, (u - s) as real;
    assert (u - t) as real == to - from;
    assert slope * to - slope * from == slope * (to - from);
    MulMono(slope, v, to - from);
    MulMono(-v, slope, to - from);
  }

  lemma SegmentEnds(a: real, b: real, s: nat, e: nat)
    requires s < e
    ensures Lerp(a, b, Alpha(s, e, s)) == a && Lerp(a, b, Alpha(s, e, e)) == b
  {
    var width := (e - s) as real;
    assert width / width == 1.0 && (s - s) as real / width == 0.0;
  }

  /** Multiplication behind a name, so that a chain of products can be composed without expanding them. */
  function Times(a: real, b: real): real {
    a * b
  }

  lemma Chain(x: real, y: real, z: real, v: real, a: real, b: real, c: real)
    requires Abs(y - x) <= Times(v, a) && Abs(z - y) <= Times(v, b) && a + b == c
    ensures Abs(z - x) <= Times(v, c)
  {
    assert v * a + v * b == v * (a + b);
  }

  lemma TailSpeed(h: seq<Sample<real>>, v: real)
    requires |h| > 1 && Increasing(h) && SpeedAtMost(h, v)
    ensures Increasing(h[1..]) && SpeedAtMost(h[1..], v)
  {
    forall i | 0 < i < |h[1..]|
      ensures Abs(h[1..][i].value - h[1..][i - 1].value)
           <= v * (h[1..][i].serverTimeUs - h[1..][i - 1].serverTimeUs) as real
    {
      assert h[1..][i] == h[i + 1] && h[1..][i - 1] == h[i];
    }
  }

  /** The whole path is no faster than its segments, across samples and beyond both ends. */
  lemma {:induction false} PathLipschitz(h: seq<Sample<real>>, v: real, t: nat, u: nat)
    requires h != [] && Increasing(h) && SpeedAtMost(h, v) && v >= 0.0 && t <= u
    ensures Abs(Path(h, u) - Path(h, t)) <= Times(v, (u - t) as real)
  {
    hide Lerp, Alpha, SpeedAtMost, Abs, Times;
    if |h| == 1 || u <= h[0].serverTimeUs {
      StandingStill(h, v, t, u);
    } else if u <= h[1].serverTimeUs {
      FirstSegmentSpeed(h, v, t, u);
    } else {
      TailSpeed(h, v);
      if t > h[1].serverTimeUs {
        PathLipschitz(h[1..], v, t, u);
      } else {
        PathLipschitz(h[1..], v, h[1].serverTimeUs, u);
        FirstSegmentSpeed(h, v, t, h[1].serverTimeUs);
        PastFirstSegment(h, v, t, u);
      }
    }
  }

  lemma StandingStill(h: seq<Sample<real>>, v: real, t: nat, u: nat)
    requires h != [] && (|h| == 1 || u <= h[0].serverTimeUs) && v >= 0.0 && t <= u
    ensures Abs(Path(h, u) - Path(h, t)) <= Times(v, (u - t) as real)
  {
    hide Lerp, Alpha;
    MulMono(0.0, (u - t) as real, v);
  }

  lemma PastFirstSegment(h: seq<Sample<real>>, v: real, t: nat, u: nat)
    requires |h| > 1 && Increasing(h) && t <= h[1].serverTimeUs < u
    requires Path(h, h[1].serverTimeUs) == h[1].value
    requires Abs(h[1].value - Path(h, t)) <= Times(v, (h[1].serverTimeUs - t) as real)
    requires Abs(Path(h[1..], u) - Path(h[1..], h[1].serverTimeUs)) <= Times(v, (u - h[1].serverTimeUs) as real)
    ensures Abs(Path(h, u) - Path(h, t)) <= Times(v, (u - t) as real)
  {
    hide Lerp, Alpha, Abs, Times;
    var e := h[1].serverTimeUs;
    assert Path(h, u) == Path(h[1..], u) && Path(h[1..], e) == h[1].value;
    Chain(Path(h, t), h[1].value, Path(h, u), v, (e - t) as real, (u - e) as real, (u - t) as real);
  }

  lemma FirstSegmentSpeed(h: seq<Sample<real>>, v: real, t: nat, u: nat)
    requires |h| > 1 && Increasing(h) && SpeedAtMost(h, v) && v >= 0.0 && t <= u <= h[1].serverTimeUs
    requires h[0].serverTimeUs <= u
    ensures Abs(Path(h, u) - Path(h, t)) <= Times(v, (u - t) as real)
    ensures Path(h, h[1].serverTimeUs) == h[1].value
  {
    hide Lerp, Alpha;
    var s, e := h[0].serverTimeUs, h[1].serverTimeUs;
    var from := Max(s, t);
    SegmentEnds(h[0].value, h[1].value, s, e);
    SegmentSpeed(h[0].value, h[1].value, s, e, from, u, v);
    MulMono((u - from) as real, (u - t) as real, v);
  }

  /**
   A path no faster than `v` strays from the chord between two of its points by at most half of `v` times their gap.
   */
  lemma PathNearChord(h: seq<Sample<real>>, v: real, s: nat, t: nat, e: nat)
    requires h != [] && Increasing(h) && SpeedAtMost(h, v) && v >= 0.0 && s < t <= e
    ensures Abs(Path(h, t) - Lerp(Path(h, s), Path(h, e), Alpha(s, e, t))) <= v * (e - s) as real / 2.0
  {
    PathLipschitz(h, v, s, t);
    PathLipschitz(h, v, t, e);
    NearChord(Path(h, s), Path(h, t), Path(h, e), v, s, t, e);
  }

  lemma NearChord(a: real, m: real, b: real, v: real, s: nat, t: nat, e: nat)
    requires v >= 0.0 && s < t <= e
    requires Abs(m - a) <= v * (t - s) as real && Abs(b - m) <= v * (e - t) as real
    ensures Abs(m - Lerp(a, b, Alpha(s, e, t))) <= v * (e - s) as real / 2.0
  {
    hide Lerp, Alpha, Abs;
    var x, y, w := (t - s) as real, (e - t) as real, (e - s) as real;
    SegmentAsSlope(a, b, s, e, t);
    ChordBound(a, m, b, v, x, y, w, (b - a) / w);
  }

  lemma ChordBound(a: real, m: real, b: real, v: real, x: real, y: real, w: real, slope: real)
    requires x > 0.0 && y >= 0.0 && v >= 0.0 && w == x + y && Times(slope, w) == b - a
    requires Abs(m - a) <= Times(v, x) && Abs(b - m) <= Times(v, y)
    ensures Abs(m - (a + Times(slope, x))) <= Times(v, w) / 2.0
  {
    hide Times, Abs;
    var off := m - (a + Times(slope, x));
    OffTimesWidth(a, m, b, x, y, w, slope);
    ProductBound(m - a, Times(v, x), y);
    ProductBound(b - m, Times(v, y), x);
    AreaBound(v, x, y, w);
    Narrow(off, w, Times(m - a, y), Times(b - m, x), Times(Times(v, x), y), Times(Times(v, y), x), Times(v, w) / 2.0);
  }

  lemma OffTimesWidth(a: real, m: real, b: real, x: real, y: real, w: real, slope: real)
    requires w == x + y && Times(slope, w) == b - a
    ensures Times(m - (a + Times(slope, x)), w) == Times(m - a, y) - Times(b - m, x)
  {
    assert (m - (a + slope * x)) * w == (m - a) * w - (slope * w) * x;
  }

  lemma ProductBound(a: real, b: real, c: real)
    requires Abs(a) <= b && c >= 0.0
    ensures Abs(Times(a, c)) <= Times(b, c)
  {
    MulMono(a, b, c);
    MulMono(-a, b, c);
  }

  lemma AreaBound(v: real, x: real, y: real, w: real)
    requires v >= 0.0 && w == x + y
    ensures Times(Times(v, x), y) + Times(Times(v, y), x) <= Times(Times(v, w) / 2.0, w)
  {
    var d := x - y;
    assert d * d >= 0.0;
    assert w * w == 4.0 * (x * y) + d * d;
    MulMono(2.0 * (x * y), w * w / 2.0, v);
    assert v * x * y == v * (x * y) == v * y * x;
    assert v * w / 2.0 * w == v * (w * w / 2.0);
  }

  lemma Narrow(off: real, w: real, left: real, right: real, l: real, r: real, bound: real)
    requires w > 0.0 && Times(off, w) == left - right
    requires Abs(left) <= l && Abs(right) <= r && l + r <= Times(bound, w)
    ensures Abs(off) <= bound
  {
    if off > bound {
      MulStrict(bound, off, w);
    } else if -off > bound {
      MulStrict(bound, -off, w);
    }
  }
}

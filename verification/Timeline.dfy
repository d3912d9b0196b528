/** Timed samples, as the server and the client both keep them, and the search for the two around a time. */
module Timeline {
  datatype Sample<V> = Sample(serverTimeUs: nat, value: V)

  ghost predicate Increasing<V>(h: seq<Sample<V>>) {
    forall i, j :: 0 <= i < j < |h| ==> h[i].serverTimeUs < h[j].serverTimeUs
  }

  ghost predicate SuffixOf<V>(p: seq<Sample<V>>, f: seq<Sample<V>>) {
    |p| <= |f| && p == f[|f| - |p|..]
  }

  function Last<V>(h: seq<Sample<V>>): Sample<V>
    requires h != []
  {
    h[|h| - 1]
  }

  /** The first index from `i` on whose sample closes an interval around `t`; the length when there is none. */
  function Search<V>(h: seq<Sample<V>>, t: nat, i: nat): (r: nat)
    requires 1 <= i <= |h|
    ensures i <= r <= |h|
    ensures r < |h| ==> h[r - 1].serverTimeUs <= t <= h[r].serverTimeUs
    decreases |h| - i
  {
    if i == |h| then |h|
    else if h[i - 1].serverTimeUs <= t <= h[i].serverTimeUs then i
    else Search(h, t, i + 1)
  }

  /** The first sample not before `t`, or the newest one when there is none. */
  function NotBefore<V>(h: seq<Sample<V>>, t: nat): V
    requires h != []
  {
    if |h| == 1 || t <= h[0].serverTimeUs then h[0].value else NotBefore(h[1..], t)
  }

  lemma {:induction false} NotBeforeInBracket<V>(h: seq<Sample<V>>, t: nat, i: nat)
    requires Increasing(h) && Brackets(h, t, i)
    ensures NotBefore(h, t) == h[i].value
  {
    if i > 1 {
      assert h[0].serverTimeUs < h[i - 1].serverTimeUs;
      NotBeforeInBracket(h[1..], t, i - 1);
    } else {
      assert h[1..][0] == h[1];
    }
  }

  lemma {:induction false} NotBeforeAfterLast<V>(h: seq<Sample<V>>, t: nat)
    requires h != [] && Increasing(h) && t >= Last(h).serverTimeUs
    ensures NotBefore(h, t) == Last(h).value
  {
    if |h| > 1 {
      assert h[0].serverTimeUs < Last(h).serverTimeUs && Last(h[1..]) == Last(h);
      NotBeforeAfterLast(h[1..], t);
    }
  }

  /** Sample `i` is the first one not before `t`, and there is one before `t`. */
  ghost predicate Brackets<V>(h: seq<Sample<V>>, t: nat, i: nat) {
    0 < i < |h| && h[i - 1].serverTimeUs < t <= h[i].serverTimeUs
  }

  /** In an increasing history the search finds the bracket of `t`, wherever it starts before it. */
  lemma {:induction false} SearchFinds<V>(h: seq<Sample<V>>, t: nat, from: nat, i: nat)
    requires Increasing(h) && Brackets(h, t, i) && 1 <= from <= i
    ensures Search(h, t, from) == i
    decreases i - from
  {
    if from < i {
      assert h[from].serverTimeUs <= h[i - 1].serverTimeUs;
      SearchFinds(h, t, from + 1, i);
    }
  }

  /** Every time after the first sample and not after the last has a bracket. */
  lemma {:induction false} BracketExists<V>(h: seq<Sample<V>>, t: nat) returns (i: nat)
    requires h != [] && h[0].serverTimeUs < t <= Last(h).serverTimeUs
    ensures Brackets(h, t, i)
    decreases |h|
  {
    i := |h| - 1;
    if t <= h[i - 1].serverTimeUs {
      i := BracketExists(h[..i], t);
    }
  }

  /** A bracket in a suffix is a bracket in the whole, shifted. */
  lemma BracketShifts<V>(p: seq<Sample<V>>, f: seq<Sample<V>>, t: nat, i: nat)
    requires SuffixOf(p, f) && Brackets(p, t, i)
    ensures Brackets(f, t, |f| - |p| + i)
    ensures f[|f| - |p| + i] == p[i] && f[|f| - |p| + i - 1] == p[i - 1]
  {
  }

  lemma SuffixAppend<V>(p: seq<Sample<V>>, f: seq<Sample<V>>, s: Sample<V>)
    requires SuffixOf(p, f)
    ensures SuffixOf(p + [s], f + [s])
  {
  }

  lemma SuffixTrans<V>(p: seq<Sample<V>>, q: seq<Sample<V>>, f: seq<Sample<V>>)
    requires SuffixOf(p, q) && SuffixOf(q, f)
    ensures SuffixOf(p, f)
  {
  }

  // ---------------------------------------------------------------------------------------------
  // Histories by entity

  type Histories<V> = map<int, seq<Sample<V>>>

  function HistoryOf<V>(hs: Histories<V>, id: int): seq<Sample<V>> {
    if id in hs then hs[id] else []
  }

  /** A sample is recorded only when it is later than the newest one. */
  predicate Accepts<V>(h: seq<Sample<V>>, t: nat) {
    h == [] || Last(h).serverTimeUs < t
  }

  /** Recording without ever dropping anything. */
  function Keep<V>(hs: Histories<V>, id: int, t: nat, value: V): Histories<V> {
    if Accepts(HistoryOf(hs, id), t) then hs[id := HistoryOf(hs, id) + [Sample(t, value)]] else hs
  }

  /** The same for a batch of values of one time, under the ids `key` gives them. */
  function KeepAll<V>(hs: Histories<V>, key: V -> int, batch: seq<V>, t: nat): Histories<V> {
    if batch == [] then hs
    else
      var value := batch[|batch| - 1];
      Keep(KeepAll(hs, key, batch[..|batch| - 1], t), key(value), t, value)
  }

  /** The index of the first value of the batch under `id`; the length when there is none. */
  function FirstIndex<V>(key: V -> int, batch: seq<V>, id: int): (i: nat)
    ensures i <= |batch|
    ensures i < |batch| ==> key(batch[i]) == id
    ensures forall j :: 0 <= j < i ==> key(batch[j]) != id
  {
    if batch == [] then 0
    else
      var n := |batch| - 1;
      var i := FirstIndex(key, batch[..n], id);
      assert forall j :: 0 <= j < n ==> batch[..n][j] == batch[j];
      if i < n || key(batch[n]) == id then i else n + 1
  }

  lemma FirstIs<V>(key: V -> int, batch: seq<V>, id: int, k: nat)
    requires k <= |batch| && (k < |batch| ==> key(batch[k]) == id)
    requires forall j :: 0 <= j < k ==> key(batch[j]) != id
    ensures FirstIndex(key, batch, id) == k
  {
    hide FirstIndex;
  }

  /** A batch adds to a history its first value under that id, if any and if the time is new. */
  lemma {:induction false} KeepAllAddsFirst<V>(hs: Histories<V>, key: V -> int, batch: seq<V>, t: nat, id: int)
    ensures var h, i := HistoryOf(hs, id), FirstIndex(key, batch, id);
      HistoryOf(KeepAll(hs, key, batch, t), id)
      == if i < |batch| && Accepts(h, t) then h + [Sample(t, batch[i])] else h
  {
    if batch != [] {
      KeepAllAddsFirst(hs, key, batch[..|batch| - 1], t, id);
    }
  }

  function Capped<V>(h: seq<Sample<V>>, max: nat): (r: seq<Sample<V>>)
    ensures SuffixOf(r, h) && |r| == (if |h| > max then max else |h|) && (|h| <= max ==> r == h)
  {
    if |h| > max then h[|h| - max..] else h
  }

  lemma CappedCases<V>(h: seq<Sample<V>>, max: nat)
    ensures if |h| <= max then Capped(h, max) == h else |Capped(h, max)| == max
  {
  }

  /** The eviction loop of both buffers: one sample at a time off the front. */
  method EvictOverCap<V>(history: seq<Sample<V>>, max: nat) returns (kept: seq<Sample<V>>)
    ensures kept == Capped(history, max)
  {
    kept := history;
    while |kept| > max
      invariant Capped(kept, max) == Capped(history, max)
      decreases |kept|
    {
      assert kept[1..][|kept| - 1 - max..] == kept[|kept| - max..];
      kept := kept[1..];
    }
  }

  /** Every history of `ps` is a non-empty suffix of the full one in `fs`. */
  ghost predicate StandsFor<V>(p: seq<Sample<V>>, f: seq<Sample<V>>) {
    SuffixOf(p, f) && Increasing(f) && (f != [] ==> p != [])
  }

  ghost predicate AllStandFor<V>(ps: Histories<V>, fs: Histories<V>) {
    forall id :: StandsFor(HistoryOf(ps, id), HistoryOf(fs, id))
  }

  lemma AppendStandsFor<V>(p: seq<Sample<V>>, f: seq<Sample<V>>, s: Sample<V>)
    requires StandsFor(p, f) && Accepts(p, s.serverTimeUs)
    ensures Accepts(f, s.serverTimeUs) && StandsFor(p + [s], f + [s])
  {
    SuffixAppend(p, f, s);
  }

  lemma SameNewest<V>(p: seq<Sample<V>>, f: seq<Sample<V>>)
    requires StandsFor(p, f)
    ensures p == [] <==> f == []
    ensures p != [] ==> Last(p) == Last(f)
  {
  }

  lemma NothingStands<V>()
    ensures AllStandFor<V>(map[], map[])
  {
  }

  function Max(a: nat, b: nat): nat {
    if a < b then b else a
  }
}

/** The time-window filter the three log detectors apply to their
    per-address lists: keep an entry only while `now - t <= width`. */
module SlidingWindow {

  /** The stamp of a bare timestamp is the timestamp itself. */
  function Instant(t: real): real {
    t
  }

  /** A per-address list in a detector's dict, read as `d.get(ip, [])`. */
  function Entries<T>(d: map<string, seq<T>>, key: string): seq<T> {
    if key in d then d[key] else []
  }

  /** The list comprehension `[e for e in xs if now - stamp(e) <= width]`. */
  function KeepRecent<T>(xs: seq<T>, stamp: T -> real, now: real, width: real): (r: seq<T>)
    ensures |r| <= |xs|
    ensures forall k :: 0 <= k < |r| ==> now - stamp(r[k]) <= width
    ensures xs != [] && now - stamp(xs[|xs| - 1]) <= width ==> r != [] && r[|r| - 1] == xs[|xs| - 1]
  {
    if xs == [] then []
    else
      var rest := KeepRecent(xs[1..], stamp, now, width);
      assert xs == [xs[0]] + xs[1..];
      if now - stamp(xs[0]) <= width then [xs[0]] + rest else rest
  }

  /** Filtering keeps the relative order and the multiplicity of every
      entry that is still inside the window. */
  lemma {:induction false} KeepRecentCount<T>(xs: seq<T>, stamp: T -> real, now: real, width: real, e: T)
    ensures multiset(KeepRecent(xs, stamp, now, width))[e]
         == (if now - stamp(e) <= width then multiset(xs)[e] else 0)
  {
    if xs != [] {
      KeepRecentCount(xs[1..], stamp, now, width, e);
      assert xs == [xs[0]] + xs[1..];
    }
  }

  /** Filtering a list whose entries are all recent changes nothing. */
  lemma {:induction false} KeepRecentAll<T>(xs: seq<T>, stamp: T -> real, now: real, width: real)
    requires forall k :: 0 <= k < |xs| ==> now - stamp(xs[k]) <= width
    ensures KeepRecent(xs, stamp, now, width) == xs
  {
    if xs != [] {
      KeepRecentAll(xs[1..], stamp, now, width);
      assert xs == [xs[0]] + xs[1..];
    }
  }

  /** Filtering only drops entries. */
  lemma KeepRecentSub<T>(xs: seq<T>, stamp: T -> real, now: real, width: real)
    ensures multiset(KeepRecent(xs, stamp, now, width)) <= multiset(xs)
  {
    var a := multiset(KeepRecent(xs, stamp, now, width));
    forall e
      ensures a[e] <= multiset(xs)[e]
    {
      KeepRecentCount(xs, stamp, now, width, e);
    }
    assert a <= multiset(xs);
  }

  /** Filtering is monotone: fewer entries before, fewer entries after. */
  lemma KeepRecentMono<T>(xs: seq<T>, ys: seq<T>, stamp: T -> real, now: real, width: real)
    requires multiset(xs) <= multiset(ys)
    ensures multiset(KeepRecent(xs, stamp, now, width)) <= multiset(KeepRecent(ys, stamp, now, width))
  {
    var ra := KeepRecent(xs, stamp, now, width);
    var a := multiset(ra);
    var b := multiset(KeepRecent(ys, stamp, now, width));
    if !(a <= b) {
      var k :| 0 <= k < |ra| && a[ra[k]] > b[ra[k]];
      var e := ra[k];
      KeepRecentCount(xs, stamp, now, width, e);
      KeepRecentCount(ys, stamp, now, width, e);
      assert false;
    }
  }

  /** Filtering a concatenation filters each part. */
  lemma {:induction false} KeepRecentAppend<T>(xs: seq<T>, ys: seq<T>, stamp: T -> real, now: real, width: real)
    ensures KeepRecent(xs + ys, stamp, now, width)
         == KeepRecent(xs, stamp, now, width) + KeepRecent(ys, stamp, now, width)
  {
    if xs != [] {
      assert (xs + ys)[1..] == xs[1..] + ys;
      KeepRecentAppend(xs[1..], ys, stamp, now, width);
    } else {
      assert xs + ys == ys;
    }
  }

  /** Filtering at an earlier time and then at a later one is the same as
      filtering at the later time alone: an entry old at the earlier time
      is older still. */
  lemma {:induction false} KeepRecentLater<T>(xs: seq<T>, stamp: T -> real, earlier: real, now: real, width: real)
    requires earlier <= now
    ensures KeepRecent(KeepRecent(xs, stamp, earlier, width), stamp, now, width)
         == KeepRecent(xs, stamp, now, width)
  {
    if xs != [] {
      KeepRecentLater(xs[1..], stamp, earlier, now, width);
    }
  }
}

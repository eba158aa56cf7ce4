/** The time-window deque shared by the login limiter and the restart limiter.

    A window is half open, `(t - W, t]`: both limiters drop an event as soon as it
    is `W` old.  Times are reals and a history is the list of event times in order. */
module SlidingWindow {

  ghost predicate Ordered(h: seq<real>, i: int, j: int)
    requires 0 <= i <= j < |h|
  {
    h[i] <= h[j]
  }

  ghost predicate Ascending(h: seq<real>) {
    forall i, j :: 0 <= i <= j < |h| ==> Ordered(h, i, j)
  }

  lemma AscendingPrefix(h: seq<real>, n: nat)
    requires Ascending(h) && n <= |h|
    ensures Ascending(h[..n])
  {
    forall i, j | 0 <= i <= j < n ensures Ordered(h[..n], i, j) { assert Ordered(h, i, j); }
  }

  lemma AscendingAppend(h: seq<real>, t: real)
    requires Ascending(h) && (h != [] ==> h[|h| - 1] <= t)
    ensures Ascending(h + [t])
  {
    forall i, j | 0 <= i <= j <= |h| ensures Ordered(h + [t], i, j) {
      if i < |h| { assert Ordered(h, i, if j < |h| then j else |h| - 1); }
    }
  }

  /** The events strictly later than `lo` and no later than `hi`, in order. */
  function InWindow(h: seq<real>, lo: real, hi: real): (r: seq<real>)
    ensures forall x :: x in r ==> lo < x <= hi
    ensures |r| <= |h|
  {
    if h == [] then []
    else if lo < h[|h| - 1] <= hi then InWindow(h[..|h| - 1], lo, hi) + [h[|h| - 1]]
    else InWindow(h[..|h| - 1], lo, hi)
  }

  /** The events strictly later than `cutoff`: what a deque may still have to remember. */
  function Recent(h: seq<real>, cutoff: real): (r: seq<real>) {
    if h == [] then []
    else if cutoff < h[|h| - 1] then Recent(h[..|h| - 1], cutoff) + [h[|h| - 1]]
    else Recent(h[..|h| - 1], cutoff)
  }

  /** What popping from the left while the front is `<= cutoff` leaves. */
  function DropOld(events: seq<real>, cutoff: real): (r: seq<real>) {
    if events != [] && events[0] <= cutoff then DropOld(events[1..], cutoff) else events
  }

  /** In an ascending history the recent events are a suffix, and its start is exact. */
  lemma {:induction false} RecentIsSuffix(h: seq<real>, cutoff: real) returns (n: nat)
    requires Ascending(h)
    ensures n <= |h| && Recent(h, cutoff) == h[n..]
    ensures forall i :: 0 <= i < |h| ==> (i < n <==> h[i] <= cutoff)
    ensures n < |h| ==> cutoff < h[n]
  {
    if h == [] {
      n := 0;
    } else {
      var p := h[..|h| - 1];
      AscendingPrefix(h, |h| - 1);
      n := RecentIsSuffix(p, cutoff);
      if cutoff < h[|h| - 1] {
        assert p[n..] + [h[|h| - 1]] == h[n..];
      } else {
        forall i | 0 <= i < |h| ensures h[i] <= cutoff { assert Ordered(h, i, |h| - 1); }
        assert n == |p|;
        n := |h|;
      }
    }
  }

  lemma AllRecent(h: seq<real>, cutoff: real)
    requires Ascending(h) && (h != [] ==> cutoff < h[0])
    ensures Recent(h, cutoff) == h
  {
    var n := RecentIsSuffix(h, cutoff);
  }

  /** Likewise the events of a window are one contiguous stretch `h[a..b]`. */
  lemma {:induction false} WindowIsStretch(h: seq<real>, lo: real, hi: real) returns (a: nat, b: nat)
    requires Ascending(h)
    ensures a <= b <= |h| && InWindow(h, lo, hi) == h[a..b]
    ensures forall i :: 0 <= i < |h| ==> (a <= i < b <==> lo < h[i] <= hi)
  {
    if h == [] {
      a, b := 0, 0;
    } else {
      var p, last := h[..|h| - 1], h[|h| - 1];
      AscendingPrefix(h, |h| - 1);
      a, b := WindowIsStretch(p, lo, hi);
      assert p[a..b] == h[a..b];
      if lo < last <= hi {
        if a == b {
          a, b := |p|, |h|;
        } else {
          assert Ordered(p, a, |p| - 1) && Ordered(h, |p| - 1, |p|);
          assert lo < p[|p| - 1] <= hi;
          assert h[a..|h|] == p[a..b] + [last];
          b := |h|;
        }
      }
    }
  }

  /** Popping from the left computes the filter, on an ascending deque. */
  lemma {:induction false} DropOldIsRecent(events: seq<real>, cutoff: real)
    requires Ascending(events)
    ensures DropOld(events, cutoff) == Recent(events, cutoff)
  {
    var n := RecentIsSuffix(events, cutoff);
    DropOldAt(events, cutoff, n);
  }

  lemma {:induction false} DropOldAt(events: seq<real>, cutoff: real, n: nat)
    requires n <= |events|
    requires forall i :: 0 <= i < |events| ==> (i < n <==> events[i] <= cutoff)
    ensures DropOld(events, cutoff) == events[n..]
  {
    if n > 0 {
      DropOldAt(events[1..], cutoff, n - 1);
      assert events[1..][n - 1..] == events[n..];
    }
  }

  /** Forgetting early loses nothing: a deque pruned at an older cutoff still prunes, at a
      newer one, to what the whole history would. */
  lemma {:induction false} PruneTwice(h: seq<real>, earlier: real, cutoff: real)
    requires Ascending(h) && earlier <= cutoff
    ensures DropOld(Recent(h, earlier), cutoff) == Recent(h, cutoff)
  {
    var n := RecentIsSuffix(h, earlier);
    var m := RecentIsSuffix(h, cutoff);
    assert n <= m;
    assert forall i :: 0 <= i < |h[n..]| ==> h[n..][i] == h[n + i];
    DropOldAt(h[n..], cutoff, m - n);
    assert h[n..][m - n..] == h[m..];
  }

  /** Appending an event and then pruning keeps the deque equal to the filtered history. */
  lemma {:induction false} PruneRefinesHistory(h: seq<real>, earlier: real, now: real, cutoff: real)
    requires Ascending(h + [now]) && earlier <= cutoff
    ensures DropOld(Recent(h, earlier) + [now], cutoff) == Recent(h + [now], cutoff)
  {
    var hn := h + [now];
    assert hn[..|h|] == h;
    if earlier < now {
      PruneTwice(hn, earlier, cutoff);
    } else {
      // a window of no length: everything is dropped either way
      var n := RecentIsSuffix(hn, cutoff);
      forall i | 0 <= i < |hn| ensures hn[i] <= cutoff { assert Ordered(hn, i, |h|); }
      assert n == |hn|;
      var m := RecentIsSuffix(hn, earlier);
      assert m == |hn|;
      assert Recent(h, earlier) == Recent(hn, earlier) == [];
      assert DropOld([now], cutoff) == [];
    }
  }

  /** The in-place pruning loop both limiters run. */
  method Prune(events: seq<real>, cutoff: real) returns (rest: seq<real>)
    ensures rest == DropOld(events, cutoff)
  {
    rest := events;
    while rest != [] && rest[0] <= cutoff
      invariant DropOld(rest, cutoff) == DropOld(events, cutoff)
      decreases |rest|
    {
      rest := rest[1..];
    }
  }

  /** `base * 2^n`, by doubling. */
  function Doubled(base: real, n: nat): (r: real)
    ensures base >= 0.0 ==> r >= base
  {
    if n == 0 then base else 2.0 * Doubled(base, n - 1)
  }

  lemma {:induction false} DoubledMonotone(base: real, m: nat, n: nat)
    requires base >= 0.0 && m <= n
    ensures Doubled(base, m) <= Doubled(base, n)
  {
    if m < n { DoubledMonotone(base, m, n - 1); }
  }

  /** `n * x`, by repeated addition. */
  function Repeated(n: nat, x: real): (r: real) {
    if n == 0 then 0.0 else Repeated(n - 1, x) + x
  }

  lemma {:induction false} RepeatedGrows(m: nat, n: nat, x: real)
    requires m <= n && x >= 0.0
    ensures Repeated(m, x) <= Repeated(n, x)
  {
    if m < n { RepeatedGrows(m, n - 1, x); }
  }

  lemma {:induction false} RepeatedIsProduct(n: nat, x: real)
    ensures Repeated(n, x) == n as real * x
  {
    if n > 0 {
      RepeatedIsProduct(n - 1, x);
      OneMoreTime(n, x);
    }
  }

  lemma OneMoreTime(n: nat, x: real)
    requires n > 0
    ensures n as real * x == (n - 1) as real * x + x
  {
  }

  function MinReal(a: real, b: real): real { if a <= b then a else b }
}

/**
 Fixed-window rate limiting: a window is opened by the first hit after the last one has run out and admits a
 bounded number of hits.  The wrong-PIN limiter and the discovery responder share this scheme.
 */
module FixedWindow {

  /** An admitted hit: when, as which of its window, and the stamp of that window. */
  datatype Hit = Hit(at: int, nth: nat, start: int)

  /** `g` comes next after `h`: in the same window, or opening another when the last one has run out. */
  predicate Follows(h: Hit, g: Hit, width: int) {
    && h.at <= g.at
    && if g.nth == 1 then g.at > h.start + width && g.start >= g.at else g.nth == h.nth + 1 && g.start == h.start
  }

  ghost predicate Trace(hits: seq<Hit>, width: int, most: nat) {
    && (forall i :: 0 <= i < |hits| ==> 1 <= hits[i].nth <= most)
    && (forall i, j :: 0 <= i && j == i + 1 && j < |hits| ==> Follows(hits[i], hits[j], width))
  }

  /** The hits in the closed interval from `a` to `b`. */
  function Within(hits: seq<Hit>, a: int, b: int): nat {
    if hits == [] then 0
    else
      var last := hits[|hits| - 1];
      Within(hits[..|hits| - 1], a, b) + if a <= last.at <= b then 1 else 0
  }

  lemma {:induction false} Ordered(hits: seq<Hit>, width: int, most: nat, i: nat, j: nat)
    requires Trace(hits, width, most) && i <= j < |hits|
    ensures hits[i].at <= hits[j].at
    decreases j
  {
    if i < j {
      Ordered(hits, width, most, i, j - 1);
      assert Follows(hits[j - 1], hits[j], width);
    }
  }

  /** A window that is full is followed by one opened later than its width allows. */
  lemma {:induction false} NextWindow(hits: seq<Hit>, width: int, most: nat, i: nat) returns (p: nat)
    requires Trace(hits, width, most) && i < |hits|
    requires i + (most - hits[i].nth) + 1 < |hits|
    ensures i < p <= i + (most - hits[i].nth) + 1
    ensures hits[p].nth == 1 && hits[p].start >= hits[p].at && hits[p].at > hits[i].start + width
    decreases most - hits[i].nth
  {
    p := i + 1;
    assert Follows(hits[i], hits[p], width);
    if hits[p].nth != 1 {
      p := NextWindow(hits, width, most, i + 1);
    }
  }

  /** Twice as many hits as a window admits take longer than a window, unless the first one opens a window whose
      stamp is older than itself. */
  lemma TwiceTheLimitTakesLonger(hits: seq<Hit>, width: nat, most: nat, i: nat)
    requires Trace(hits, width, most) && i < |hits| && i + 2 * most - 1 < |hits| && most > 0
    requires hits[i].nth == 1 ==> hits[i].start >= hits[i].at
    ensures hits[i + 2 * most - 1].at > hits[i].at + width
  {
    var p := NextWindow(hits, width, most, i);
    if hits[i].nth == 1 {
      Ordered(hits, width, most, p, i + 2 * most - 1);
    } else {
      var q := NextWindow(hits, width, most, p);
      Ordered(hits, width, most, i, p);
      Ordered(hits, width, most, q, i + 2 * most - 1);
    }
  }

  lemma {:induction false} NoneWithin(hits: seq<Hit>, a: int, b: int)
    requires forall i :: 0 <= i < |hits| ==> hits[i].at < a
    ensures Within(hits, a, b) == 0
  {
    if hits != [] {
      NoneWithin(hits[..|hits| - 1], a, b);
    }
  }

  lemma {:induction false} WithinGrows(hits: seq<Hit>, n: nat, a: int, b: int)
    requires n <= |hits|
    ensures Within(hits, a, b) <= Within(hits[..n], a, b) + (|hits| - n)
  {
    if n < |hits| {
      var less := hits[..|hits| - 1];
      WithinGrows(less, n, a, b);
      assert less[..n] == hits[..n];
    } else {
      assert hits[..n] == hits;
    }
  }

  /** If any `n` + 1 successive hits take longer than the interval, the interval has at most `n`. */
  lemma {:induction false} Sparse(hits: seq<Hit>, n: nat, a: int, b: int)
    requires forall i, j :: 0 <= i && j == i + n && j < |hits| ==> hits[j].at > hits[i].at + (b - a)
    requires forall i, j :: 0 <= i <= j < |hits| ==> hits[i].at <= hits[j].at
    ensures Within(hits, a, b) <= n
  {
    if |hits| > n {
      var m := |hits| - 1;
      if hits[m].at <= b {
        assert hits[m - n].at < a;
        NoneWithin(hits[..m - n + 1], a, b);
        WithinGrows(hits, m - n + 1, a, b);
      } else {
        Sparse(hits[..m], n, a, b);
      }
    } else {
      WithinGrows(hits, 0, a, b);
    }
  }

  /** The bound of a fixed window: one short of two windows' worth in any closed interval as long as a window. */
  lemma AtMostTwoWindows(hits: seq<Hit>, width: nat, most: nat, a: int)
    requires Trace(hits, width, most)
    requires hits != [] ==> hits[0].nth != 1 || hits[0].start >= hits[0].at
    requires most > 0
    ensures Within(hits, a, a + width) <= 2 * most - 1
  {
    forall i, j | 0 <= i <= j < |hits|
      ensures hits[i].at <= hits[j].at
    {
      Ordered(hits, width, most, i, j);
    }
    forall i, j | 0 <= i && j == i + (2 * most - 1) && j < |hits|
      ensures hits[j].at > hits[i].at + width
    {
      if i > 0 {
        assert Follows(hits[i - 1], hits[i], width);
      }
      TwiceTheLimitTakesLonger(hits, width, most, i);
    }
    Sparse(hits, 2 * most - 1, a, a + width);
  }

  lemma {:induction false} WithinTail(hits: seq<Hit>, a: int, b: int)
    requires hits != []
    ensures Within(hits, a, b) == Within(hits[1..], a, b) + if a <= hits[0].at <= b then 1 else 0
  {
    if |hits| == 1 {
      assert hits[..0] == [];
    } else {
      var less := hits[..|hits| - 1];
      WithinTail(less, a, b);
      assert less[1..] == hits[1..][..|hits| - 2];
    }
  }

  /** If the first window was stamped before its first hit, that hit can bring the bound up by one. */
  lemma AtMostTwoWindowsAndTheFirst(hits: seq<Hit>, width: nat, most: nat, a: int)
    requires Trace(hits, width, most) && hits != [] && most > 0
    ensures Within(hits, a, a + width) <= 2 * most - 1 + if a <= hits[0].at <= a + width then 1 else 0
  {
    var tail := hits[1..];
    WithinTail(hits, a, a + width);
    forall i, j | 0 <= i && j == i + 1 && j < |tail|
      ensures Follows(tail[i], tail[j], width)
    {
      assert Follows(hits[i + 1], hits[j + 1], width);
    }
    if tail != [] {
      assert Follows(hits[0], hits[1], width);
    }
    AtMostTwoWindows(tail, width, most, a);
  }

  /** One more hit keeps the trace. */
  lemma TraceSnoc(hits: seq<Hit>, width: int, most: nat, h: Hit)
    requires Trace(hits, width, most) && 1 <= h.nth <= most
    requires hits != [] ==> Follows(hits[|hits| - 1], h, width)
    ensures Trace(hits + [h], width, most)
  {
  }
}

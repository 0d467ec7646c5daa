/** The cap on answered discovery packets: 40 for each window of more than a second. */
module Discovery {
  import opened FixedWindow

  /** Milliseconds. */
  const SECOND: nat := 1000
  const PACKETS: nat := 40

  /** A packet: when the loop looks at its window, and how long until the next clock reading. */
  datatype Packet = Packet(at: int, pause: nat)

  datatype Counter = Counter(window: int, count: nat)

  /** The packets of a loop that starts at `from`. */
  ghost predicate InOrder(from: int, ps: seq<Packet>) {
    && (forall i :: 0 <= i < |ps| ==> from <= ps[i].at)
    && (forall i, j :: 0 <= i < j < |ps| ==> ps[i].at + ps[i].pause <= ps[j].at)
  }

  function Step(c: Counter, p: Packet): Counter {
    if p.at - c.window > SECOND then Counter(p.at + p.pause, 1) else c.(count := c.count + 1)
  }

  function After(from: int, ps: seq<Packet>): Counter {
    if ps == [] then Counter(from, 0) else Step(After(from, ps[..|ps| - 1]), ps[|ps| - 1])
  }

  /** The packets that get past the cap. */
  function Answered(from: int, ps: seq<Packet>): seq<Hit> {
    if ps == [] then []
    else
      var c := After(from, ps);
      Answered(from, ps[..|ps| - 1]) + if c.count <= PACKETS then [Hit(ps[|ps| - 1].at, c.count, c.window)] else []
  }

  /** The receive loop: which packets are looked at further. */
  method Receive(from: int, ps: seq<Packet>) returns (passed: seq<bool>)
    ensures |passed| == |ps|
    ensures forall i :: 0 <= i < |ps| ==> passed[i] == (After(from, ps[..i + 1]).count <= PACKETS)
  {
    var window, count := from, 0;
    passed := [];
    while |passed| < |ps|
      invariant |passed| <= |ps| && count >= 0
      invariant Counter(window, count) == After(from, ps[..|passed|])
      invariant forall i :: 0 <= i < |passed| ==> passed[i] == (After(from, ps[..i + 1]).count <= PACKETS)
    {
      var i := |passed|;
      assert ps[..i + 1][..i] == ps[..i];
      var p := ps[i];
      if p.at - window > SECOND {
        window := p.at + p.pause;
        count := 0;
      }
      count := count + 1;
      passed := passed + [count <= PACKETS];
    }
    assert ps[..|ps|] == ps;
  }

  /** How the answered packets and the counter of a loop that started at `from` fit together. */
  ghost predicate Fit(from: int, first: Packet, last: Packet, hits: seq<Hit>, c: Counter) {
    && Trace(hits, SECOND, PACKETS)
    && hits != [] && hits[0].at == first.at && hits[0].nth == 1
    && (hits[0].start < hits[0].at ==> first.at <= from + SECOND)
    && c.count >= 1
    && c.window <= last.at + last.pause
    && var h := hits[|hits| - 1];
       h.start == c.window && h.at <= last.at && h.nth == if c.count <= PACKETS then c.count else PACKETS
  }

  lemma StepFits(from: int, first: Packet, last: Packet, hits: seq<Hit>, c: Counter, p: Packet)
    requires Fit(from, first, last, hits, c) && last.at + last.pause <= p.at
    ensures
      var d := Step(c, p);
      Fit(from, first, p, hits + if d.count <= PACKETS then [Hit(p.at, d.count, d.window)] else [], d)
  {
    var d := Step(c, p);
    if d.count <= PACKETS {
      TraceSnoc(hits, SECOND, PACKETS, Hit(p.at, d.count, d.window));
    }
  }

  lemma AnsweredSnoc(from: int, ps: seq<Packet>, p: Packet)
    ensures After(from, ps + [p]) == Step(After(from, ps), p)
    ensures
      var c := After(from, ps + [p]);
      Answered(from, ps + [p]) == Answered(from, ps) + if c.count <= PACKETS then [Hit(p.at, c.count, c.window)] else []
  {
    assert (ps + [p])[..|ps|] == ps;
  }

  /** The answered packets follow the fixed-window scheme; only the first window can be older than its packets. */
  lemma {:induction false} AnsweredIsATrace(from: int, ps: seq<Packet>)
    requires InOrder(from, ps) && ps != []
    ensures Fit(from, ps[0], ps[|ps| - 1], Answered(from, ps), After(from, ps))
  {
    var less, p := ps[..|ps| - 1], ps[|ps| - 1];
    assert less + [p] == ps;
    AnsweredSnoc(from, less, p);
    if less != [] {
      AnsweredIsATrace(from, less);
      StepFits(from, ps[0], less[|less| - 1], Answered(from, less), After(from, less), p);
    } else {
      FirstFits(from, p);
    }
  }

  lemma FirstFits(from: int, p: Packet)
    requires from <= p.at
    ensures
      var d := Step(Counter(from, 0), p);
      d.count <= PACKETS && Fit(from, p, p, [Hit(p.at, d.count, d.window)], d)
  {
  }

  /** At most 79 packets are answered in any closed second; 80 only if the very first packet is one of them and came
      in the window the loop started with. */
  lemma AnsweredPerSecond(from: int, ps: seq<Packet>, a: int)
    requires InOrder(from, ps)
    ensures Within(Answered(from, ps), a, a + SECOND) <= 2 * PACKETS
    ensures Within(Answered(from, ps), a, a + SECOND) == 2 * PACKETS
            ==> ps != [] && a <= ps[0].at <= a + SECOND && ps[0].at <= from + SECOND
  {
    if ps != [] {
      AnsweredIsATrace(from, ps);
      var hits := Answered(from, ps);
      AtMostTwoWindowsAndTheFirst(hits, SECOND, PACKETS, a);
      if hits[0].start >= hits[0].at {
        AtMostTwoWindows(hits, SECOND, PACKETS, a);
      }
    }
  }

  /** A packet is dropped only when its window has answered its 40. */
  lemma DroppedOnlyWhenFull(from: int, ps: seq<Packet>)
    requires InOrder(from, ps) && ps != [] && After(from, ps).count > PACKETS
    ensures
      var hits := Answered(from, ps);
      |hits| >= PACKETS && forall i :: |hits| - PACKETS <= i < |hits| ==> hits[i].start == After(from, ps).window
  {
    AnsweredIsATrace(from, ps);
    SameWindow(Answered(from, ps), SECOND, PACKETS);
  }

  lemma {:induction false} SameWindow(hits: seq<Hit>, width: nat, most: nat)
    requires Trace(hits, width, most) && hits != [] && hits[0].nth == 1
    ensures
      var h := hits[|hits| - 1];
      h.nth <= |hits| && forall i :: |hits| - h.nth <= i < |hits| ==> hits[i].start == h.start
  {
    var h := hits[|hits| - 1];
    if h.nth > 1 {
      assert |hits| > 1;
      assert Follows(hits[|hits| - 2], h, width);
      SameWindow(hits[..|hits| - 1], width, most);
    }
  }

  function Burst(n: nat, at: int): seq<Packet> {
    if n == 0 then [] else Burst(n - 1, at) + [Packet(at, 0)]
  }

  /** The counter after n > 0 packets at once. */
  function Counted(c: Counter, n: nat, at: int): Counter {
    if at - c.window > SECOND then Counter(at, n) else c.(count := c.count + n)
  }

  /** A burst is answered in full as long as its window has room. */
  lemma {:induction false} BurstIsAnswered(from: int, ps: seq<Packet>, n: nat, at: int, a: int, b: int)
    requires n > 0 && a <= at <= b
    requires Counted(After(from, ps), n, at).count <= PACKETS
    ensures After(from, ps + Burst(n, at)) == Counted(After(from, ps), n, at)
    ensures Within(Answered(from, ps + Burst(n, at)), a, b) == Within(Answered(from, ps), a, b) + n
  {
    var less := ps + Burst(n - 1, at);
    var p := Packet(at, 0);
    assert ps + Burst(n, at) == less + [p];
    if n > 1 {
      BurstIsAnswered(from, ps, n - 1, at, a, b);
    } else {
      assert less == ps;
    }
    OneMorePacket(from, less, at, a, b);
  }

  lemma OneMorePacket(from: int, ps: seq<Packet>, at: int, a: int, b: int)
    requires a <= at <= b && Step(After(from, ps), Packet(at, 0)).count <= PACKETS
    ensures After(from, ps + [Packet(at, 0)]) == Step(After(from, ps), Packet(at, 0))
    ensures Within(Answered(from, ps + [Packet(at, 0)]), a, b) == Within(Answered(from, ps), a, b) + 1
  {
    var c := Step(After(from, ps), Packet(at, 0));
    AnsweredSnoc(from, ps, Packet(at, 0));
    WithinSnoc(Answered(from, ps), Hit(at, c.count, c.window), a, b);
  }

  lemma WithinSnoc(hits: seq<Hit>, h: Hit, a: int, b: int)
    ensures Within(hits + [h], a, b) == Within(hits, a, b) + if a <= h.at <= b then 1 else 0
  {
    assert (hits + [h])[..|hits|] == hits;
  }

  lemma TwoBurstsInOrder(from: int, n: nat, s: int, t: int)
    requires from <= s <= t
    ensures InOrder(from, Burst(n, s) + Burst(n, t))
  {
    BurstIs(n, s);
    BurstIs(n, t);
  }

  lemma TwoBursts(from: int, n: nat, a: int, b: int)
    requires 0 < n <= PACKETS && a == from + SECOND && b == from + 2 * SECOND
    ensures Within(Answered(from, Burst(n, a) + Burst(n, a + 1)), a, b) == 2 * n
  {
    assert After(from, []) == Counter(from, 0);
    BurstIsAnswered(from, [], n, a, a, b);
    assert [] + Burst(n, a) == Burst(n, a);
    BurstIsAnswered(from, Burst(n, a), n, a + 1, a, b);
  }

  /** The bound of 80 is met: one burst as the first window runs out, one right after. */
  lemma EightyIsReached(from: int) returns (ps: seq<Packet>)
    ensures InOrder(from, ps)
    ensures Within(Answered(from, ps), from + SECOND, from + 2 * SECOND) == 2 * PACKETS
  {
    ps := Burst(PACKETS, from + SECOND) + Burst(PACKETS, from + SECOND + 1);
    TwoBurstsInOrder(from, PACKETS, from + SECOND, from + SECOND + 1);
    TwoBursts(from, PACKETS, from + SECOND, from + 2 * SECOND);
  }

  lemma BurstIs(n: nat, at: int)
    ensures |Burst(n, at)| == n && forall i :: 0 <= i < n ==> Burst(n, at)[i] == Packet(at, 0)
  {
  }
}

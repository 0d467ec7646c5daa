/** In which order frames can arrive at a client. */
module HubOrder {
  import opened HubModel
  import opened HubInvariants
  import opened HubRuns
  import HubCascade

  ghost predicate Precedes(fs: seq<Frame>, g: Frame, f: Frame) {
    exists j, k :: 0 <= j < k < |fs| && fs[j] == g && fs[k] == f
  }

  /** A chat message in the history that the client may see, or a list of devices that has been made. */
  predicate Issued(s: State, c: Client, f: Frame) {
    match f
    case Chat(n) => n < |s.made| && n !in s.composing && VisibleTo(s.made[n], c.device)
    case Presence(k) => k < |s.lists|
    case _ => false
  }

  /** Its deliver call is yet to come. */
  predicate AheadOfDeliver(s: State, f: Frame) {
    match f
    case Chat(n) => n in s.undelivered
    case Presence(k) => k in s.waiting
    case _ => false
  }

  /** The retry has another round: it has found its deadline ahead and waits for the lock, or is going to find it so. */
  predicate Alive(now: int, t: Slow) {
    t.Spawned? || (t.Retrying? && (t.checked || (now < t.deadline && WakesAt(t) < t.deadline)))
  }

  /** deliver, its loop or a retry has yet to do with the frame. */
  predicate OnTheWay(s: State, c: Client, f: Frame) {
    AheadOfDeliver(s, f) || f in c.toVisit || f in c.slow
  }

  /** The client is registered, and deliver, its loop or a retry can still bring the frame. */
  predicate CanArrive(s: State, c: Client, f: Frame) {
    c.registered && (AheadOfDeliver(s, f) || f in c.toVisit || (f in c.slow && Alive(s.now, c.slow[f])))
  }

  // ---- what cannot arrive never does -------------------------------------------------------------------------

  ghost predicate Lost(s: State, i: nat, f: Frame) {
    && i < |s.clients| && !s.clients[i].stage.New?
    && Issued(s, s.clients[i], f) && f !in s.clients[i].stream && !CanArrive(s, s.clients[i], f)
  }

  /** One client's part of a step: frames that are lost to it stay lost. */
  lemma ClientLost(now: int, c: Client, e: Event, f: Frame)
    requires ClientInv(c) && !c.stage.New? && Broadcast(f) && f !in c.stream
    requires c.registered ==> f !in c.toVisit && (f in c.slow ==> !Alive(now, c.slow[f]))
    ensures
      var d := Moved(now, c, e);
      && f !in d.stream && d.device == c.device && !d.stage.New? && (d.registered ==> c.registered)
      && (d.registered ==> f !in d.toVisit && (f in d.slow ==> !Alive(now, d.slow[f])))
  {
  }

  /** What frames know of a client. */
  predicate SameTraffic(c: Client, d: Client) {
    && d.device == c.device && d.toVisit == c.toVisit && d.slow == c.slow
    && (d.registered ==> c.registered) && !d.stage.New?
  }

  /** Register, ReadPump and Unregister bring no chat or presence frame. */
  lemma OwnStep(s: State, e: Event, i: nat, f: Frame)
    requires i < |s.clients| && !s.clients[i].stage.New? && Broadcast(f) && f !in s.clients[i].stream
    requires !MovesFrame(e) && !e.Disconnect?
    ensures
      var t := NextOf(s, e, i);
      i < |t.clients| && SameTraffic(s.clients[i], t.clients[i]) && f !in t.clients[i].stream
  {
  }

  lemma OfferStep(c: Client, g: Frame, wanted: bool, f: Frame)
    requires f != g || !c.registered
    ensures
      var d := Offer(c, g, wanted);
      d == c.(toVisit := d.toVisit, offered := d.offered) && (f in d.toVisit <==> f in c.toVisit)
  {
  }

  /** The hub's part of a step: what has been issued stays so, and nothing is handed over twice. */
  lemma IssuedStays(s: State, e: Event, c: Client, f: Frame)
    requires Messages(s) && Issued(s, c, f)
    ensures Issued(Next(s, e), c, f)
    ensures AheadOfDeliver(Next(s, e), f) ==> AheadOfDeliver(s, f)
  {
  }

  lemma LostStaysLost(s: State, e: Event, i: nat, f: Frame)
    requires Inv(s) && Lost(s, i, f)
    ensures Lost(Next(s, e), i, f)
  {
    var c, t := s.clients[i], Next(s, e);
    assert Fits(s, c);
    IssuedStays(s, e, c, f);
    ClientAfter(s, e, i, f);
  }

  /** Lost to a client, as far as the client knows. */
  predicate Unreachable(now: int, c: Client, d: Client, f: Frame) {
    && d.device == c.device && !d.stage.New? && f !in d.stream
    && (d.registered ==> c.registered && f !in d.toVisit && (f in d.slow ==> !Alive(now, d.slow[f])))
  }

  lemma MineAfter(s: State, e: Event, i: nat, f: Frame)
    requires i < |s.clients| && ClientInv(s.clients[i]) && Lost(s, i, f) && OfClient(e) && e.c == i
    ensures i < |Next(s, e).clients| && Unreachable(Next(s, e).now, s.clients[i], Next(s, e).clients[i], f)
  {
    if MovesFrame(e) {
      ClientLost(s.now, s.clients[i], e, f);
      assert NextOf(s, e, i) == With(s, i, Moved(s.now, s.clients[i], e));
    } else if !e.Disconnect? {
      OwnStep(s, e, i, f);
    }
  }

  /** The client's part of a step. */
  lemma ClientAfter(s: State, e: Event, i: nat, f: Frame)
    requires i < |s.clients| && ClientInv(s.clients[i]) && Lost(s, i, f)
    ensures i < |Next(s, e).clients| && Unreachable(Next(s, e).now, s.clients[i], Next(s, e).clients[i], f)
  {
    if OfClient(e) {
      if e.c == i {
        MineAfter(s, e, i, f);
      }
    } else {
      HubAfter(s, e, i, f);
    }
  }

  lemma HubAfter(s: State, e: Event, i: nat, f: Frame)
    requires i < |s.clients| && Lost(s, i, f) && !OfClient(e)
    ensures i < |Next(s, e).clients| && Unreachable(Next(s, e).now, s.clients[i], Next(s, e).clients[i], f)
  {
    var c := s.clients[i];
    match e
    case DeliverChat(n) =>
      if n in s.undelivered && n < |s.made| {
        OfferStep(c, Chat(n), VisibleTo(s.made[n], c.device), f);
      }
    case DeliverPresence(k) =>
      if k in s.waiting {
        OfferStep(c, Presence(k), true, f);
      }
    case _ =>
  }

  lemma {:induction false} LostForever(s: State, es: seq<Event>, i: nat, f: Frame)
    requires Inv(s) && Lost(s, i, f)
    ensures Lost(Exec(s, es), i, f)
    decreases |es|
  {
    if es != [] {
      NextKeepsInv(s, es[0]);
      LostStaysLost(s, es[0], i, f);
      LostForever(Next(s, es[0]), es[1..], i, f);
    }
  }

  // ---- what is on a channel stays there, in its place ---------------------------------------------------------

  lemma StreamGrows(s: State, e: Event, i: nat)
    requires i < |s.clients|
    ensures i < |Next(s, e).clients| && s.clients[i].stream <= Next(s, e).clients[i].stream
  {
    if OfClient(e) {
      if e.c == i {
        MyStreamGrows(s, e, i);
      }
    } else {
      HubStreamGrows(s, e, i);
    }
  }

  lemma HubStreamGrows(s: State, e: Event, i: nat)
    requires i < |s.clients| && !OfClient(e)
    ensures i < |Next(s, e).clients| && s.clients[i].stream == Next(s, e).clients[i].stream
  {
  }

  lemma MyStreamGrows(s: State, e: Event, i: nat)
    requires i < |s.clients|
    ensures i < |NextOf(s, e, i).clients| && s.clients[i].stream <= NextOf(s, e, i).clients[i].stream
  {
  }

  lemma {:induction false} StreamsGrow(s: State, es: seq<Event>, i: nat)
    requires i < |s.clients|
    ensures i < |Exec(s, es).clients| && s.clients[i].stream <= Exec(s, es).clients[i].stream
    decreases |es|
  {
    if es != [] {
      StreamGrows(s, es[0], i);
      StreamsGrow(Next(s, es[0]), es[1..], i);
    }
  }

  lemma OnlyOnce(fs: seq<Frame>, f: Frame, j: nat, k: nat)
    requires j < |fs| && k < |fs| && fs[j] == f && fs[k] == f
    ensures j == k || multiset(fs)[f] >= 2
  {
    var lo, hi := if j < k then j else k, if j < k then k else j;
    if lo < hi {
      assert fs == fs[..hi] + fs[hi..];
      assert fs[..hi][lo] == f && fs[hi..][0] == f;
    }
  }

  /** A frame that is on the channel is not overtaken any more. */
  lemma NotOvertaken(before: seq<Frame>, after: seq<Frame>, g: Frame, f: Frame)
    requires before <= after && f in before && multiset(after)[f] <= 1
    ensures Precedes(after, g, f) <==> Precedes(before, g, f)
  {
    var at :| 0 <= at < |before| && before[at] == f;
    if Precedes(after, g, f) {
      var j, k :| 0 <= j < k < |after| && after[j] == g && after[k] == f;
      OnlyOnce(after, f, at, k);
    }
    if Precedes(before, g, f) {
      var j, k :| 0 <= j < k < |before| && before[j] == g && before[k] == f;
      assert after[j] == g && after[k] == f;
    }
  }

  // ---- what can arrive can arrive next ------------------------------------------------------------------------

  /** Nobody comes or goes, and no message is sent. */
  predicate Harmless(e: Event) {
    !HubCascade.FromOutside(e) && !e.Leave? && !e.Disconnect?
  }

  predicate AllHarmless(es: seq<Event>) {
    forall e :: e in es ==> Harmless(e)
  }

  /** No time has passed, and of all frames on their way to the client only f is elsewhere. */
  ghost predicate OnlyMoves(s: State, t: State, i: nat, f: Frame) {
    && i < |s.clients| && i < |t.clients| && t.now == s.now && t.made == s.made && t.lists == s.lists
    && var c, d := s.clients[i], t.clients[i];
       && d.device == c.device && d.registered == c.registered && !d.stage.New?
       && (forall g :: g != f ==> (AheadOfDeliver(t, g) <==> AheadOfDeliver(s, g)))
       && (forall g :: g != f ==> (g in d.toVisit <==> g in c.toVisit))
       && (forall g :: g != f ==> if g in c.slow then g in d.slow && d.slow[g] == c.slow[g] else g !in d.slow)
  }

  lemma OnlyMovesOn(s: State, t: State, u: State, i: nat, f: Frame)
    requires OnlyMoves(s, t, i, f) && OnlyMoves(t, u, i, f)
    ensures OnlyMoves(s, u, i, f)
  {
    forall g | g != f
      ensures AheadOfDeliver(u, g) <==> AheadOfDeliver(s, g)
    {
      assert AheadOfDeliver(t, g) <==> AheadOfDeliver(s, g);
    }
  }

  /** The frame can arrive without time passing. */
  predicate Prompt(s: State, c: Client, f: Frame) {
    && CanArrive(s, c, f)
    && (f in c.slow && c.slow[f].Retrying? && !c.slow[f].checked ==> WakesAt(c.slow[f]) <= s.now < c.slow[f].deadline)
  }

  /** The frame comes closer: the stream is as it was and the frame can still arrive. */
  ghost predicate Closer(s: State, t: State, i: nat, f: Frame) {
    && OnlyMoves(s, t, i, f)
    && t.clients[i].stream == s.clients[i].stream
    && Issued(t, t.clients[i], f) && Prompt(t, t.clients[i], f) && Rank(t, t.clients[i], f) < Rank(s, s.clients[i], f)
  }

  /** How many steps the frame is from arriving. */
  function Rank(s: State, c: Client, f: Frame): nat {
    (if AheadOfDeliver(s, f) then 5 else 0) +
    (if QueueLength(c) >= BUFFER then 1 else 0) +
    (if f in c.toVisit then 0
     else if f in c.slow && c.slow[f].Spawned? then 3
     else if f in c.slow && c.slow[f].Retrying? && !c.slow[f].checked then 2
     else 1)
  }

  lemma HandOver(s: State, i: nat, f: Frame) returns (e: Event)
    requires i < |s.clients| && !s.clients[i].stage.New?
    requires Issued(s, s.clients[i], f) && Prompt(s, s.clients[i], f) && AheadOfDeliver(s, f)
    ensures Closer(s, Next(s, e), i, f) && Harmless(e)
  {
    e := if f.Chat? then DeliverChat(f.serial) else DeliverPresence(f.number);
    var c, t := s.clients[i], Next(s, e);
    assert t.clients[i] == Offer(c, f, true);
  }

  lemma MakeRoom(s: State, i: nat, f: Frame)
    requires i < |s.clients| && ClientInv(s.clients[i]) && !s.clients[i].stage.New?
    requires Issued(s, s.clients[i], f) && Prompt(s, s.clients[i], f) && QueueLength(s.clients[i]) >= BUFFER
    ensures Closer(s, Next(s, Take(i)), i, f)
  {
    assert Next(s, Take(i)) == With(s, i, Consume(s.clients[i]));
  }

  lemma Begin(s: State, i: nat, f: Frame)
    requires i < |s.clients| && !s.clients[i].stage.New?
    requires Issued(s, s.clients[i], f) && Prompt(s, s.clients[i], f)
    requires f in s.clients[i].slow && s.clients[i].slow[f].Spawned? && f !in s.clients[i].toVisit
    ensures Closer(s, Next(s, BeginSlow(i, f)), i, f)
  {
    assert Next(s, BeginSlow(i, f)) == With(s, i, SlowBegin(s.now, s.clients[i], f));
  }

  lemma Look(s: State, i: nat, f: Frame)
    requires i < |s.clients| && !s.clients[i].stage.New?
    requires Issued(s, s.clients[i], f) && Prompt(s, s.clients[i], f) && f !in s.clients[i].toVisit
    requires f in s.clients[i].slow && s.clients[i].slow[f].Retrying? && !s.clients[i].slow[f].checked
    ensures Closer(s, Next(s, ReadClock(i, f)), i, f)
  {
    assert Next(s, ReadClock(i, f)) == With(s, i, BeginRound(s.now, s.clients[i], f));
  }

  /** The loop or a retry has come to the frame, and there is room. */
  predicate Sendable(s: State, c: Client, f: Frame) {
    && !AheadOfDeliver(s, f) && QueueLength(c) < BUFFER
    && (f in c.toVisit || (f in c.slow && c.slow[f].Retrying? && c.slow[f].checked))
  }

  /** The last step: the loop or a retry sends the frame. */
  lemma SendIt(s: State, i: nat, f: Frame) returns (e: Event)
    requires i < |s.clients| && ClientInv(s.clients[i]) && !s.clients[i].stage.New? && Broadcast(f)
    requires CanArrive(s, s.clients[i], f) && Sendable(s, s.clients[i], f)
    ensures OnlyMoves(s, Next(s, e), i, f) && Harmless(e)
    ensures Next(s, e).clients[i].stream == s.clients[i].stream + [f] && !OnTheWay(Next(s, e), Next(s, e).clients[i], f)
  {
    var c := s.clients[i];
    assert Places(c, f) == One(f in c.offered);
    if f in c.toVisit {
      e := VisitOne(i, f);
      assert Next(s, e) == With(s, i, Visit(c, f));
    } else {
      e := TryAgain(i, f);
      assert Next(s, e) == With(s, i, Attempt(c, f));
    }
  }

  lemma ComeCloser(s: State, i: nat, f: Frame) returns (e: Event)
    requires i < |s.clients| && ClientInv(s.clients[i]) && !s.clients[i].stage.New?
    requires Issued(s, s.clients[i], f) && Prompt(s, s.clients[i], f) && !Sendable(s, s.clients[i], f)
    ensures Closer(s, Next(s, e), i, f) && Harmless(e)
  {
    var c := s.clients[i];
    if AheadOfDeliver(s, f) {
      e := HandOver(s, i, f);
    } else if QueueLength(c) >= BUFFER {
      e := Take(i);
      MakeRoom(s, i, f);
    } else if c.slow[f].Spawned? {
      e := BeginSlow(i, f);
      Begin(s, i, f);
    } else {
      e := ReadClock(i, f);
      Look(s, i, f);
    }
  }

  /** A frame that can arrive without time passing can be the next one to arrive, and all others stay where they are. */
  lemma {:induction false} Arrive(s: State, i: nat, f: Frame) returns (es: seq<Event>)
    requires Inv(s) && i < |s.clients| && !s.clients[i].stage.New?
    requires Issued(s, s.clients[i], f) && Prompt(s, s.clients[i], f)
    ensures Inv(Exec(s, es)) && OnlyMoves(s, Exec(s, es), i, f) && AllHarmless(es)
    ensures Exec(s, es).clients[i].stream == s.clients[i].stream + [f]
    ensures !OnTheWay(Exec(s, es), Exec(s, es).clients[i], f)
    decreases Rank(s, s.clients[i], f)
  {
    assert Fits(s, s.clients[i]);
    var e, more := Tick(0), [];
    if Sendable(s, s.clients[i], f) {
      e := SendIt(s, i, f);
      NextKeepsInv(s, e);
    } else {
      e := ComeCloser(s, i, f);
      NextKeepsInv(s, e);
      more := Arrive(Next(s, e), i, f);
      OnlyMovesOn(s, Next(s, e), Exec(Next(s, e), more), i, f);
    }
    es := [e] + more;
    assert es[1..] == more;
  }

  // ---- every live retry can begin its next round in time ------------------------------------------------------

  /** It sleeps, or is about to look at the clock, and will find its deadline ahead. */
  predicate Asleep(now: int, t: Slow) {
    t.Retrying? && !t.checked && Alive(now, t)
  }

  /** No retry of the client depends on when it will be scheduled. */
  ghost predicate Secured(s: State, c: Client) {
    forall f :: f in c.slow ==> !Asleep(s.now, c.slow[f])
  }

  /** Nothing is different but the clock and the retries that have looked at it. */
  ghost predicate OnlyLooks(s: State, t: State, i: nat) {
    && i < |s.clients| && t == s.(now := t.now, clients := t.clients) && s.now <= t.now && i < |t.clients|
    && var c, d := s.clients[i], t.clients[i];
       && d == c.(slow := d.slow) && d.slow.Keys == c.slow.Keys
       && forall f :: f in c.slow && Alive(s.now, c.slow[f]) ==> Alive(t.now, d.slow[f])
  }

  function Sleepers(now: int, m: map<Frame, Slow>): set<Frame> {
    set f | f in m && Asleep(now, m[f])
  }

  lemma {:induction false} FirstToWake(m: map<Frame, Slow>, fs: set<Frame>) returns (f: Frame)
    requires fs != {} && forall g :: g in fs ==> g in m && m[g].Retrying?
    ensures f in fs && forall g :: g in fs ==> WakesAt(m[f]) <= WakesAt(m[g])
    decreases |fs|
  {
    f :| f in fs;
    var rest := fs - {f};
    assert forall g :: g in fs ==> g == f || g in rest;
    if rest != {} {
      var g := FirstToWake(m, rest);
      if WakesAt(m[g]) < WakesAt(m[f]) {
        f := g;
      }
    }
  }

  /** The retry that wakes first is scheduled in time; the others still can be. */
  lemma OneLooks(s: State, i: nat, f: Frame) returns (es: seq<Event>)
    requires i < |s.clients| && f in Sleepers(s.now, s.clients[i].slow)
    requires forall g :: g in Sleepers(s.now, s.clients[i].slow) ==> WakesAt(s.clients[i].slow[f]) <= WakesAt(s.clients[i].slow[g])
    ensures AllHarmless(es) && OnlyLooks(s, Exec(s, es), i)
    ensures Sleepers(Exec(s, es).now, Exec(s, es).clients[i].slow) == Sleepers(s.now, s.clients[i].slow) - {f}
  {
    var c := s.clients[i];
    var wait := if s.now < WakesAt(c.slow[f]) then WakesAt(c.slow[f]) - s.now else 0;
    es := [Tick(wait), ReadClock(i, f)];
    var t := s.(now := s.now + wait);
    assert es[1..] == [ReadClock(i, f)] && es[1..][1..] == [];
    assert Next(s, Tick(wait)) == t;
    var d := c.(slow := c.slow[f := c.slow[f].(checked := true)]);
    assert Next(t, ReadClock(i, f)) == With(t, i, d);
    assert Exec(s, es) == Exec(t, es[1..]) == With(t, i, d);
    LooksInTime(s.now, t.now, c.slow, f);
  }

  lemma LooksInTime(now: int, later: int, m: map<Frame, Slow>, f: Frame)
    requires f in Sleepers(now, m) && later == if now < WakesAt(m[f]) then WakesAt(m[f]) else now
    requires forall g :: g in Sleepers(now, m) ==> WakesAt(m[f]) <= WakesAt(m[g])
    ensures
      var n := m[f := m[f].(checked := true)];
      && Sleepers(later, n) == Sleepers(now, m) - {f}
      && forall g :: g in m && Alive(now, m[g]) ==> Alive(later, n[g])
  {
    var n := m[f := m[f].(checked := true)];
    forall g | g in m && Alive(now, m[g])
      ensures Alive(later, n[g])
    {
      if Asleep(now, m[g]) {
        assert g in Sleepers(now, m);
      }
    }
  }

  /** All live retries of a client can be scheduled in time. */
  lemma {:induction false} Secure(s: State, i: nat) returns (es: seq<Event>)
    requires Inv(s) && i < |s.clients|
    ensures AllHarmless(es) && Inv(Exec(s, es)) && OnlyLooks(s, Exec(s, es), i)
    ensures Secured(Exec(s, es), Exec(s, es).clients[i])
    decreases |Sleepers(s.now, s.clients[i].slow)|
  {
    var sleepers := Sleepers(s.now, s.clients[i].slow);
    es := [];
    if sleepers == {} {
      forall f | f in s.clients[i].slow
        ensures !Asleep(s.now, s.clients[i].slow[f])
      {
        assert f !in sleepers;
      }
    } else {
      var f := FirstToWake(s.clients[i].slow, sleepers);
      var first := OneLooks(s, i, f);
      ExecKeepsInv(s, first);
      assert |sleepers - {f}| < |sleepers|;
      var more := Secure(Exec(s, first), i);
      ExecConcat(s, first, more);
      es := first + more;
    }
  }

  // ---- the order of arrival -----------------------------------------------------------------------------------

  /** After these steps g is on the channel of client i, ahead of f. */
  ghost predicate ComesFirst(s: State, es: seq<Event>, i: nat, g: Frame, f: Frame) {
    i < |Exec(s, es).clients| && Precedes(Exec(s, es).clients[i].stream, g, f)
  }

  /**
   The order in which frames are made or handed to deliver is not the order in which they arrive: in some
   continuation g comes before f if and only if it is before it on the channel already, or f is not on the channel,
   can still arrive, and g is there or can still arrive too.
   */
  lemma EitherOrder(start: int, ttl: nat, before: seq<Event>, i: nat, g: Frame, f: Frame)
    requires
      var s := Exec(Empty(start, ttl), before);
      && i < |s.clients| && !s.clients[i].stage.New? && g != f
      && Issued(s, s.clients[i], g) && Issued(s, s.clients[i], f)
    ensures
      var s := Exec(Empty(start, ttl), before);
      var c := s.clients[i];
      (exists es :: ComesFirst(s, es, i, g, f)) <==>
      if f in c.stream then Precedes(c.stream, g, f)
      else CanArrive(s, c, f) && (g in c.stream || CanArrive(s, c, g))
  {
    var s := Exec(Empty(start, ttl), before);
    ExecKeepsInv(Empty(start, ttl), before);
    if f in s.clients[i].stream {
      if Precedes(s.clients[i].stream, g, f) {
        assert ComesFirst(s, [], i, g, f);
      }
      forall es | ComesFirst(s, es, i, g, f)
        ensures Precedes(s.clients[i].stream, g, f)
      {
        NeverOvertaken(s, es, i, g, f);
      }
    } else {
      forall es | ComesFirst(s, es, i, g, f)
        ensures CanArrive(s, s.clients[i], f) && (g in s.clients[i].stream || CanArrive(s, s.clients[i], g))
      {
        BothArrived(s, es, i, g, f);
      }
      if CanArrive(s, s.clients[i], f) && (g in s.clients[i].stream || CanArrive(s, s.clients[i], g)) {
        var es := BringInOrder(s, i, g, f);
      }
    }
  }

  lemma NeverOvertaken(s: State, es: seq<Event>, i: nat, g: Frame, f: Frame)
    requires Inv(s) && i < |s.clients| && f in s.clients[i].stream && Broadcast(f) && ComesFirst(s, es, i, g, f)
    ensures Precedes(s.clients[i].stream, g, f)
  {
    ExecKeepsInv(s, es);
    StreamsGrow(s, es, i);
    var d := Exec(s, es).clients[i];
    assert Fits(Exec(s, es), d);
    assert Places(d, f) == One(f in d.offered);
    NotOvertaken(s.clients[i].stream, d.stream, g, f);
  }

  lemma BothArrived(s: State, es: seq<Event>, i: nat, g: Frame, f: Frame)
    requires Inv(s) && i < |s.clients| && !s.clients[i].stage.New? && ComesFirst(s, es, i, g, f)
    requires Issued(s, s.clients[i], g) && Issued(s, s.clients[i], f)
    ensures f in s.clients[i].stream || CanArrive(s, s.clients[i], f)
    ensures g in s.clients[i].stream || CanArrive(s, s.clients[i], g)
  {
    if Lost(s, i, f) {
      LostForever(s, es, i, f);
    }
    if Lost(s, i, g) {
      LostForever(s, es, i, g);
    }
  }

  /** What could arrive still can, and now without time passing. */
  lemma SecuredIsPrompt(s: State, t: State, i: nat, f: Frame)
    requires Inv(t) && OnlyLooks(s, t, i) && Secured(t, t.clients[i])
    requires Issued(s, s.clients[i], f) && CanArrive(s, s.clients[i], f)
    ensures Issued(t, t.clients[i], f) && Prompt(t, t.clients[i], f)
  {
    assert AheadOfDeliver(t, f) <==> AheadOfDeliver(s, f);
    var d := t.clients[i];
    assert Fits(t, d) && Places(d, f) == One(f in d.offered);
  }

  lemma StillPrompt(s: State, t: State, i: nat, g: Frame, f: Frame)
    requires OnlyMoves(s, t, i, g) && g != f && Issued(t, t.clients[i], f) && Prompt(s, s.clients[i], f)
    ensures Prompt(t, t.clients[i], f)
  {
    assert AheadOfDeliver(t, f) <==> AheadOfDeliver(s, f);
  }

  lemma BringInOrder(s: State, i: nat, g: Frame, f: Frame) returns (es: seq<Event>)
    requires Inv(s) && i < |s.clients| && !s.clients[i].stage.New? && g != f
    requires Issued(s, s.clients[i], g) && Issued(s, s.clients[i], f) && CanArrive(s, s.clients[i], f)
    requires g in s.clients[i].stream || CanArrive(s, s.clients[i], g)
    ensures ComesFirst(s, es, i, g, f)
  {
    var first := Secure(s, i);
    var t := Exec(s, first);
    SecuredIsPrompt(s, t, i, f);
    var more;
    if g in s.clients[i].stream {
      more := Arrive(t, i, f);
    } else {
      SecuredIsPrompt(s, t, i, g);
      more := BringBoth(t, i, g, f);
    }
    ExecConcat(s, first, more);
    es := first + more;
    LastComesAfter(Exec(s, es).clients[i].stream, g, f);
  }

  lemma BringBoth(s: State, i: nat, g: Frame, f: Frame) returns (es: seq<Event>)
    requires Inv(s) && i < |s.clients| && !s.clients[i].stage.New? && g != f
    requires Issued(s, s.clients[i], g) && Prompt(s, s.clients[i], g)
    requires Issued(s, s.clients[i], f) && Prompt(s, s.clients[i], f)
    ensures i < |Exec(s, es).clients| && Exec(s, es).clients[i].stream == s.clients[i].stream + [g] + [f]
  {
    var first := Arrive(s, i, g);
    var t := Exec(s, first);
    IssuedForever(s, first, s.clients[i], f);
    StillPrompt(s, t, i, g, f);
    var second := Arrive(t, i, f);
    ExecConcat(s, first, second);
    es := first + second;
  }

  lemma LastComesAfter(fs: seq<Frame>, g: Frame, f: Frame)
    requires fs != [] && fs[|fs| - 1] == f && g in fs && g != f
    ensures Precedes(fs, g, f)
  {
    var j :| 0 <= j < |fs| && fs[j] == g;
  }

  lemma {:induction false} IssuedForever(s: State, es: seq<Event>, c: Client, f: Frame)
    requires Inv(s) && Issued(s, c, f)
    ensures Issued(Exec(s, es), c, f)
    decreases |es|
  {
    if es != [] {
      NextKeepsInv(s, es[0]);
      IssuedStays(s, es[0], c, f);
      IssuedForever(Next(s, es[0]), es[1..], c, f);
    }
  }
}

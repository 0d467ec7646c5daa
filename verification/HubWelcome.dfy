/** When the welcome frame is the first one a client gets. */
module HubWelcome {
  import opened Prelude
  import opened HubModel
  import opened HubInvariants
  import opened HubRuns
  import opened HubCascade
  import opened HubOrder
  import opened HubPresence
  import opened HubScenes

  /** Nothing comes in from outside but the registration of client i. */
  predicate OnlyJoins(es: seq<Event>, i: nat) {
    forall e :: e in es && FromOutside(e) ==> e == Join(i)
  }

  predicate Upstaged(c: Client) {
    c.stream != [] && c.stream[0] != Welcome
  }

  ghost predicate UpstagedAfter(s: State, es: seq<Event>, i: nat) {
    i < |Exec(s, es).clients| && Upstaged(Exec(s, es).clients[i])
  }

  /** Nothing is on its way to client i, and nobody else is there whose coming or going would be announced. */
  ghost predicate NothingPending(s: State, i: nat)
    requires i < |s.clients|
  {
    && s.due == 0 && s.waiting == {}
    && (forall j :: 0 <= j < |s.clients| && j != i ==> !s.clients[j].registered && !Joining(s.clients[j].stage))
    && (forall n :: (n in s.composing || n in s.undelivered) && n < |s.made| ==> !VisibleTo(s.made[n], s.clients[i].device))
  }

  // ---- if nothing is pending, the welcome frame comes first ---------------------------------------------------

  /** It is not welcomed yet, and nothing can come before. */
  ghost predicate Expecting(s: State, i: nat) {
    && i < |s.clients| && NothingPending(s, i)
    && var c := s.clients[i];
       && (if c.registered then c.stage.Added? else c.stage.New?)
       && c.stream == [] && c.taken == 0 && c.toVisit == {} && c.slow == map[] && !c.closed
  }

  /** It has got the welcome frame first, or was removed before and gets nothing. */
  predicate Decided(c: Client) {
    !c.stage.New? && if c.stream == [] then !c.registered else c.stream[0] == Welcome
  }

  lemma MyOwnStep(s: State, e: Event, i: nat)
    requires Expecting(s, i) && OfClient(e) && e.c == i && !e.Receive?
    ensures
      var t := Next(s, e);
      i < |t.clients| && (Expecting(t, i) || Decided(t.clients[i]))
  {
    StaysPut(s, i);
    var c := s.clients[i];
    if e.Join? && c.stage.New? && NoReaders(s) {
      assert Next(s, e) == With(s, i, c.(stage := Added, registered := true));
    } else if e.SendWelcome? && c.stage.Added? {
      assert Enqueue(c, Welcome).stream == [Welcome];
    } else if e.Leave? && c.registered && NoReaders(s) {
      assert Next(s, e).clients[i] == Unregister(c);
    } else {
      assert Next(s, e) == s;
    }
  }

  /** What others do changes neither who is registered nor what is pending. */
  lemma OthersStep(s: State, e: Event, i: nat)
    requires Expecting(s, i) && OfClient(e) && e.c != i && !FromOutside(e)
    ensures Expecting(Next(s, e), i)
  {
    var j := e.c;
    if j < |s.clients| {
      assert !s.clients[j].registered && !Joining(s.clients[j].stage);
      var d := NextOf(s, e, j).clients[j];
      OtherStep(s, e, j);
      assert NextOf(s, e, j) == With(s, j, d);
    }
  }

  lemma OtherStep(s: State, e: Event, j: nat)
    requires j < |s.clients| && OfClient(e) && e.c == j && !FromOutside(e)
    requires !s.clients[j].registered && !Joining(s.clients[j].stage)
    ensures j < |NextOf(s, e, j).clients|
    ensures
      var d := NextOf(s, e, j).clients[j];
      && !d.registered && !Joining(d.stage) && NextOf(s, e, j) == With(s, j, d)
  {
    StaysPut(s, j);
  }

  lemma NotForMe(s: State, n: nat, i: nat)
    requires i < |s.clients| && n in s.undelivered && n < |s.made| && !VisibleTo(s.made[n], s.clients[i].device)
    ensures Next(s, DeliverChat(n)).clients[i] == s.clients[i]
  {
  }

  lemma HubStep(s: State, e: Event, i: nat)
    requires Inv(s) && Expecting(s, i) && !OfClient(e) && !e.Connect?
    ensures Expecting(Next(s, e), i)
  {
    var t := Next(s, e);
    assert |t.clients| == |s.clients|;
    if e.DeliverChat? && e.serial in s.undelivered {
      NotForMe(s, e.serial, i);
    }
    forall j | 0 <= j < |t.clients| && j != i
      ensures !t.clients[j].registered && !Joining(t.clients[j].stage)
    {
      assert t.clients[j].registered == s.clients[j].registered && t.clients[j].stage == s.clients[j].stage;
    }
  }

  lemma DecidedStays(s: State, e: Event, i: nat)
    requires i < |s.clients| && ClientInv(s.clients[i]) && Decided(s.clients[i])
    ensures i < |Next(s, e).clients| && Decided(Next(s, e).clients[i])
  {
    if OfClient(e) {
      if e.c == i {
        MineStaysDecided(s, e, i);
      }
    } else {
      OffersKeepDecided(s, e, i);
    }
  }

  lemma OffersKeepDecided(s: State, e: Event, i: nat)
    requires i < |s.clients| && Decided(s.clients[i]) && !OfClient(e)
    ensures i < |Next(s, e).clients| && Decided(Next(s, e).clients[i])
  {
  }

  lemma MineStaysDecided(s: State, e: Event, i: nat)
    requires i < |s.clients| && ClientInv(s.clients[i]) && Decided(s.clients[i]) && OfClient(e)
    ensures i < |NextOf(s, e, i).clients| && Decided(NextOf(s, e, i).clients[i])
  {
  }

  lemma {:induction false} NeverUpstaged(s: State, es: seq<Event>, i: nat)
    requires Inv(s) && i < |s.clients| && (Expecting(s, i) || Decided(s.clients[i])) && OnlyJoins(es, i)
    ensures !UpstagedAfter(s, es, i)
    decreases |es|
  {
    if es != [] {
      var e := es[0];
      assert e in es && forall x :: x in es[1..] ==> x in es;
      NextKeepsInv(s, e);
      if Decided(s.clients[i]) {
        assert Fits(s, s.clients[i]);
        DecidedStays(s, e, i);
      } else if !OfClient(e) {
        HubStep(s, e, i);
      } else if e.c == i {
        MyOwnStep(s, e, i);
      } else {
        OthersStep(s, e, i);
      }
      NeverUpstaged(Next(s, e), es[1..], i);
    }
  }

  // ---- otherwise something can come first ---------------------------------------------------------------------

  /** A continuation in which the client, still to register, gets another frame first. */
  ghost predicate Upstages(s: State, es: seq<Event>, i: nat) {
    OnlyJoins(es, i) && UpstagedAfter(s, es, i)
  }

  lemma Later(s: State, e: Event, es: seq<Event>, i: nat)
    requires Upstages(Next(s, e), es, i) && (FromOutside(e) ==> e == Join(i))
    ensures Upstages(s, [e] + es, i)
  {
    assert ([e] + es)[1..] == es;
  }

  /** Once it has joined, a frame ahead of deliver can be brought at once. */
  lemma JoinedInTime(s: State, i: nat, f: Frame)
    requires Inv(s) && NoReaders(s) && i < |s.clients| && s.clients[i].stage.New?
    requires Issued(s, s.clients[i], f) && AheadOfDeliver(s, f)
    ensures
      var t := With(s, i, s.clients[i].(stage := Added, registered := true));
      Next(s, Join(i)) == t && Issued(t, t.clients[i], f) && Prompt(t, t.clients[i], f)
  {
    var c := s.clients[i];
    assert Fits(s, c) && Places(c, f) == One(f in c.offered);
  }

  lemma ByFrame(s: State, i: nat, f: Frame) returns (es: seq<Event>)
    requires Inv(s) && NoReaders(s) && i < |s.clients| && s.clients[i].stage.New?
    requires Issued(s, s.clients[i], f) && AheadOfDeliver(s, f)
    ensures Upstages(s, es, i)
  {
    var c := s.clients[i];
    assert c.stream == [] by {
      assert Fits(s, c);
    }
    hide Next, Inv, Issued, Prompt, AheadOfDeliver, NoReaders;
    var t := With(s, i, c.(stage := Added, registered := true));
    JoinedInTime(s, i, f);
    NextKeepsInv(s, Join(i));
    var more := Arrive(t, i, f);
    assert Exec(t, more).clients[i].stream == [f];
    Later(s, Join(i), more, i);
    es := [Join(i)] + more;
  }

  lemma ListWaits(s: State)
    requires s.due > 0
    ensures
      var t := Next(s, ComputePresence);
      && t.clients == s.clients && (NoReaders(s) ==> NoReaders(t)) && AheadOfDeliver(t, Presence(|s.lists|))
      && forall c :: Issued(t, c, Presence(|s.lists|))
  {
  }

  lemma ByAnnouncement(s: State, i: nat) returns (es: seq<Event>)
    requires Inv(s) && NoReaders(s) && i < |s.clients| && s.clients[i].stage.New? && s.due > 0
    ensures Upstages(s, es, i)
  {
    hide Next, Inv, Issued, AheadOfDeliver, NoReaders, Upstages;
    NextKeepsInv(s, ComputePresence);
    ListWaits(s);
    var more := ByFrame(Next(s, ComputePresence), i, Presence(|s.lists|));
    Later(s, ComputePresence, more, i);
    es := [ComputePresence] + more;
  }

  function NextSection(i: nat, stage: Stage): Event
    requires Joining(stage)
  {
    match stage
    case Added => SendWelcome(i)
    case Welcomed => TakeSnapshot(i, 0)
    case Snapped => HubModel.SendHistory(i)
    case Sent => Announce(i)
  }

  /** The client's Register goes one section further. */
  lemma SectionRuns(s: State, i: nat, j: nat)
    requires i < |s.clients| && j < |s.clients| && j != i && Joining(s.clients[j].stage) && NoReaders(s)
    ensures
      var t := Next(s, NextSection(j, s.clients[j].stage));
      && |t.clients| == |s.clients| && t.clients[i] == s.clients[i] && NoReaders(t)
      && StagesLeft(t.clients[j]) < StagesLeft(s.clients[j])
      && (if s.clients[j].stage.Sent? then t.due > 0 else Joining(t.clients[j].stage))
  {
  }

  lemma {:induction false} ByJoining(s: State, i: nat, j: nat) returns (es: seq<Event>)
    requires Inv(s) && NoReaders(s) && i < |s.clients| && s.clients[i].stage.New?
    requires j < |s.clients| && j != i && Joining(s.clients[j].stage)
    ensures Upstages(s, es, i)
    decreases StagesLeft(s.clients[j])
  {
    var e := NextSection(j, s.clients[j].stage);
    SectionRuns(s, i, j);
    NextKeepsInv(s, e);
    var more;
    if s.clients[j].stage.Sent? {
      more := ByAnnouncement(Next(s, e), i);
    } else {
      more := ByJoining(Next(s, e), i, j);
    }
    Later(s, e, more, i);
    es := [e] + more;
  }

  lemma LeavingIsAnnounced(s: State, i: nat, j: nat)
    requires NoReaders(s) && i < |s.clients| && j < |s.clients| && j != i && s.clients[j].registered
    ensures
      var t := Next(s, Leave(j));
      |t.clients| == |s.clients| && t.clients[i] == s.clients[i] && NoReaders(t) && t.due > 0
  {
  }

  lemma ByAnother(s: State, i: nat, j: nat) returns (es: seq<Event>)
    requires Inv(s) && NoReaders(s) && i < |s.clients| && s.clients[i].stage.New?
    requires j < |s.clients| && j != i && s.clients[j].registered
    ensures Upstages(s, es, i)
  {
    assert Fits(s, s.clients[j]);
    if Joining(s.clients[j].stage) {
      es := ByJoining(s, i, j);
    } else {
      LeavingIsAnnounced(s, i, j);
      NextKeepsInv(s, Leave(j));
      var more := ByAnnouncement(Next(s, Leave(j)), i);
      Later(s, Leave(j), more, i);
      es := [Leave(j)] + more;
    }
  }

  lemma MessageWaits(s: State, n: nat)
    requires n in s.composing && n < |s.made| && NoReaders(s)
    ensures
      var t := Next(s, AddToHistory(n));
      t.clients == s.clients && t.made == s.made && n !in t.composing && n in t.undelivered
  {
  }

  lemma ByMessage(s: State, i: nat, n: nat) returns (es: seq<Event>)
    requires Inv(s) && NoReaders(s) && i < |s.clients| && s.clients[i].stage.New?
    requires (n in s.composing || n in s.undelivered) && n < |s.made| && VisibleTo(s.made[n], s.clients[i].device)
    ensures Upstages(s, es, i)
  {
    if n in s.undelivered {
      es := ByFrame(s, i, Chat(n));
    } else {
      NextKeepsInv(s, AddToHistory(n));
      MessageWaits(s, n);
      var more := ByFrame(Next(s, AddToHistory(n)), i, Chat(n));
      Later(s, AddToHistory(n), more, i);
      es := [AddToHistory(n)] + more;
    }
  }

  lemma LoopGoesOn(s: State, i: nat, j: nat) returns (e: Event)
    requires Inv(s) && i < |s.clients| && j < |s.clients| && s.clients[i].stage.New? && !NoReaders(s)
    ensures !FromOutside(e) && |Next(s, e).clients| == |s.clients|
    ensures Next(s, e).clients[i].stage.New? && Next(s, e).clients[j].registered == s.clients[j].registered
    ensures Sum(Next(s, e).clients, VisitsLeft) < Sum(s.clients, VisitsLeft)
  {
    hide Next, Sum;
    var k :| 0 <= k < |s.clients| && s.clients[k].toVisit != {};
    var f :| f in s.clients[k].toVisit;
    assert Fits(s, s.clients[i]);
    e := VisitOne(k, f);
    VisitLowers(s, k, f);
  }

  lemma VisitLowers(s: State, k: nat, f: Frame)
    requires k < |s.clients| && f in s.clients[k].toVisit
    ensures Next(s, VisitOne(k, f)) == With(s, k, Visit(s.clients[k], f))
    ensures Sum(Next(s, VisitOne(k, f)).clients, VisitsLeft) < Sum(s.clients, VisitsLeft)
  {
    var c, d := s.clients[k], Visit(s.clients[k], f);
    assert d.toVisit == c.toVisit - {f} && |c.toVisit - {f}| < |c.toVisit|;
    SumUpdate(s.clients, k, d, VisitsLeft);
  }

  /** Deliver loops under way come to their end first. */
  lemma {:induction false} ByReaders(s: State, i: nat, j: nat) returns (es: seq<Event>)
    requires Inv(s) && i < |s.clients| && s.clients[i].stage.New?
    requires j < |s.clients| && j != i && s.clients[j].registered
    ensures Upstages(s, es, i)
    decreases Sum(s.clients, VisitsLeft)
  {
    if NoReaders(s) {
      es := ByAnother(s, i, j);
    } else {
      var e := LoopGoesOn(s, i, j);
      NextKeepsInv(s, e);
      var more := ByReaders(Next(s, e), i, j);
      Later(s, e, more, i);
      es := [e] + more;
    }
  }

  lemma SomethingPending(s: State, i: nat) returns (es: seq<Event>)
    requires Inv(s) && i < |s.clients| && s.clients[i].stage.New? && !NothingPending(s, i)
    ensures Upstages(s, es, i)
  {
    if j :| 0 <= j < |s.clients| && j != i && s.clients[j].registered {
      es := ByReaders(s, i, j);
    } else {
      forall k | 0 <= k < |s.clients|
        ensures s.clients[k].toVisit == {}
      {
        assert Fits(s, s.clients[k]);
      }
      if j :| 0 <= j < |s.clients| && j != i && Joining(s.clients[j].stage) {
        es := ByJoining(s, i, j);
      } else if s.due > 0 {
        es := ByAnnouncement(s, i);
      } else if k :| k in s.waiting {
        es := ByFrame(s, i, Presence(k));
      } else {
        var n :| (n in s.composing || n in s.undelivered) && n < |s.made| && VisibleTo(s.made[n], s.clients[i].device);
        es := ByMessage(s, i, n);
      }
    }
  }

  /**
   Whatever happens after a moment at which client i is still to register, without further messages and
   connections, the welcome frame is the first one it gets, if and only if nothing is pending at that moment: no
   list of devices is due or under way, nobody else is registered or registering, and no message is that the client
   may see.
   */
  lemma WelcomeComesFirst(start: int, ttl: nat, before: seq<Event>, i: nat)
    requires var s := Exec(Empty(start, ttl), before); i < |s.clients| && s.clients[i].stage.New?
    ensures
      var s := Exec(Empty(start, ttl), before);
      (forall es :: OnlyJoins(es, i) ==> !UpstagedAfter(s, es, i)) <==> NothingPending(s, i)
  {
    var s := Exec(Empty(start, ttl), before);
    ExecKeepsInv(Empty(start, ttl), before);
    if NothingPending(s, i) {
      NewIsExpecting(s, i);
      forall es | OnlyJoins(es, i)
        ensures !UpstagedAfter(s, es, i)
      {
        NeverUpstaged(s, es, i);
      }
    } else {
      var es := SomethingPending(s, i);
      assert OnlyJoins(es, i) && UpstagedAfter(s, es, i);
    }
  }

  lemma NewIsExpecting(s: State, i: nat)
    requires Inv(s) && i < |s.clients| && s.clients[i].stage.New? && NothingPending(s, i)
    ensures Expecting(s, i)
  {
    var c := s.clients[i];
    assert Fits(s, c);
    forall f
      ensures f !in c.slow
    {
      assert Places(c, f) == if Broadcast(f) then One(f in c.offered) else multiset(c.stream)[f];
    }
  }

  /** The API description lists the welcome frame first, but a list of devices can come before it. */
  lemma WelcomeComesSecond(now: int, ttl: nat, a: DeviceId, b: DeviceId) returns (es: seq<Event>)
    ensures
      var s := Exec(Empty(now, ttl), es);
      |s.clients| == 2 && s.clients[1].stream == [Presence(0), Welcome]
  {
    var c := Settled(a, 0, Cutoff(Empty(now, ttl)));
    var first := FirstClient(now, ttl, a);
    var middle := [ComputePresence, Connect(b)];
    var s := Exec(Empty(now, ttl), first);
    SecondConnects(s, c, b);
    var t := Exec(s, middle);
    var last := [Join(1), DeliverPresence(0), VisitOne(1, Presence(0)), SendWelcome(1)];
    ListFirst(t, c, b);
    ExecConcat(Empty(now, ttl), first, middle);
    ExecConcat(Empty(now, ttl), first + middle, last);
    es := first + middle + last;
  }

  lemma ListFirst(s: State, c: Client, b: DeviceId)
    requires s.clients == [c, NewClient(b)] && c.toVisit == {} && 0 in s.waiting
    ensures
      var t := Exec(s, [Join(1), DeliverPresence(0), VisitOne(1, Presence(0)), SendWelcome(1)]);
      |t.clients| == 2 && t.clients[1].stream == [Presence(0), Welcome]
  {
    var p := Presence(0);
    ExecFour(s, Join(1), DeliverPresence(0), VisitOne(1, p), SendWelcome(1));
    var d := NewClient(b).(stage := Added, registered := true);
    JoinSection(s, 1);
    var s2 := Next(With(s, 1, d), DeliverPresence(0));
    assert s2.clients == [Offer(c, p, true), Offer(d, p, true)];
    VisitReady(d, p);
    assert Next(s2, VisitOne(1, p)) == With(s2, 1, Plus(d, p));
    var e := Plus(d, p);
    assert Enqueue(e, Welcome).stream == [p, Welcome];
  }
}

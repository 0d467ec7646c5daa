/** What clients learn about who is online. */
module HubPresence {
  import opened Prelude
  import opened HubModel
  import opened HubInvariants
  import opened HubRuns
  import opened HubOrder
  import opened HubScenes

  /** Register is under way; its broadcastPresence is yet to be called. */
  predicate Joining(stage: Stage) {
    stage.Added? || stage.Welcomed? || stage.Snapped? || stage.Sent?
  }

  predicate NobodyJoining(s: State) {
    forall i :: 0 <= i < |s.clients| ==> !Joining(s.clients[i].stage)
  }

  /** The list made last. */
  function Latest(s: State): set<DeviceId> {
    if s.lists == [] then {} else s.lists[|s.lists| - 1]
  }

  /** The list made last is on its way to the client, or has been handed to deliver for it. */
  predicate HasLatest(s: State, c: Client) {
    && s.lists != []
    && (|s.lists| - 1 in s.waiting || Presence(|s.lists| - 1) in c.offered)
  }

  ghost predicate PresenceInv(s: State) {
    && (s.due == 0 && NobodyJoining(s) ==> Latest(s) == Online(s.clients))
    && (s.due == 0 ==>
          forall i :: 0 <= i < |s.clients| && s.clients[i].registered && s.clients[i].stage.Announced? ==>
            HasLatest(s, s.clients[i]))
  }

  /** Neither who is online nor how far a Register has come is any different. */
  predicate SamePost(c: Client, d: Client) {
    && d.device == c.device && d.registered == c.registered && c.offered <= d.offered
    && (Joining(d.stage) <==> Joining(c.stage)) && (d.stage.Announced? <==> c.stage.Announced?)
  }

  ghost predicate SamePosts(cs: seq<Client>, ds: seq<Client>) {
    |ds| == |cs| && forall i :: 0 <= i < |cs| ==> SamePost(cs[i], ds[i])
  }

  lemma SameOnline(cs: seq<Client>, ds: seq<Client>)
    requires |ds| == |cs|
    requires forall i :: 0 <= i < |cs| ==> ds[i].device == cs[i].device && ds[i].registered == cs[i].registered
    ensures Online(ds) == Online(cs)
  {
    forall d
      ensures d in Online(ds) <==> d in Online(cs)
    {
      if d in Online(cs) {
        var i :| 0 <= i < |cs| && cs[i].registered && cs[i].device == d;
        assert ds[i].registered && ds[i].device == d;
      }
    }
  }

  /** A step that changes nobody's post and makes no list. */
  lemma CalmStep(s: State, t: State)
    requires PresenceInv(s) && SamePosts(s.clients, t.clients)
    requires t.due == s.due && t.lists == s.lists
    requires forall k :: k in s.waiting ==>
               k in t.waiting || forall i :: 0 <= i < |t.clients| && t.clients[i].registered ==> Presence(k) in t.clients[i].offered
    ensures PresenceInv(t)
  {
    SameOnline(s.clients, t.clients);
    if NobodyJoining(t) {
      forall i | 0 <= i < |s.clients|
        ensures !Joining(s.clients[i].stage)
      {
        assert SamePost(s.clients[i], t.clients[i]);
      }
    }
    forall i | s.due == 0 && 0 <= i < |t.clients| && t.clients[i].registered && t.clients[i].stage.Announced?
      ensures HasLatest(t, t.clients[i])
    {
      assert SamePost(s.clients[i], t.clients[i]) && HasLatest(s, s.clients[i]);
    }
  }

  lemma OneCalmStep(s: State, i: nat, d: Client)
    requires PresenceInv(s) && i < |s.clients| && SamePost(s.clients[i], d)
    ensures PresenceInv(With(s, i, d))
  {
    CalmStep(s, With(s, i, d));
  }

  lemma FramesAreCalm(now: int, c: Client, e: Event)
    ensures SamePost(c, Moved(now, c, e))
  {
  }

  lemma ConnectPresence(s: State, device: DeviceId)
    requires PresenceInv(s)
    ensures PresenceInv(Next(s, Connect(device)))
  {
    var t := Next(s, Connect(device));
    assert t.clients[..|s.clients|] == s.clients;
    forall d
      ensures d in Online(t.clients) <==> d in Online(s.clients)
    {
      if d in Online(s.clients) {
        var i :| 0 <= i < |s.clients| && s.clients[i].registered && s.clients[i].device == d;
        assert t.clients[i].registered && t.clients[i].device == d;
      }
    }
    if NobodyJoining(t) {
      forall i | 0 <= i < |s.clients|
        ensures !Joining(s.clients[i].stage)
      {
        assert t.clients[i] == s.clients[i];
      }
    }
  }

  lemma JoinPresence(s: State, i: nat)
    requires PresenceInv(s) && i < |s.clients| && s.clients[i].stage.New?
    ensures PresenceInv(With(s, i, s.clients[i].(stage := Added, registered := true)))
  {
    var t := With(s, i, s.clients[i].(stage := Added, registered := true));
    assert Joining(t.clients[i].stage);
  }

  lemma ListPresence(s: State)
    requires s.due > 0
    ensures PresenceInv(Next(s, ComputePresence))
  {
  }

  lemma HandPresence(s: State, k: nat)
    requires PresenceInv(s) && k in s.waiting
    ensures PresenceInv(Next(s, DeliverPresence(k)))
  {
    CalmStep(s, Next(s, DeliverPresence(k)));
  }

  /** Register's sections after the first. */
  lemma SectionPresence(s: State, e: Event, i: nat)
    requires PresenceInv(s) && i < |s.clients|
    requires e.SendWelcome? || e.TakeSnapshot? || e.SendHistory? || e.Announce?
    ensures PresenceInv(NextOf(s, e, i))
  {
    if NextOf(s, e, i) != s && !e.Announce? {
      OneCalmStep(s, i, NextOf(s, e, i).clients[i]);
      assert NextOf(s, e, i) == With(s, i, NextOf(s, e, i).clients[i]);
    }
  }

  lemma GonePresence(s: State, e: Event, i: nat)
    requires PresenceInv(s) && i < |s.clients| && (e.Leave? || e.Disconnect?)
    ensures PresenceInv(NextOf(s, e, i))
  {
    if e.Disconnect? && !s.clients[i].registered && NextOf(s, e, i) != s {
      OneCalmStep(s, i, GiveUp(s.clients[i], e.f));
      assert NextOf(s, e, i) == With(s, i, GiveUp(s.clients[i], e.f));
    }
  }

  lemma ClientPresence(s: State, e: Event, i: nat)
    requires PresenceInv(s) && i < |s.clients| && OfClient(e) && e.c == i
    ensures PresenceInv(NextOf(s, e, i))
  {
    match e
    case Join(_) =>
      if s.clients[i].stage.New? {
        JoinPresence(s, i);
      }
    case Receive(_, asked) => CalmStep(s, DoReceive(s, i, asked));
    case SendWelcome(_) | TakeSnapshot(_, _) | SendHistory(_) | Announce(_) => SectionPresence(s, e, i);
    case Leave(_) | Disconnect(_, _) => GonePresence(s, e, i);
    case VisitOne(_, _) | BeginSlow(_, _) | ReadClock(_, _) | TryAgain(_, _) | PassDeadline(_, _) | Take(_) =>
      FramesAreCalm(s.now, s.clients[i], e);
      OneCalmStep(s, i, Moved(s.now, s.clients[i], e));
    case Tick(_) | Connect(_) | AddToHistory(_) | DeliverChat(_) | ComputePresence | DeliverPresence(_) =>
  }

  lemma NextKeepsPresence(s: State, e: Event)
    requires PresenceInv(s)
    ensures PresenceInv(Next(s, e))
  {
    if OfClient(e) {
      if e.c < |s.clients| {
        ClientPresence(s, e, e.c);
      }
    } else if e.Connect? {
      ConnectPresence(s, e.device);
    } else if e.ComputePresence? {
      if s.due > 0 {
        ListPresence(s);
      }
    } else if e.DeliverPresence? {
      if e.number in s.waiting {
        HandPresence(s, e.number);
      }
    } else {
      CalmStep(s, Next(s, e));
    }
  }

  lemma {:induction false} ExecKeepsPresence(s: State, es: seq<Event>)
    requires PresenceInv(s)
    ensures PresenceInv(Exec(s, es))
    decreases |es|
  {
    if es != [] {
      NextKeepsPresence(s, es[0]);
      ExecKeepsPresence(Next(s, es[0]), es[1..]);
    }
  }

  /** Whenever no broadcastPresence is due and nobody is joining, the list made last is who is online now. */
  lemma LatestListIsCurrent(start: int, ttl: nat, es: seq<Event>)
    requires var s := Exec(Empty(start, ttl), es); s.due == 0 && NobodyJoining(s)
    ensures
      var s := Exec(Empty(start, ttl), es);
      && Latest(s) == Online(s.clients)
      && forall d :: d in Latest(s) <==> exists i :: 0 <= i < |s.clients| && s.clients[i].registered && s.clients[i].device == d
  {
    assert Online([]) == {};
    ExecKeepsPresence(Empty(start, ttl), es);
  }

  /**
   Once all lists have been handed to deliver, every registered client gets one frame that shows who is online:
   it has the frame or still waits for it.
   */
  lemma EverybodyGetsTheLatest(start: int, ttl: nat, es: seq<Event>, i: nat)
    requires
      var s := Exec(Empty(start, ttl), es);
      s.due == 0 && NobodyJoining(s) && s.waiting == {} && i < |s.clients| && s.clients[i].registered
    ensures
      var s := Exec(Empty(start, ttl), es);
      var c := s.clients[i];
      && s.lists != [] && s.lists[|s.lists| - 1] == Online(s.clients)
      && var f := Presence(|s.lists| - 1);
         multiset(c.stream)[f] + One(f in c.toVisit) + One(f in c.slow) == 1
  {
    LatestListIsCurrent(start, ttl, es);
    ExecKeepsPresence(Empty(start, ttl), es);
    ExecKeepsInv(Empty(start, ttl), es);
    var s := Exec(Empty(start, ttl), es);
    var c := s.clients[i];
    assert Fits(s, c) && !c.stage.New? && HasLatest(s, c);
    assert Places(c, Presence(|s.lists| - 1)) == 1;
  }

  // ---- the last frame need not be the latest list -------------------------------------------------------------

  /** The client with one more frame on its channel. */
  function Plus(c: Client, f: Frame): Client {
    c.(stream := c.stream + [f], offered := c.offered + {f})
  }

  predicate Ready(c: Client) {
    c.registered && !c.closed && QueueLength(c) < BUFFER && c.toVisit == {}
  }

  /** A list goes to the two clients of a hub at once. */
  function ToBoth(k: nat): seq<Event> {
    [DeliverPresence(k), VisitOne(0, Presence(k)), VisitOne(1, Presence(k))]
  }

  lemma ToBothRuns(s: State, k: nat)
    requires |s.clients| == 2 && Ready(s.clients[0]) && Ready(s.clients[1]) && k in s.waiting
    ensures Exec(s, ToBoth(k)) ==
            s.(waiting := s.waiting - {k}, clients := [Plus(s.clients[0], Presence(k)), Plus(s.clients[1], Presence(k))])
  {
    var f, c, d := Presence(k), s.clients[0], s.clients[1];
    var s1 := s.(waiting := s.waiting - {k}, clients := [Offer(c, f, true), Offer(d, f, true)]);
    assert OfferAll(s.clients, f, None) == s1.clients;
    var s2 := With(s1, 0, Plus(c, f));
    VisitReady(c, f);
    assert Next(s1, VisitOne(0, f)) == s2;
    VisitReady(d, f);
    assert Next(s2, VisitOne(1, f)) == With(s2, 1, Plus(d, f));
    assert s1.clients[0 := Plus(c, f)][1 := Plus(d, f)] == [Plus(c, f), Plus(d, f)];
    assert ToBoth(k) == [DeliverPresence(k)] + [VisitOne(0, f)] + [VisitOne(1, f)];
    ExecSnoc(s, [DeliverPresence(k)] + [VisitOne(0, f)], VisitOne(1, f));
    ExecSnoc(s, [DeliverPresence(k)], VisitOne(0, f));
    assert Exec(s, [DeliverPresence(k)]) == Exec(Next(s, DeliverPresence(k)), []);
  }

  lemma VisitReady(c: Client, f: Frame)
    requires Ready(c)
    ensures Visit(Offer(c, f, true), f) == Plus(c, f)
  {
    assert ({} + {f}) - {f} == {};
  }

  /** The list of the first client is made, and a second one connects. */
  lemma SecondConnects(s: State, c: Client, b: DeviceId)
    requires s.clients == [c] && c.registered && s.due == 1 && s.lists == [] && s.waiting == {}
    ensures Exec(s, [ComputePresence, Connect(b)]) ==
            s.(due := 0, lists := [{c.device}], waiting := {0}, clients := [c, NewClient(b)])
  {
    OneOnline(c);
    assert [ComputePresence, Connect(b)] == [ComputePresence] + [Connect(b)];
    ExecSnoc(s, [ComputePresence], Connect(b));
    assert Exec(s, [ComputePresence]) == Exec(Next(s, ComputePresence), []);
  }

  /** It registers, and the list of both is made. */
  lemma SecondRegisters(s: State, c: Client, b: DeviceId)
    requires s.clients == [c, NewClient(b)] && c.registered && c.toVisit == {} && s.due == 0 && s.waiting == {0}
    requires s.lists == [{c.device}] && s.history == [] && s.log == [] && s.lastCut <= Cutoff(s)
    ensures Exec(s, Registering(1) + [ComputePresence]) ==
            s.(clients := [c, Settled(b, 0, Cutoff(s))], lists := [{c.device}, {c.device, b}], waiting := {0, 1})
  {
    var d := Settled(b, 0, Cutoff(s));
    RegisterRuns(s, 1);
    assert [c, NewClient(b)][1 := d] == [c, d];
    var t := s.(clients := [c, d], due := 1);
    SecondListed(t, c, d);
    ExecSnoc(s, Registering(1), ComputePresence);
  }

  lemma SecondListed(s: State, c: Client, d: Client)
    requires s.clients == [c, d] && c.registered && d.registered && s.due == 1 && s.waiting == {0} && |s.lists| == 1
    ensures Next(s, ComputePresence) ==
            s.(due := 0, lists := [s.lists[0], {c.device, d.device}], waiting := {0, 1})
  {
    TwoOnline(c, d);
    assert {0} + {1} == {0, 1};
  }

  /** Two clients have registered one after the other, and the lists made after each are on their way. */
  lemma TwoLists(now: int, ttl: nat, a: DeviceId, b: DeviceId) returns (es: seq<Event>)
    ensures
      var s := Empty(now, ttl);
      var clients := [Settled(a, 0, Cutoff(s)), Settled(b, 0, Cutoff(s))];
      Exec(s, es) == s.(clients := clients, lists := [{a}, {a, b}], waiting := {0, 1})
  {
    var s := Empty(now, ttl);
    var c := Settled(a, 0, Cutoff(s));
    var first := FirstClient(now, ttl, a);
    var t := Exec(s, first);
    SecondConnects(t, c, b);
    var middle, last := [ComputePresence, Connect(b)], Registering(1) + [ComputePresence];
    SecondRegisters(Exec(t, middle), c, b);
    ExecConcat(s, first, middle);
    ExecConcat(s, first + middle, last);
    es := first + middle + last;
  }

  lemma OneOnline(c: Client)
    requires c.registered
    ensures Online([c]) == {c.device}
  {
    assert [c][0].registered;
  }

  lemma TwoOnline(c: Client, d: Client)
    requires c.registered && d.registered
    ensures Online([c, d]) == {c.device, d.device}
  {
    assert [c, d][0].registered && [c, d][1].registered;
  }

  /** The last presence frame need not show who is online, even when nothing is on its way any more. */
  lemma StaleListComesLast(now: int, ttl: nat, a: DeviceId, b: DeviceId) returns (es: seq<Event>)
    requires a != b
    ensures
      var s := Exec(Empty(now, ttl), es);
      && s.due == 0 && s.waiting == {} && NobodyJoining(s) && |s.clients| == 2
      && s.clients[0].registered && s.clients[0].toVisit == {} && s.clients[0].slow == map[]
      && s.clients[0].stream == [Welcome, Presence(1), Presence(0)]
      && |s.lists| == 2 && s.lists[1] == Online(s.clients) && s.lists[0] != Online(s.clients)
  {
    var lists := TwoLists(now, ttl, a, b);
    var s := Exec(Empty(now, ttl), lists);
    ToBothRuns(s, 1);
    var t := Exec(s, ToBoth(1));
    ToBothRuns(t, 0);
    ExecConcat(Empty(now, ttl), lists, ToBoth(1));
    ExecConcat(Empty(now, ttl), lists + ToBoth(1), ToBoth(0));
    es := lists + ToBoth(1) + ToBoth(0);
    var u := Exec(t, ToBoth(0));
    TwoOnline(u.clients[0], u.clients[1]);
    assert b in {a, b} && b !in {a};
  }
}

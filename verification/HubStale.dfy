/** When a client can be left with a list of devices that is out of date. */
module HubStale {
  import opened Prelude
  import opened HubModel
  import opened HubInvariants
  import opened HubRuns
  import opened HubOrder
  import opened HubPresence

  // ---- an old list can follow the latest one ------------------------------------------------------------------

  /** After these steps a list other than the latest one comes after the latest one. */
  ghost predicate OldFollows(s: State, es: seq<Event>, i: nat, k: nat) {
    k < |s.lists| && s.lists[k] != Latest(s) && ComesFirst(s, es, i, Presence(|s.lists| - 1), Presence(k))
  }

  /** The list k is there after the latest one, or can still arrive after it. */
  ghost predicate MayFollow(s: State, c: Client, k: nat) {
    && k < |s.lists| && s.lists[k] != Latest(s)
    && var last, f := Presence(|s.lists| - 1), Presence(k);
       if f in c.stream then Precedes(c.stream, last, f)
       else CanArrive(s, c, f) && (last in c.stream || CanArrive(s, c, last))
  }

  /** A client can get an old list after the one that is the latest now, if and only if some old list may follow it. */
  lemma OldListCanFollow(start: int, ttl: nat, before: seq<Event>, i: nat)
    requires
      var s := Exec(Empty(start, ttl), before);
      i < |s.clients| && !s.clients[i].stage.New? && s.lists != []
    ensures
      var s := Exec(Empty(start, ttl), before);
      (exists es, k: nat :: OldFollows(s, es, i, k)) <==> exists k: nat :: MayFollow(s, s.clients[i], k)
  {
    var s := Exec(Empty(start, ttl), before);
    forall es, k: nat | OldFollows(s, es, i, k)
      ensures MayFollow(s, s.clients[i], k)
    {
      ThisOneCanFollow(start, ttl, before, i, k);
    }
    if k: nat :| MayFollow(s, s.clients[i], k) {
      ThisOneCanFollow(start, ttl, before, i, k);
    }
  }

  lemma ThisOneCanFollow(start: int, ttl: nat, before: seq<Event>, i: nat, k: nat)
    requires
      var s := Exec(Empty(start, ttl), before);
      i < |s.clients| && !s.clients[i].stage.New? && k < |s.lists| && s.lists[k] != Latest(s)
    ensures
      var s := Exec(Empty(start, ttl), before);
      (exists es :: OldFollows(s, es, i, k)) <==> MayFollow(s, s.clients[i], k)
  {
    var s := Exec(Empty(start, ttl), before);
    var last, f := Presence(|s.lists| - 1), Presence(k);
    EitherOrder(start, ttl, before, i, last, f);
    if MayFollow(s, s.clients[i], k) {
      var es :| ComesFirst(s, es, i, last, f);
      assert OldFollows(s, es, i, k);
    }
    if es :| OldFollows(s, es, i, k) {
      assert ComesFirst(s, es, i, last, f);
    }
  }

  // ---- nobody comes or goes ---------------------------------------------------------------------------------------

  /** No list is due, and none is going to be as long as nobody comes or goes. */
  ghost predicate Steady(s: State) {
    s.due == 0 && NobodyJoining(s)
  }

  /** Everybody is where they were, and the lists are the same. */
  ghost predicate SameRoom(s: State, t: State) {
    && Steady(t) && t.lists == s.lists && t.waiting <= s.waiting && SamePosts(s.clients, t.clients)
    && forall i, k :: 0 <= i < |s.clients| && s.clients[i].registered && k in s.waiting ==>
         k in t.waiting || Presence(k) in t.clients[i].offered
  }

  lemma OneCalm(s: State, i: nat, d: Client)
    requires Steady(s) && i < |s.clients| && SamePost(s.clients[i], d)
    ensures SameRoom(s, With(s, i, d))
  {
    var t := With(s, i, d);
    forall j | 0 <= j < |t.clients|
      ensures !Joining(t.clients[j].stage)
    {
      assert SamePost(s.clients[j], t.clients[j]);
    }
  }

  lemma HandedIsCalm(s: State, k: nat)
    requires Steady(s) && k in s.waiting
    ensures SameRoom(s, Next(s, DeliverPresence(k)))
  {
    var t := Next(s, DeliverPresence(k));
    forall j | 0 <= j < |t.clients|
      ensures !Joining(t.clients[j].stage)
    {
      assert t.clients[j].stage == s.clients[j].stage;
    }
  }

  lemma MessagesAreCalm(s: State, e: Event)
    requires Steady(s) && (e.Tick? || e.AddToHistory? || e.DeliverChat?)
    ensures SameRoom(s, Next(s, e))
  {
    var t := Next(s, e);
    forall j | 0 <= j < |t.clients|
      ensures !Joining(t.clients[j].stage)
    {
      assert t.clients[j].stage == s.clients[j].stage;
    }
  }

  lemma HarmlessStep(s: State, e: Event)
    requires Steady(s) && Harmless(e)
    ensures SameRoom(s, Next(s, e))
  {
    if MovesFrame(e) {
      if e.c < |s.clients| {
        FramesAreCalm(s.now, s.clients[e.c], e);
        OneCalm(s, e.c, Moved(s.now, s.clients[e.c], e));
        assert Next(s, e) == With(s, e.c, Moved(s.now, s.clients[e.c], e));
      }
    } else if e.DeliverPresence? {
      if e.number in s.waiting {
        HandedIsCalm(s, e.number);
      }
    } else if e.Tick? || e.AddToHistory? || e.DeliverChat? {
      MessagesAreCalm(s, e);
    } else {
      SectionIsOver(s, e);
    }
  }

  /** Nobody is joining, so no section of Register is left. */
  lemma SectionIsOver(s: State, e: Event)
    requires Steady(s)
    requires e.SendWelcome? || e.TakeSnapshot? || e.SendHistory? || e.Announce? || e.ComputePresence?
    ensures Next(s, e) == s
  {
    if !e.ComputePresence? && e.c < |s.clients| {
      assert !Joining(s.clients[e.c].stage);
    }
  }

  lemma SameRoomOn(s: State, t: State, u: State)
    requires SameRoom(s, t) && SameRoom(t, u)
    ensures SameRoom(s, u)
  {
    forall i | 0 <= i < |s.clients|
      ensures SamePost(s.clients[i], u.clients[i])
    {
      assert SamePost(s.clients[i], t.clients[i]) && SamePost(t.clients[i], u.clients[i]);
    }
    forall i, k | 0 <= i < |s.clients| && s.clients[i].registered && k in s.waiting
      ensures k in u.waiting || Presence(k) in u.clients[i].offered
    {
      assert SamePost(s.clients[i], t.clients[i]) && SamePost(t.clients[i], u.clients[i]);
    }
  }

  lemma {:induction false} HarmlessRun(s: State, es: seq<Event>)
    requires Steady(s) && AllHarmless(es)
    ensures SameRoom(s, Exec(s, es))
    decreases |es|
  {
    if es != [] {
      assert Harmless(es[0]) && forall e :: e in es[1..] ==> e in es;
      HarmlessStep(s, es[0]);
      HarmlessRun(Next(s, es[0]), es[1..]);
      SameRoomOn(s, Next(s, es[0]), Exec(s, es));
    }
  }

  // ---- where the lists end up ---------------------------------------------------------------------------------------

  /** The number of the last presence frame. */
  function LastList(fs: seq<Frame>): Option<nat> {
    if fs == [] then None
    else if fs[|fs| - 1].Presence? then Some(fs[|fs| - 1].number)
    else LastList(fs[..|fs| - 1])
  }

  lemma {:induction false} LastListIsThere(fs: seq<Frame>, j: nat) returns (k: nat)
    requires j < |fs| && fs[j].Presence?
    ensures j <= k < |fs| && fs[k].Presence? && LastList(fs) == Some(fs[k].number)
  {
    k := |fs| - 1;
    if !fs[k].Presence? {
      k := LastListIsThere(fs[..k], j);
    }
  }

  lemma {:induction false} NoListAtTheEnd(fs: seq<Frame>, more: seq<Frame>)
    requires forall f :: f in more ==> !f.Presence?
    ensures LastList(fs + more) == LastList(fs)
    decreases |more|
  {
    if more == [] {
      assert fs + more == fs;
    } else {
      var front := more[..|more| - 1];
      assert (fs + more)[..|fs + more| - 1] == fs + front;
      assert more[|more| - 1] in more && forall f :: f in front ==> f in more;
      NoListAtTheEnd(fs, front);
    }
  }

  /** The lists on their way to a client. */
  function Pending(s: State, c: Client): set<nat> {
    set k: nat | k < |s.lists| && OnTheWay(s, c, Presence(k))
  }

  /** A list is on its way to the client or on its channel, if either. */
  lemma OneOfTheTwo(s: State, i: nat, k: nat)
    requires Inv(s) && i < |s.clients| && OnTheWay(s, s.clients[i], Presence(k))
    ensures Presence(k) !in s.clients[i].stream && k < |s.lists|
  {
    var c, f := s.clients[i], Presence(k);
    assert Fits(s, c) && Places(c, f) == One(f in c.offered);
    assert multiset(c.stream)[f] == 0;
  }

  /** A list that was on its way to a registered client and is not any more has arrived, so it could. */
  lemma GoneMeansArrived(s: State, es: seq<Event>, i: nat, k: nat)
    requires Inv(s) && Steady(s) && AllHarmless(es) && i < |s.clients| && s.clients[i].registered
    requires OnTheWay(s, s.clients[i], Presence(k)) && i < |Exec(s, es).clients|
    requires !OnTheWay(Exec(s, es), Exec(s, es).clients[i], Presence(k))
    ensures Presence(k) in Exec(s, es).clients[i].stream && CanArrive(s, s.clients[i], Presence(k))
  {
    var t, f := Exec(s, es), Presence(k);
    var c, d := s.clients[i], t.clients[i];
    OneOfTheTwo(s, i, k);
    HarmlessRun(s, es);
    ExecKeepsInv(s, es);
    assert Fits(s, c) && Places(c, f) == One(f in c.offered) && !c.stage.New?;
    assert SamePost(c, d) && f in d.offered;
    assert Fits(t, d) && Places(d, f) == One(f in d.offered);
    if !CanArrive(s, c, f) {
      LostForever(s, es, i, f);
    }
  }

  /** A list that is on the channel in the end was on it or on its way. */
  lemma ThereBefore(s: State, es: seq<Event>, i: nat, k: nat)
    requires Inv(s) && Steady(s) && AllHarmless(es) && i < |s.clients| && s.clients[i].registered
    requires i < |Exec(s, es).clients| && Presence(k) in Exec(s, es).clients[i].stream
    ensures k < |s.lists|
    ensures Presence(k) in s.clients[i].stream || OnTheWay(s, s.clients[i], Presence(k))
  {
    var t, f := Exec(s, es), Presence(k);
    HarmlessRun(s, es);
    ExecKeepsInv(s, es);
    var d := t.clients[i];
    assert Fits(t, d) && multiset(d.stream)[f] >= 1 && Places(d, f) == One(f in d.offered);
    assert Fits(s, s.clients[i]);
    if f !in s.clients[i].stream && !OnTheWay(s, s.clients[i], f) {
      assert Lost(s, i, f);
      LostForever(s, es, i, f);
    }
  }

  /** No list is on its way to the client any more, and the last one it got does not show who is online. */
  ghost predicate EndsStale(t: State, i: nat) {
    && i < |t.clients| && Pending(t, t.clients[i]) == {}
    && var l := LastList(t.clients[i].stream);
       l.Some? && l.value < |t.lists| && t.lists[l.value] != Online(t.clients)
  }

  /** All lists on their way can still arrive, and one of them is out of date; or there are none and the last one is. */
  ghost predicate CanEndStale(s: State, c: Client) {
    && (forall k :: k in Pending(s, c) ==> CanArrive(s, c, Presence(k)))
    && if Pending(s, c) == {} then
         var l := LastList(c.stream);
         l.Some? && l.value < |s.lists| && s.lists[l.value] != Online(s.clients)
       else exists k :: k in Pending(s, c) && s.lists[k] != Online(s.clients)
  }

  // ---- if it ends so, it could --------------------------------------------------------------------------------------

  lemma AllHaveArrived(s: State, es: seq<Event>, i: nat)
    requires Inv(s) && Steady(s) && AllHarmless(es) && i < |s.clients| && s.clients[i].registered
    requires EndsStale(Exec(s, es), i)
    ensures forall k :: k in Pending(s, s.clients[i]) ==>
              CanArrive(s, s.clients[i], Presence(k)) && Presence(k) in Exec(s, es).clients[i].stream
  {
    var t := Exec(s, es);
    HarmlessRun(s, es);
    forall k | k in Pending(s, s.clients[i])
      ensures CanArrive(s, s.clients[i], Presence(k)) && Presence(k) in t.clients[i].stream
    {
      assert k !in Pending(t, t.clients[i]);
      GoneMeansArrived(s, es, i, k);
    }
  }

  /** What is new on the channel was on its way. */
  lemma NewWasPending(s: State, es: seq<Event>, i: nat, j: nat)
    requires Inv(s) && Steady(s) && AllHarmless(es) && i < |s.clients| && s.clients[i].registered
    requires i < |Exec(s, es).clients| && |s.clients[i].stream| <= j < |Exec(s, es).clients[i].stream|
    requires Exec(s, es).clients[i].stream[j].Presence?
    ensures Exec(s, es).clients[i].stream[j].number in Pending(s, s.clients[i])
  {
    var t := Exec(s, es);
    var c, d := s.clients[i], t.clients[i];
    var f := d.stream[j];
    StreamsGrow(s, es, i);
    ExecKeepsInv(s, es);
    assert Fits(t, d) && Places(d, f) == One(f in d.offered);
    ThereBefore(s, es, i, f.number);
    if f in c.stream {
      var k :| 0 <= k < |c.stream| && c.stream[k] == f;
      OnlyOnce(d.stream, f, k, j);
    }
  }

  lemma EndedWithoutLists(s: State, es: seq<Event>, i: nat)
    requires Inv(s) && Steady(s) && AllHarmless(es) && i < |s.clients| && s.clients[i].registered
    requires EndsStale(Exec(s, es), i) && Pending(s, s.clients[i]) == {}
    ensures s.clients[i].stream <= Exec(s, es).clients[i].stream
    ensures LastList(Exec(s, es).clients[i].stream) == LastList(s.clients[i].stream)
  {
    hide Inv, Exec, CanArrive, Steady, AllHarmless, Online, OnTheWay, LastList;
    var c, d := s.clients[i], Exec(s, es).clients[i];
    StreamsGrow(s, es, i);
    var more := d.stream[|c.stream|..];
    forall f | f in more
      ensures !f.Presence?
    {
      var j :| 0 <= j < |more| && more[j] == f;
      if f.Presence? {
        NewWasPending(s, es, i, |c.stream| + j);
      }
    }
    NoListAtTheEnd(c.stream, more);
    assert c.stream + more == d.stream;
  }

  lemma EndedWithAList(s: State, es: seq<Event>, i: nat, k: nat)
    requires Inv(s) && Steady(s) && AllHarmless(es) && i < |s.clients| && s.clients[i].registered
    requires EndsStale(Exec(s, es), i) && k in Pending(s, s.clients[i])
    ensures var l := LastList(Exec(s, es).clients[i].stream); l.Some? && l.value in Pending(s, s.clients[i])
  {
    AllHaveArrived(s, es, i);
    OneOfTheTwo(s, i, k);
    hide Inv, Exec, CanArrive, Steady, AllHarmless, Online, OnTheWay, LastList;
    var c, d := s.clients[i], Exec(s, es).clients[i];
    StreamsGrow(s, es, i);
    var j :| 0 <= j < |d.stream| && d.stream[j] == Presence(k);
    assert j >= |c.stream|;
    var last := LastListIsThere(d.stream, j);
    NewWasPending(s, es, i, last);
  }

  lemma EndedStale(s: State, es: seq<Event>, i: nat)
    requires Inv(s) && Steady(s) && AllHarmless(es) && i < |s.clients| && s.clients[i].registered
    requires EndsStale(Exec(s, es), i)
    ensures CanEndStale(s, s.clients[i])
  {
    hide Inv, Exec, CanArrive, Steady, AllHarmless, Online, OnTheWay, LastList;
    AllHaveArrived(s, es, i);
    HarmlessRun(s, es);
    SameOnline(s.clients, Exec(s, es).clients);
    if Pending(s, s.clients[i]) == {} {
      EndedWithoutLists(s, es, i);
    } else {
      var k :| k in Pending(s, s.clients[i]);
      EndedWithAList(s, es, i, k);
    }
  }

  // ---- if it could, it does in some continuation ----------------------------------------------------------------------

  /** The lists in `rest` arrive, one after the other; the others stay where they are. */
  lemma {:induction false} BringAll(s: State, i: nat, rest: set<nat>) returns (es: seq<Event>)
    requires Inv(s) && i < |s.clients| && !s.clients[i].stage.New?
    requires forall k: nat :: k in rest ==> k < |s.lists| && Prompt(s, s.clients[i], Presence(k))
    ensures AllHarmless(es) && Inv(Exec(s, es)) && i < |Exec(s, es).clients| && !Exec(s, es).clients[i].stage.New?
    ensures Exec(s, es).lists == s.lists && s.clients[i].stream <= Exec(s, es).clients[i].stream
    ensures forall k: nat :: k in rest ==> !OnTheWay(Exec(s, es), Exec(s, es).clients[i], Presence(k))
    ensures forall k: nat :: k !in rest ==>
              (OnTheWay(Exec(s, es), Exec(s, es).clients[i], Presence(k)) <==> OnTheWay(s, s.clients[i], Presence(k)))
    ensures forall k: nat :: k !in rest && k < |s.lists| && Prompt(s, s.clients[i], Presence(k)) ==>
              Prompt(Exec(s, es), Exec(s, es).clients[i], Presence(k))
    decreases |rest|
  {
    es := [];
    if rest != {} {
      var k :| k in rest;
      var first := Arrive(s, i, Presence(k));
      var t := Exec(s, first);
      OthersStay(s, t, i, k);
      assert |rest - {k}| < |rest|;
      var more := BringAll(t, i, rest - {k});
      ExecConcat(s, first, more);
      es := first + more;
    }
  }

  lemma OthersStay(s: State, t: State, i: nat, k: nat)
    requires OnlyMoves(s, t, i, Presence(k))
    ensures forall l: nat :: l != k ==>
              (OnTheWay(t, t.clients[i], Presence(l)) <==> OnTheWay(s, s.clients[i], Presence(l)))
    ensures forall l: nat :: l != k && l < |s.lists| && Prompt(s, s.clients[i], Presence(l)) ==> Prompt(t, t.clients[i], Presence(l))
  {
    forall l: nat | l != k
      ensures OnTheWay(t, t.clients[i], Presence(l)) <==> OnTheWay(s, s.clients[i], Presence(l))
    {
      assert AheadOfDeliver(t, Presence(l)) <==> AheadOfDeliver(s, Presence(l));
    }
    forall l: nat | l != k && l < |s.lists| && Prompt(s, s.clients[i], Presence(l))
      ensures Prompt(t, t.clients[i], Presence(l))
    {
      StillPrompt(s, t, i, Presence(k), Presence(l));
    }
  }

  /** All lists arrive, the given one last. */
  lemma BringLast(s: State, i: nat, k: nat) returns (es: seq<Event>)
    requires Inv(s) && i < |s.clients| && !s.clients[i].stage.New? && k in Pending(s, s.clients[i])
    requires forall l :: l in Pending(s, s.clients[i]) ==> Prompt(s, s.clients[i], Presence(l))
    ensures AllHarmless(es) && i < |Exec(s, es).clients| && Exec(s, es).lists == s.lists
    ensures Pending(Exec(s, es), Exec(s, es).clients[i]) == {} && LastList(Exec(s, es).clients[i].stream) == Some(k)
  {
    var rest := Pending(s, s.clients[i]) - {k};
    var first := BringAll(s, i, rest);
    var t := Exec(s, first);
    assert OnTheWay(s, s.clients[i], Presence(k));
    var second := Arrive(t, i, Presence(k));
    OthersStay(t, Exec(t, second), i, k);
    ExecConcat(s, first, second);
    es := first + second;
    var u := Exec(s, es);
    forall l: nat | l < |u.lists|
      ensures !OnTheWay(u, u.clients[i], Presence(l))
    {
      if l != k && l !in rest {
        assert l !in Pending(s, s.clients[i]);
      }
    }
  }

  lemma EndItStale(s: State, i: nat) returns (es: seq<Event>)
    requires Inv(s) && Steady(s) && i < |s.clients| && s.clients[i].registered && CanEndStale(s, s.clients[i])
    ensures AllHarmless(es) && EndsStale(Exec(s, es), i)
  {
    var c := s.clients[i];
    assert Fits(s, c);
    if Pending(s, c) == {} {
      es := [];
    } else {
      var k :| k in Pending(s, c) && s.lists[k] != Online(s.clients);
      var first := Secure(s, i);
      var t := Exec(s, first);
      SecuredPending(s, t, i);
      var more := BringLast(t, i, k);
      ExecConcat(s, first, more);
      es := first + more;
      HarmlessRun(s, es);
      SameOnline(s.clients, Exec(s, es).clients);
    }
  }

  lemma SecuredPending(s: State, t: State, i: nat)
    requires Inv(t) && OnlyLooks(s, t, i) && Secured(t, t.clients[i])
    requires forall k :: k in Pending(s, s.clients[i]) ==> CanArrive(s, s.clients[i], Presence(k))
    ensures Pending(t, t.clients[i]) == Pending(s, s.clients[i])
    ensures forall k :: k in Pending(t, t.clients[i]) ==> Prompt(t, t.clients[i], Presence(k))
  {
    forall k: nat | k < |s.lists|
      ensures OnTheWay(t, t.clients[i], Presence(k)) <==> OnTheWay(s, s.clients[i], Presence(k))
    {
      assert Presence(k) in t.clients[i].slow.Keys <==> Presence(k) in s.clients[i].slow.Keys;
    }
    forall k | k in Pending(t, t.clients[i])
      ensures Prompt(t, t.clients[i], Presence(k))
    {
      assert k in Pending(s, s.clients[i]);
      SecuredIsPrompt(s, t, i, Presence(k));
    }
  }

  /**
   From a moment at which no list is due and nobody is joining, without anybody coming or going, a registered client
   can be left with a list that does not show who is online and nothing on its way any more, if and only if all
   lists on their way to it can still arrive and one of them is out of date, or none is on its way and the last one
   it has got is out of date already.
   */
  lemma StaleListCanStay(start: int, ttl: nat, before: seq<Event>, i: nat)
    requires
      var s := Exec(Empty(start, ttl), before);
      Steady(s) && i < |s.clients| && s.clients[i].registered
    ensures
      var s := Exec(Empty(start, ttl), before);
      (exists es :: AllHarmless(es) && EndsStale(Exec(s, es), i)) <==> CanEndStale(s, s.clients[i])
  {
    var s := Exec(Empty(start, ttl), before);
    ExecKeepsInv(Empty(start, ttl), before);
    forall es | AllHarmless(es) && EndsStale(Exec(s, es), i)
      ensures CanEndStale(s, s.clients[i])
    {
      EndedStale(s, es, i);
    }
    if CanEndStale(s, s.clients[i]) {
      var es := EndItStale(s, i);
    }
  }
}

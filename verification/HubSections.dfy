/** What the critical sections do, told by what can be seen of a client: its channel, its retries and who is registered. */
module HubSections {
  import opened Prelude
  import opened HubModel
  import opened HubInvariants
  import opened HubRuns
  import HubTheorems

  /** Fewer than 256 frames wait on the channel. */
  predicate HasRoom(c: Client) {
    |c.stream| - c.taken < 256
  }

  /** The message is for everybody, from this device, or names it. */
  predicate MaySee(device: DeviceId, m: Msg) {
    m.to == [] || device == m.from || exists k :: 0 <= k < |m.to| && m.to[k] == device
  }

  /** In every reachable state. */
  lemma Reachable(start: int, ttl: nat, es: seq<Event>, i: nat)
    requires i < |Exec(Empty(start, ttl), es).clients|
    ensures
      var c := Exec(Empty(start, ttl), es).clients[i];
      && (c.registered ==> !c.closed) && !c.panicked && (c.toVisit != {} ==> c.registered)
      && (c.stage.Snapped? ==> c.snap.Some?)
      && (forall f :: f in c.slow ==> Patient(c.slow[f]))
  {
    ExecKeepsInv(Empty(start, ttl), es);
    assert Fits(Exec(Empty(start, ttl), es), Exec(Empty(start, ttl), es).clients[i]);
  }

  // ---- Register -------------------------------------------------------------------------------------------------

  lemma Joins(s: State, i: nat)
    requires i < |s.clients| && s.clients[i].stage.New?
    ensures
      var t := Next(s, Join(i));
      if forall j :: 0 <= j < |s.clients| ==> s.clients[j].toVisit == {} then
        t == s.(clients := s.clients[i := s.clients[i].(stage := Added, registered := true)])
      else t == s
  {
  }

  /** The welcome frame is sent if and only if the client is registered and its channel has room. */
  lemma WelcomeIsSent(start: int, ttl: nat, es: seq<Event>, i: nat)
    requires var s := Exec(Empty(start, ttl), es); i < |s.clients| && s.clients[i].stage.Added?
    ensures
      var s := Exec(Empty(start, ttl), es);
      var c, t := s.clients[i], Next(s, SendWelcome(i));
      t == With(s, i, c.(stage := Welcomed, stream := c.stream + if c.registered && HasRoom(c) then [Welcome] else []))
  {
    hide Exec;
    Reachable(start, ttl, es, i);
    var s := Exec(Empty(start, ttl), es);
    var c := s.clients[i];
    assert c.stream + [] == c.stream;
  }

  /** The history frame is sent if and only if the client is registered, its snapshot is not empty and its channel has room. */
  lemma HistoryIsSent(start: int, ttl: nat, es: seq<Event>, i: nat)
    requires var s := Exec(Empty(start, ttl), es); i < |s.clients| && s.clients[i].stage.Snapped?
    ensures
      var s := Exec(Empty(start, ttl), es);
      var c, t := s.clients[i], Next(s, SendHistory(i));
      && c.snap.Some?
      && var sent := c.registered && c.snap.value.msgs != [] && HasRoom(c);
         t == With(s, i, c.(stage := Sent, stream := c.stream + if sent then [History] else []))
  {
    hide Exec;
    Reachable(start, ttl, es, i);
    var s := Exec(Empty(start, ttl), es);
    var c := s.clients[i];
    assert c.stream + [] == c.stream;
  }

  // ---- deliver --------------------------------------------------------------------------------------------------

  /** A tab is offered a message exactly if it is registered and may see it; the sender's own tabs among them. */
  lemma MessageIsOffered(start: int, ttl: nat, es: seq<Event>, n: nat, i: nat)
    requires var s := Exec(Empty(start, ttl), es); n in s.undelivered && i < |s.clients|
    ensures
      var s := Exec(Empty(start, ttl), es);
      && n < |s.made|
      && var c, d := s.clients[i], Next(s, DeliverChat(n)).clients[i];
         var wanted := c.registered && MaySee(c.device, s.made[n]);
         && (Chat(n) in d.toVisit <==> wanted) && (Chat(n) in d.offered <==> wanted)
         && (c.registered && c.device == s.made[n].from ==> Chat(n) in d.toVisit)
  {
    ExecKeepsInv(Empty(start, ttl), es);
    var s := Exec(Empty(start, ttl), es);
    var c := s.clients[i];
    assert Fits(s, c) && Places(c, Chat(n)) == One(Chat(n) in c.offered);
    assert !Possible(s, c.device, Chat(n));
  }

  /** A list is offered to exactly the registered clients. */
  lemma ListIsOffered(start: int, ttl: nat, es: seq<Event>, k: nat, i: nat)
    requires var s := Exec(Empty(start, ttl), es); k in s.waiting && i < |s.clients|
    ensures
      var s := Exec(Empty(start, ttl), es);
      var d := Next(s, DeliverPresence(k)).clients[i];
      (Presence(k) in d.toVisit <==> s.clients[i].registered) && (Presence(k) in d.offered <==> s.clients[i].registered)
  {
    ExecKeepsInv(Empty(start, ttl), es);
    var s := Exec(Empty(start, ttl), es);
    var c := s.clients[i];
    assert Fits(s, c) && Places(c, Presence(k)) == One(Presence(k) in c.offered);
    assert !Possible(s, c.device, Presence(k));
  }

  /** The loop sends at once if there is room, and leaves the frame to a deliverSlow otherwise. */
  lemma VisitSends(start: int, ttl: nat, es: seq<Event>, i: nat, f: Frame)
    requires var s := Exec(Empty(start, ttl), es); i < |s.clients| && f in s.clients[i].toVisit
    ensures
      var s := Exec(Empty(start, ttl), es);
      var c := s.clients[i];
      var d := c.(toVisit := c.toVisit - {f});
      Next(s, VisitOne(i, f)) ==
      With(s, i, if HasRoom(c) then d.(stream := c.stream + [f]) else d.(slow := c.slow[f := Spawned]))
  {
    hide Exec;
    Reachable(start, ttl, es, i);
  }

  // ---- deliverSlow ----------------------------------------------------------------------------------------------

  /** The deadline is three seconds after it begins, and it looks at the clock at once. */
  lemma RetryBegins(s: State, i: nat, f: Frame)
    requires i < |s.clients| && f in s.clients[i].slow && s.clients[i].slow[f].Spawned?
    ensures
      var c := s.clients[i];
      && Next(s, BeginSlow(i, f)) == With(s, i, c.(slow := c.slow[f := Retrying(s.now + 3000, 0, false)]))
      && LooksAtClock(s.now, Next(s, BeginSlow(i, f)).clients[i], f)
  {
  }

  /** After its n-th round it sleeps until n times 150 ms after it began; then it has another round or looks who is there. */
  lemma RetryLooks(s: State, i: nat, f: Frame)
    requires i < |s.clients| && f in s.clients[i].slow && s.clients[i].slow[f].Retrying? && !s.clients[i].slow[f].checked
    ensures
      var c, t := s.clients[i], s.clients[i].slow[f];
      var began := t.deadline - 3000;
      var awake := began + 150 * t.attempts <= s.now;
      && Next(s, ReadClock(i, f)) ==
         (if awake && s.now < t.deadline then With(s, i, c.(slow := c.slow[f := t.(checked := true)])) else s)
      && Next(s, PassDeadline(i, f)) ==
         (if !awake || s.now < t.deadline then s
          else if c.registered then With(s, i, c.(slow := c.slow[f := GivingUp]))
          else With(s, i, c.(slow := c.slow - {f}, abandoned := c.abandoned + {f})))
  {
    assert s == With(s, i, s.clients[i]);
  }

  lemma RoundIs(s: State, i: nat, f: Frame)
    requires i < |s.clients| && f in s.clients[i].slow && s.clients[i].slow[f].Retrying? && s.clients[i].slow[f].checked
    requires s.clients[i].closed ==> !s.clients[i].registered
    ensures
      var c, t := s.clients[i], s.clients[i].slow[f];
      Next(s, TryAgain(i, f)) ==
      With(s, i, if !c.registered then c.(slow := c.slow - {f}, abandoned := c.abandoned + {f})
                 else if HasRoom(c) then c.(slow := c.slow - {f}, stream := c.stream + [f])
                 else c.(slow := c.slow[f := Retrying(t.deadline, t.attempts + 1, false)]))
  {
  }

  /** A round sends if the client is there and has room, ends if it is gone, and else counts. */
  lemma RetryRound(start: int, ttl: nat, es: seq<Event>, i: nat, f: Frame)
    requires
      var s := Exec(Empty(start, ttl), es);
      && i < |s.clients| && f in s.clients[i].slow && s.clients[i].slow[f].Retrying? && s.clients[i].slow[f].checked
    ensures
      var s := Exec(Empty(start, ttl), es);
      var c, t := s.clients[i], s.clients[i].slow[f];
      && t.attempts < 20
      && Next(s, TryAgain(i, f)) ==
         With(s, i, if !c.registered then c.(slow := c.slow - {f}, abandoned := c.abandoned + {f})
                    else if HasRoom(c) then c.(slow := c.slow - {f}, stream := c.stream + [f])
                    else c.(slow := c.slow[f := Retrying(t.deadline, t.attempts + 1, false)]))
  {
    hide Exec, Next;
    Reachable(start, ttl, es, i);
    RoundIs(Exec(Empty(start, ttl), es), i, f);
  }

  /** It waits for its deadline, or has given up when that had passed. */
  predicate WaitsFor(s: State, i: nat, f: Frame, deadline: int) {
    && i < |s.clients| && f in s.clients[i].offered && f !in s.clients[i].toVisit
    && (f in s.clients[i].slow ==>
          match s.clients[i].slow[f]
          case Spawned => false
          case Retrying(d, _, _) => d == deadline
          case GivingUp => deadline <= s.now)
  }

  /** A frame that was offered is not offered again. */
  lemma OfferedOnce(s: State, i: nat, f: Frame)
    requires Inv(s) && i < |s.clients| && f in s.clients[i].offered
    ensures f.Chat? ==> f.serial !in s.undelivered
    ensures f.Presence? ==> f.number !in s.waiting
  {
    assert Fits(s, s.clients[i]) && Possible(s, s.clients[i].device, f);
  }

  lemma HubWaits(s: State, e: Event, i: nat, f: Frame, deadline: int)
    requires Inv(s) && WaitsFor(s, i, f, deadline) && !OfClient(e)
    ensures WaitsFor(Next(s, e), i, f, deadline)
  {
    OfferedOnce(s, i, f);
    hide Inv;
    HubTouches(s, e, i, f);
  }

  lemma HubTouches(s: State, e: Event, i: nat, f: Frame)
    requires i < |s.clients| && !OfClient(e) && f in s.clients[i].offered
    requires (f.Chat? ==> f.serial !in s.undelivered) && (f.Presence? ==> f.number !in s.waiting)
    ensures
      && i < |Next(s, e).clients| && s.now <= Next(s, e).now
      && var c, d := s.clients[i], Next(s, e).clients[i];
         d.slow == c.slow && f in d.offered && (f in d.toVisit <==> f in c.toVisit)
  {
  }

  lemma ClientWaits(s: State, e: Event, i: nat, f: Frame, deadline: int)
    requires WaitsFor(s, i, f, deadline) && OfClient(e) && e.c == i
    ensures WaitsFor(NextOf(s, e, i), i, f, deadline)
  {
    if MovesFrame(e) {
      MovedWaits(s, e, i, f, deadline);
    } else {
      RegisterWaits(s, e, i, f, deadline);
    }
  }

  lemma MovedWaits(s: State, e: Event, i: nat, f: Frame, deadline: int)
    requires WaitsFor(s, i, f, deadline) && MovesFrame(e) && e.c == i
    ensures WaitsFor(NextOf(s, e, i), i, f, deadline)
  {
  }

  lemma RegisterWaits(s: State, e: Event, i: nat, f: Frame, deadline: int)
    requires WaitsFor(s, i, f, deadline) && OfClient(e) && !MovesFrame(e) && e.c == i
    ensures WaitsFor(NextOf(s, e, i), i, f, deadline)
  {
  }

  lemma {:induction false} StillWaits(s: State, es: seq<Event>, i: nat, f: Frame, deadline: int)
    requires Inv(s) && WaitsFor(s, i, f, deadline)
    ensures WaitsFor(Exec(s, es), i, f, deadline)
    decreases |es|
  {
    if es != [] {
      NextKeepsInv(s, es[0]);
      if !OfClient(es[0]) {
        HubWaits(s, es[0], i, f, deadline);
      } else if es[0].c == i {
        ClientWaits(s, es[0], i, f, deadline);
      } else {
        OthersWait(s, es[0], i, f, deadline);
      }
      StillWaits(Next(s, es[0]), es[1..], i, f, deadline);
    }
  }

  lemma OthersWait(s: State, e: Event, i: nat, f: Frame, deadline: int)
    requires WaitsFor(s, i, f, deadline) && OfClient(e) && e.c != i
    ensures WaitsFor(Next(s, e), i, f, deadline)
  {
  }

  /** No client is disconnected for a full channel before a frame has waited three seconds for it, in any run. */
  lemma ThreeSecondsOfPatience(start: int, ttl: nat, before: seq<Event>, more: seq<Event>, i: nat, f: Frame)
    requires
      var s := Exec(Empty(start, ttl), before);
      i < |s.clients| && f in s.clients[i].slow && s.clients[i].slow[f].Spawned?
    requires
      var t := Exec(Next(Exec(Empty(start, ttl), before), BeginSlow(i, f)), more);
      i < |t.clients| && f in t.clients[i].slow && t.clients[i].slow[f].GivingUp?
    ensures
      Exec(Next(Exec(Empty(start, ttl), before), BeginSlow(i, f)), more).now - Exec(Empty(start, ttl), before).now >= 3000
  {
    var s := Exec(Empty(start, ttl), before);
    ExecKeepsInv(Empty(start, ttl), before);
    NextKeepsInv(s, BeginSlow(i, f));
    assert Fits(s, s.clients[i]) && Places(s.clients[i], f) == One(f in s.clients[i].offered);
    RetryBegins(s, i, f);
    StillWaits(Next(s, BeginSlow(i, f)), more, i, f, s.now + 3000);
  }

  // ---- Unregister -----------------------------------------------------------------------------------------------

  /** What is left of a client that has been removed. */
  function Gone(c: Client): Client {
    if c.registered then c.(registered := false, closed := true) else c
  }

  /** ReadPump calls it: the first call removes the client, closes its channel and has presence broadcast, a later one nothing. */
  lemma LeaveRemoves(start: int, ttl: nat, es: seq<Event>, i: nat)
    requires var s := Exec(Empty(start, ttl), es); i < |s.clients| && NoReaders(s)
    ensures
      var s := Exec(Empty(start, ttl), es);
      Next(s, Leave(i)) ==
      s.(clients := s.clients[i := Gone(s.clients[i])], due := s.due + if s.clients[i].registered then 1 else 0)
  {
    hide Exec;
    Reachable(start, ttl, es, i);
  }

  /** The same for a deliverSlow that has given up; its frame is dropped. */
  lemma DisconnectRemoves(start: int, ttl: nat, es: seq<Event>, i: nat, f: Frame)
    requires var s := Exec(Empty(start, ttl), es); i < |s.clients| && NoReaders(s)
    requires var s := Exec(Empty(start, ttl), es); f in s.clients[i].slow && s.clients[i].slow[f].GivingUp?
    ensures
      var s := Exec(Empty(start, ttl), es);
      var c := s.clients[i];
      Next(s, Disconnect(i, f)) ==
      s.(clients := s.clients[i := Gone(c).(slow := c.slow - {f}, abandoned := c.abandoned + {f})],
         due := s.due + if c.registered then 1 else 0)
  {
    hide Exec;
    Reachable(start, ttl, es, i);
  }

  // ---- SendMessage ----------------------------------------------------------------------------------------------

  /** Every message that was composed is on its way to the log or in it. */
  ghost predicate Logged(s: State) {
    forall n :: 0 <= n < |s.made| && n !in s.composing ==> s.made[n] in s.log
  }

  lemma {:induction false} StaysLogged(s: State, es: seq<Event>)
    requires Inv(s) && Logged(s)
    ensures Logged(Exec(s, es))
    decreases |es|
  {
    if es != [] {
      NextKeepsInv(s, es[0]);
      NextKeepsLogged(s, es[0]);
      StaysLogged(Next(s, es[0]), es[1..]);
    }
  }

  /** A message is made when it starts being composed, and logged when that ends. */
  lemma MadeAndLogged(s: State, e: Event)
    ensures
      var t := Next(s, e);
      && s.made <= t.made && s.log <= t.log
      && (forall n :: |s.made| <= n < |t.made| ==> n in t.composing)
      && (forall n :: 0 <= n < |s.made| && n in s.composing && n !in t.composing ==> s.made[n] in t.log)
  {
  }

  lemma NextKeepsLogged(s: State, e: Event)
    requires Inv(s) && Logged(s)
    ensures Logged(Next(s, e))
  {
    hide Inv, Fits;
    MadeAndLogged(s, e);
    var t := Next(s, e);
    forall n | 0 <= n < |t.made| && n !in t.composing
      ensures t.made[n] in t.log
    {
      if n < |s.made| && n !in s.composing {
        assert s.made[n] in s.log;
      }
    }
  }

  /** No message is dropped on its way into the history, in any run. */
  lemma EveryMessageIsLogged(start: int, ttl: nat, es: seq<Event>, n: nat)
    requires var s := Exec(Empty(start, ttl), es); n < |s.made|
    ensures var s := Exec(Empty(start, ttl), es); n in s.composing || s.made[n] in s.log
  {
    StaysLogged(Empty(start, ttl), es);
  }

  /** A tab that has joined sends what it is asked to, stamped with the whole second, unless it is directed at nobody valid. */
  lemma MessageIsMade(s: State, i: nat, asked: seq<Option<DeviceId>>)
    requires i < |s.clients| && !s.clients[i].stage.New?
    ensures
      var t, self := Next(s, Receive(i, asked)), s.clients[i].device;
      if asked != [] && (forall r :: r in asked ==> r.None? || r.value == self) then t == s
      else
        && |t.made| == |s.made| + 1 && t.made[..|s.made|] == s.made && t.composing == s.composing + {|s.made|}
        && var m := t.made[|s.made|];
           && m.serial == |s.made| && m.from == self && m.stamp * 1000 <= s.now < (m.stamp + 1) * 1000
           && (m.to == [] <==> asked == [])
           && t == s.(made := t.made, composing := t.composing)
  {
    HubTheorems.DirectedOrDropped(asked, s.clients[i].device);
  }
}

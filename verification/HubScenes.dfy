/** Runs from the start that show what the hub does not promise. */
module HubScenes {
  import opened Prelude
  import opened HubModel
  import opened HubInvariants
  import opened HubRuns
  import opened HubOrder

  /** A client that Register has dealt with while nothing else happened and the history was empty. */
  function Settled(device: DeviceId, at: nat, since: int): Client {
    NewClient(device).(stage := Announced, registered := true, stream := [Welcome],
                       snap := Some(Snapshot(at, since, [])))
  }

  /** Register, without interruption. */
  function Registering(i: nat): seq<Event> {
    [Join(i), SendWelcome(i), TakeSnapshot(i, 0), SendHistory(i), Announce(i)]
  }

  lemma ExecFive(s: State, a: Event, b: Event, c: Event, d: Event, e: Event)
    ensures Exec(s, [a, b, c, d, e]) == Next(Next(Next(Next(Next(s, a), b), c), d), e)
  {
    assert [a, b, c, d, e] == [a, b, c, d] + [e] && [a, b, c, d] == [a, b, c] + [d] && [a, b, c] == [a, b] + [c];
    assert [a, b] == [a] + [b];
    ExecSnoc(s, [a, b, c, d], e);
    ExecSnoc(s, [a, b, c], d);
    ExecSnoc(s, [a, b], c);
    ExecSnoc(s, [a], b);
    assert Exec(s, [a]) == Exec(Next(s, a), []);
  }

  lemma WithTwice(s: State, i: nat, c: Client, d: Client)
    requires i < |s.clients|
    ensures With(With(s, i, c), i, d) == With(s, i, d)
  {
    assert s.clients[i := c][i := d] == s.clients[i := d];
  }

  lemma JoinSection(s: State, i: nat)
    requires i < |s.clients| && s.clients[i].stage.New? && NoReaders(s)
    ensures Next(s, Join(i)) == With(s, i, s.clients[i].(stage := Added, registered := true))
  {
  }

  lemma WelcomeSection(s: State, i: nat, c: Client)
    requires i < |s.clients| && c.stage.Added? && c.registered && !c.closed && c.stream == [] && c.taken == 0
    ensures Next(With(s, i, c), SendWelcome(i)) == With(s, i, c.(stage := Welcomed, stream := [Welcome]))
  {
    WithTwice(s, i, c, c.(stage := Welcomed, stream := [Welcome]));
    assert [] + [Welcome] == [Welcome];
  }

  lemma HistorySections(s: State, i: nat, c: Client)
    requires i < |s.clients| && c.stage.Welcomed? && s.history == [] && s.lastCut <= Cutoff(s)
    ensures
      var d := c.(stage := Snapped, snap := Some(Snapshot(|s.log|, Cutoff(s), [])));
      && Next(With(s, i, c), TakeSnapshot(i, 0)) == With(s, i, d)
      && Next(With(s, i, d), SendHistory(i)) == With(s, i, d.(stage := Sent))
  {
    var d := c.(stage := Snapped, snap := Some(Snapshot(|s.log|, Cutoff(s), [])));
    WithTwice(s, i, c, d);
    WithTwice(s, i, d, d.(stage := Sent));
  }

  lemma LastSection(s: State, i: nat, c: Client)
    requires i < |s.clients| && c.stage.Sent?
    ensures Next(With(s, i, c), Announce(i)) == With(s, i, c.(stage := Announced)).(due := s.due + 1)
  {
    WithTwice(s, i, c, c.(stage := Announced));
  }

  lemma RegisterRuns(s: State, i: nat)
    requires i < |s.clients| && s.clients[i] == NewClient(s.clients[i].device) && NoReaders(s) && s.history == []
    requires s.lastCut <= Cutoff(s)
    ensures Exec(s, Registering(i)) ==
            With(s, i, Settled(s.clients[i].device, |s.log|, Cutoff(s))).(due := s.due + 1)
  {
    var c := s.clients[i].(stage := Added, registered := true);
    JoinSection(s, i);
    WelcomeSection(s, i, c);
    var d := c.(stage := Welcomed, stream := [Welcome]);
    HistorySections(s, i, d);
    var e := d.(stage := Sent, snap := Some(Snapshot(|s.log|, Cutoff(s), [])));
    LastSection(s, i, e);
    Chain(s, With(s, i, c), With(s, i, d), With(s, i, e.(stage := Snapped)), With(s, i, e), i);
    assert e.(stage := Announced) == Settled(s.clients[i].device, |s.log|, Cutoff(s));
  }

  lemma Chain(s: State, s1: State, s2: State, s3: State, s4: State, i: nat)
    requires s1 == Next(s, Join(i)) && s2 == Next(s1, SendWelcome(i)) && s3 == Next(s2, TakeSnapshot(i, 0))
    requires s4 == Next(s3, SendHistory(i))
    ensures Exec(s, Registering(i)) == Next(s4, Announce(i))
  {
    ExecFive(s, Join(i), SendWelcome(i), TakeSnapshot(i, 0), SendHistory(i), Announce(i));
  }

  /** The first client of all has registered; the list of devices is still to be made. */
  lemma FirstClient(now: int, ttl: nat, device: DeviceId) returns (es: seq<Event>)
    ensures
      var s := Empty(now, ttl);
      Exec(s, es) == s.(clients := [Settled(device, 0, Cutoff(s))], due := 1)
  {
    var s := Empty(now, ttl);
    var t := s.(clients := [NewClient(device)]);
    es := [Connect(device)] + Registering(0);
    assert es[1..] == Registering(0);
    assert Next(s, Connect(device)) == t;
    RegisterRuns(t, 0);
    assert [NewClient(device)][0 := Settled(device, 0, Cutoff(s))] == [Settled(device, 0, Cutoff(s))];
  }

  // ---- a retry is overtaken -----------------------------------------------------------------------------------

  /** One client, registered and idle, whose write pump is stuck; n messages have been sent so far. */
  ghost predicate Stuck(s: State, n: nat) {
    && |s.clients| == 1 && |s.made| == n && s.composing == {} && s.undelivered == {}
    && s.clients[0].registered && !s.clients[0].closed && !s.clients[0].stage.New?
    && s.clients[0].toVisit == {} && s.clients[0].taken == 0
  }

  /** The client sends one message to everybody, and its channel gets it or a retry starts. */
  function Post(n: nat): seq<Event> {
    [Receive(0, []), AddToHistory(n), DeliverChat(n), VisitOne(0, Chat(n))]
  }

  /** The client once the message has been offered and its queue tried. */
  function Posted(c: Client, n: nat): Client {
    Visit(Offer(c, Chat(n), true), Chat(n))
  }

  lemma ExecFour(s: State, a: Event, b: Event, c: Event, d: Event)
    ensures Exec(s, [a, b, c, d]) == Next(Next(Next(Next(s, a), b), c), d)
  {
    assert [a, b, c, d] == [a, b, c] + [d] && [a, b, c] == [a, b] + [c] && [a, b] == [a] + [b];
    ExecSnoc(s, [a, b, c], d);
    ExecSnoc(s, [a, b], c);
    ExecSnoc(s, [a], b);
    assert Exec(s, [a]) == Exec(Next(s, a), []);
  }

  lemma PostRuns(s: State, n: nat)
    requires Stuck(s, n)
    ensures
      var t := Exec(s, Post(n));
      && Stuck(t, n + 1) && t.clients == [Posted(s.clients[0], n)] && t.made[n].to == [] && t.made[n].serial == n
      && t.now == s.now && t.ttl == s.ttl && t.made[n].stamp == Seconds(s.now)
      && t.history == Fresh(s.history, Cutoff(s)) + [t.made[n]]
  {
    var c := s.clients[0];
    ExecFour(s, Receive(0, []), AddToHistory(n), DeliverChat(n), VisitOne(0, Chat(n)));
    var m := Msg(n, c.device, [], Seconds(s.now), s.now, []);
    var s1 := s.(made := s.made + [m], composing := {n});
    assert Next(s, Receive(0, [])) == s1;
    var s2 := s1.(history := Fresh(s.history, Cutoff(s)) + [m], log := s.log + [m], lastCut := Cutoff(s),
                  composing := {}, undelivered := {n});
    Adds(s1, n);
    var s3 := s2.(undelivered := {}, clients := [Offer(c, Chat(n), true)]);
    Hands(s2, n);
    assert Next(s3, VisitOne(0, Chat(n))) == With(s3, 0, Posted(c, n));
  }

  lemma Adds(s: State, n: nat)
    requires |s.clients| == 1 && s.clients[0].toVisit == {} && s.composing == {n} && s.undelivered == {} && n < |s.made|
    ensures Next(s, AddToHistory(n)) == DoAddToHistory(s, n).(composing := {}, undelivered := {n})
  {
  }

  lemma Hands(s: State, n: nat)
    requires |s.clients| == 1 && s.undelivered == {n} && n < |s.made| && s.made[n].to == []
    ensures Next(s, DeliverChat(n)) == s.(undelivered := {}, clients := [Offer(s.clients[0], Chat(n), true)])
  {
    assert OfferAll(s.clients, Chat(n), Some(s.made[n])) == [Offer(s.clients[0], Chat(n), true)];
  }

  /** Messages fill the queue. */
  lemma {:induction false} FillUp(s: State, n: nat, k: nat) returns (es: seq<Event>)
    requires Stuck(s, n) && |s.clients[0].stream| + k <= BUFFER
    ensures Stuck(Exec(s, es), n + k)
    ensures |Exec(s, es).clients[0].stream| == |s.clients[0].stream| + k
    decreases k
  {
    es := [];
    if k > 0 {
      PostRuns(s, n);
      var more := FillUp(Exec(s, Post(n)), n + 1, k - 1);
      es := Post(n) + more;
      ExecConcat(s, Post(n), more);
    }
  }

  /** The queue is full, and one message more is left to deliverSlow. */
  lemma SlowStarts(now: int, ttl: nat, device: DeviceId) returns (es: seq<Event>, n: nat)
    ensures
      var s := Exec(Empty(now, ttl), es);
      && Stuck(s, n + 1) && Chat(n) in s.clients[0].slow && s.clients[0].slow[Chat(n)] == Spawned
      && s.made[n].to == []
  {
    var first := FirstClient(now, ttl, device);
    var s := Exec(Empty(now, ttl), first);
    n := BUFFER - 1;
    var fill := FillUp(s, 0, n);
    ExecConcat(Empty(now, ttl), first, fill);
    var t := Exec(s, fill);
    PostRuns(t, n);
    ExecConcat(Empty(now, ttl), first + fill, Post(n));
    es := first + fill + Post(n);
  }

  /** deliverSlow reorders frames: a message that waits in a retry is overtaken by one that had not been sent by then. */
  lemma RetryIsOvertaken(now: int, ttl: nat, device: DeviceId) returns (es: seq<Event>, more: seq<Event>, n: nat)
    ensures
      var s := Exec(Empty(now, ttl), es);
      && |s.clients| == 1 && Chat(n) in s.clients[0].slow && |s.made| == n + 1
      && ComesFirst(s, more, 0, Chat(n + 1), Chat(n))
  {
    es, n := SlowStarts(now, ttl, device);
    var s := Exec(Empty(now, ttl), es);
    var compose := [Receive(0, []), AddToHistory(n + 1)];
    var t := Exec(s, compose);
    ComposeNext(s, n);
    ExecConcat(Empty(now, ttl), es, compose);
    EitherOrder(now, ttl, es + compose, 0, Chat(n + 1), Chat(n));
    ExecKeepsInv(Empty(now, ttl), es + compose);
    assert Fits(t, t.clients[0]);
    assert Places(t.clients[0], Chat(n)) == One(Chat(n) in t.clients[0].offered);
    var rest :| ComesFirst(t, rest, 0, Chat(n + 1), Chat(n));
    more := compose + rest;
    ExecConcat(s, compose, rest);
  }

  lemma ComposeNext(s: State, n: nat)
    requires Stuck(s, n + 1)
    ensures
      var t := Exec(s, [Receive(0, []), AddToHistory(n + 1)]);
      && t.clients == s.clients && |t.made| == n + 2 && t.made[..n + 1] == s.made && t.made[n + 1].to == []
      && t.composing == {} && t.undelivered == {n + 1}
  {
    var es := [Receive(0, []), AddToHistory(n + 1)];
    assert es == [Receive(0, [])] + [AddToHistory(n + 1)];
    ExecSnoc(s, [Receive(0, [])], AddToHistory(n + 1));
    assert Exec(s, [Receive(0, [])]) == Exec(Next(s, Receive(0, [])), []);
    var m := Msg(n + 1, s.clients[0].device, [], Seconds(s.now), s.now, []);
    var s1 := s.(made := s.made + [m], composing := {n + 1});
    assert Next(s, Receive(0, [])) == s1;
    Adds(s1, n + 1);
  }
}

/** The chat list of the browser: a history frame replaces it, a message frame is appended. */
module HubScreen {
  import opened Prelude
  import opened HubModel
  import opened HubInvariants
  import opened HubRuns
  import opened HubOrder
  import opened HubScenes

  /** The list after these frames have come in on a new page. */
  function Screen(made: seq<Msg>, snap: Option<Snapshot>, fs: seq<Frame>): seq<Msg> {
    if fs == [] then []
    else
      var shown := Screen(made, snap, fs[..|fs| - 1]);
      match fs[|fs| - 1]
      case History => if snap.Some? then snap.value.msgs else []
      case Chat(n) => if n < |made| then shown + [made[n]] else shown
      case _ => shown
  }

  /** The frame brings the message. */
  predicate Brings(made: seq<Msg>, snap: Option<Snapshot>, f: Frame, m: Msg) {
    match f
    case History => snap.Some? && m in snap.value.msgs
    case Chat(n) => n < |made| && made[n] == m
    case _ => false
  }

  /** A frame brings the message, and no history frame replaces the list after it. */
  ghost predicate Stays(made: seq<Msg>, snap: Option<Snapshot>, fs: seq<Frame>, k: nat, m: Msg) {
    k < |fs| && Brings(made, snap, fs[k], m) && forall j :: k < j < |fs| ==> fs[j] != History
  }

  lemma {:induction false} ScreenHas(made: seq<Msg>, snap: Option<Snapshot>, fs: seq<Frame>, m: Msg)
    ensures m in Screen(made, snap, fs) <==> exists k: nat :: Stays(made, snap, fs, k, m)
  {
    if fs != [] {
      var front, last := fs[..|fs| - 1], |fs| - 1;
      ScreenHas(made, snap, front, m);
      if Brings(made, snap, fs[last], m) {
        assert Stays(made, snap, fs, last, m);
      }
      if fs[last] != History {
        forall k: nat | k < last
          ensures Stays(made, snap, fs, k, m) <==> Stays(made, snap, front, k, m)
        {
          assert front[k] == fs[k];
          if Stays(made, snap, front, k, m) {
            forall j | k < j < |fs|
              ensures fs[j] != History
            {
              assert j < last ==> front[j] == fs[j];
            }
          }
          if Stays(made, snap, fs, k, m) {
            forall j | k < j < |front|
              ensures front[j] != History
            {
              assert front[j] == fs[j];
            }
          }
        }
      }
    }
  }

  /** The messages of these frames, in order. */
  function Chats(made: seq<Msg>, fs: seq<Frame>): seq<Msg> {
    if fs == [] then []
    else if fs[0].Chat? && fs[0].serial < |made| then [made[fs[0].serial]] + Chats(made, fs[1..])
    else Chats(made, fs[1..])
  }

  /** After a history frame the list is its snapshot and then the messages that have come since, in order. */
  lemma {:induction false} ListInOrder(made: seq<Msg>, snap: Option<Snapshot>, before: seq<Frame>, since: seq<Frame>)
    requires snap.Some? && History !in since
    ensures Screen(made, snap, before + [History] + since) == snap.value.msgs + Chats(made, since)
    ensures Screen(made, snap, since) == Chats(made, since)
    decreases |since|
  {
    if since == [] {
      assert (before + [History] + since)[..|before|] == before;
    } else {
      var front, last := since[..|since| - 1], since[|since| - 1];
      assert since == front + [last] && History !in front;
      ListInOrder(made, snap, before, front);
      assert (before + [History] + since)[..|before| + |since|] == before + [History] + front;
      ChatsSnoc(made, front, last);
    }
  }

  lemma {:induction false} ChatsSnoc(made: seq<Msg>, fs: seq<Frame>, f: Frame)
    ensures Chats(made, fs + [f]) == Chats(made, fs) + if f.Chat? && f.serial < |made| then [made[f.serial]] else []
  {
    if fs == [] {
      assert [f][1..] == [];
    } else {
      assert (fs + [f])[1..] == fs[1..] + [f];
      ChatsSnoc(made, fs[1..], f);
    }
  }

  /** The frames the client's pump has received. */
  function Received(c: Client): seq<Frame> {
    if c.taken <= |c.stream| then c.stream[..c.taken] else c.stream
  }

  /** Frames come once, so a message is not brought by two of them of the same kind. */
  lemma OneFrameEach(s: State, i: nat)
    requires Inv(s) && i < |s.clients|
    ensures
      var fs := Received(s.clients[i]);
      forall j, k :: 0 <= j < |fs| && 0 <= k < |fs| && fs[j] == fs[k] ==> j == k
  {
    var c := s.clients[i];
    assert Fits(s, c);
    forall j, k | 0 <= j < |Received(c)| && 0 <= k < |Received(c)| && Received(c)[j] == Received(c)[k]
      ensures j == k
    {
      var f := Received(c)[j];
      assert Places(c, f) <= 1;
      OnlyOnce(c.stream, f, j, k);
    }
  }

  /** The message frame comes before the history frame. */
  ghost predicate Wiped(fs: seq<Frame>, n: nat) {
    Precedes(fs, Chat(n), History)
  }

  /**
   What the list lacks, in every run: a message that was delivered to a client is not on its list if and only if it
   was delivered before the history frame and the snapshot in that frame does not hold it.
   */
  lemma WhatTheListLacks(start: int, ttl: nat, es: seq<Event>, i: nat, n: nat)
    requires
      var s := Exec(Empty(start, ttl), es);
      i < |s.clients| && n < |s.made| && Chat(n) in Received(s.clients[i])
    ensures
      var s := Exec(Empty(start, ttl), es);
      var c := s.clients[i];
      s.made[n] !in Screen(s.made, c.snap, Received(c)) <==>
      Wiped(Received(c), n) && !(c.snap.Some? && s.made[n] in c.snap.value.msgs)
  {
    var s := Exec(Empty(start, ttl), es);
    ExecKeepsInv(Empty(start, ttl), es);
    var c, m := s.clients[i], s.made[n];
    var fs := Received(c);
    ScreenHas(s.made, c.snap, fs, m);
    OneFrameEach(s, i);
    var at: nat :| at < |fs| && fs[at] == Chat(n);
    if Wiped(fs, n) {
      var j, h :| 0 <= j < h < |fs| && fs[j] == Chat(n) && fs[h] == History;
      HistoryAlone(s, c, fs, n, h);
    } else {
      forall j | at < j < |fs|
        ensures fs[j] != History
      {
        assert fs[j] == History ==> Precedes(fs, Chat(n), History);
      }
      assert Stays(s.made, c.snap, fs, at, m);
    }
  }

  /** After the history frame, only it and later message frames count. */
  lemma HistoryAlone(s: State, c: Client, fs: seq<Frame>, n: nat, h: nat)
    requires Messages(s) && n < |s.made| && h < |fs| && fs[h] == History && Precedes(fs, Chat(n), History)
    requires forall j, k :: 0 <= j < |fs| && 0 <= k < |fs| && fs[j] == fs[k] ==> j == k
    ensures (exists k: nat :: Stays(s.made, c.snap, fs, k, s.made[n])) <==> c.snap.Some? && s.made[n] in c.snap.value.msgs
  {
    var m := s.made[n];
    if c.snap.Some? && m in c.snap.value.msgs {
      assert Stays(s.made, c.snap, fs, h, m);
    }
    var at, l :| 0 <= at < l < |fs| && fs[at] == Chat(n) && fs[l] == History;
    forall k: nat | k < |fs| && Brings(s.made, c.snap, fs[k], m)
      ensures fs[k] == History || k == at
    {
      assert s.made[n].serial == n;
    }
  }

  /** Whatever the snapshot holds or comes after it is there. */
  lemma WhatTheListHas(start: int, ttl: nat, es: seq<Event>, i: nat, m: Msg)
    requires
      var s := Exec(Empty(start, ttl), es);
      i < |s.clients| && History in Received(s.clients[i]) && s.clients[i].snap.Some? && m in s.clients[i].snap.value.msgs
    ensures
      var s := Exec(Empty(start, ttl), es);
      m in Screen(s.made, s.clients[i].snap, Received(s.clients[i]))
  {
    var s := Exec(Empty(start, ttl), es);
    ExecKeepsInv(Empty(start, ttl), es);
    OneFrameEach(s, i);
    var c, fs := s.clients[i], Received(s.clients[i]);
    var h: nat :| h < |fs| && fs[h] == History;
    ScreenHas(s.made, c.snap, fs, m);
    assert Stays(s.made, c.snap, fs, h, m);
  }

  // ---- a message is lost ----------------------------------------------------------------------------------------

  /** Client 1 comes in while client 0 sends a second message, and its pump receives what it gets. */
  function Latecomer(): seq<Event> {
    [Join(1), SendWelcome(1), TakeSnapshot(1, 0)] + [Receive(0, []), AddToHistory(1)] +
    [DeliverChat(1), VisitOne(1, Chat(1)), SendHistory(1)] + [Take(1), Take(1), Take(1)]
  }

  lemma ExecThree(s: State, a: Event, b: Event, c: Event)
    ensures Exec(s, [a, b, c]) == Next(Next(Next(s, a), b), c)
  {
    assert [a, b, c] == [a, b] + [c] && [a, b] == [a] + [b];
    ExecSnoc(s, [a, b], c);
    ExecSnoc(s, [a], b);
    assert Exec(s, [a]) == Exec(Next(s, a), []);
  }

  lemma SnapshotSection(s: State, i: nat, c: Client, m: Msg)
    requires i < |s.clients| && c.stage.Welcomed? && s.history == [m] && m.to == [] && m.stamp >= Cutoff(s)
    ensures Next(With(s, i, c), TakeSnapshot(i, 0)) ==
            With(s, i, c.(stage := Snapped, snap := Some(Snapshot(|s.log|, Since(s, Cutoff(s)), [m]))))
  {
    FreshSnoc([], m, Cutoff(s));
    VisibleSnoc([], m, c.device);
    assert [] + [m] == [m];
    WithTwice(s, i, c, c.(stage := Snapped, snap := Some(Snapshot(|s.log|, Since(s, Cutoff(s)), [m]))));
  }

  /** A client whose snapshot holds one message. */
  function Late(device: DeviceId, at: nat, since: int, m: Msg): Client {
    NewClient(device).(stage := Snapped, registered := true, stream := [Welcome], snap := Some(Snapshot(at, since, [m])))
  }

  lemma ComesIn(s: State, c: Client, b: DeviceId, m: Msg)
    requires s.clients == [c, NewClient(b)] && c.toVisit == {} && s.history == [m] && m.to == [] && m.stamp >= Cutoff(s)
    ensures Exec(s, [Join(1), SendWelcome(1), TakeSnapshot(1, 0)]) ==
            s.(clients := [c, Late(b, |s.log|, Since(s, Cutoff(s)), m)])
  {
    var d1 := NewClient(b).(stage := Added, registered := true);
    var d2 := d1.(stage := Welcomed, stream := [Welcome]);
    JoinSection(s, 1);
    WelcomeSection(s, 1, d1);
    SnapshotSection(s, 1, d2, m);
    Three(s, With(s, 1, d1), With(s, 1, d2));
    var d := Late(b, |s.log|, Since(s, Cutoff(s)), m);
    assert [c, NewClient(b)][1 := d] == [c, d];
  }

  lemma Three(s: State, s1: State, s2: State)
    requires s1 == Next(s, Join(1)) && s2 == Next(s1, SendWelcome(1))
    ensures Exec(s, [Join(1), SendWelcome(1), TakeSnapshot(1, 0)]) == Next(s2, TakeSnapshot(1, 0))
  {
    ExecThree(s, Join(1), SendWelcome(1), TakeSnapshot(1, 0));
  }

  lemma SendsAnother(s: State, c: Client, d: Client)
    requires s.clients == [c, d] && !c.stage.New? && c.toVisit == {} && d.toVisit == {} && |s.made| == 1
    requires s.composing == {} && s.undelivered == {}
    ensures
      var t := Exec(s, [Receive(0, []), AddToHistory(1)]);
      && t.clients == s.clients && |t.made| == 2 && t.made[0] == s.made[0] && t.made[1].to == []
      && t.undelivered == {1} && t.made[1].serial == 1 && t.made[1].stamp == Seconds(t.now)
  {
    var es := [Receive(0, []), AddToHistory(1)];
    assert es == [Receive(0, [])] + [AddToHistory(1)];
    ExecSnoc(s, [Receive(0, [])], AddToHistory(1));
    assert Exec(s, [Receive(0, [])]) == Exec(Next(s, Receive(0, [])), []);
    var m := Msg(1, c.device, [], Seconds(s.now), s.now, []);
    var t := s.(made := s.made + [m], composing := {1});
    assert Next(s, Receive(0, [])) == t;
    assert NoReaders(t);
    assert Next(t, AddToHistory(1)) == DoAddToHistory(t, 1);
  }

  lemma GetsItThenHistory(s: State, c: Client, d: Client)
    requires s.clients == [c, d] && |s.made| == 2 && s.made[1].to == [] && s.undelivered == {1}
    requires d.registered && !d.closed && d.stage.Snapped? && d.stream == [Welcome] && d.taken == 0 && d.toVisit == {}
    requires d.snap.Some? && d.snap.value.msgs != []
    ensures
      var t := Exec(s, [DeliverChat(1), VisitOne(1, Chat(1)), SendHistory(1)]);
      && |t.clients| == 2 && t.made == s.made
      && t.clients[1].stream == [Welcome, Chat(1), History] && t.clients[1].taken == 0 && t.clients[1].snap == d.snap
  {
    var f := Chat(1);
    ExecThree(s, DeliverChat(1), VisitOne(1, f), SendHistory(1));
    var e := Offer(d, f, true);
    var s1 := Next(s, DeliverChat(1));
    assert s1.clients[1] == e;
    var s2 := Next(s1, VisitOne(1, f));
    assert s2 == With(s1, 1, Visit(e, f));
    assert Visit(e, f).stream == [Welcome, f];
    assert Enqueue(Visit(e, f), History).stream == [Welcome, f, History];
  }

  lemma PumpsThree(s: State)
    requires |s.clients| == 2 && |s.clients[1].stream| == 3 && s.clients[1].taken == 0
    ensures Exec(s, [Take(1), Take(1), Take(1)]) == With(s, 1, s.clients[1].(taken := 3))
  {
    ExecThree(s, Take(1), Take(1), Take(1));
    var d := s.clients[1];
    assert Next(s, Take(1)) == With(s, 1, d.(taken := 1));
    WithTwice(s, 1, d.(taken := 1), d.(taken := 2));
    WithTwice(s, 1, d.(taken := 2), d.(taken := 3));
  }

  lemma LatecomerRuns(s: State, c: Client, b: DeviceId)
    requires s.clients == [c, NewClient(b)] && !c.stage.New? && c.toVisit == {} && |s.made| == 1
    requires s.composing == {} && s.undelivered == {} && s.history == [s.made[0]]
    requires s.made[0].to == [] && s.made[0].stamp >= Cutoff(s) && s.made[0].serial == 0
    ensures
      var t := Exec(s, Latecomer());
      && |t.clients| == 2 && |t.made| == 2 && t.made[1].to == []
      && Received(t.clients[1]) == [Welcome, Chat(1), History]
      && Screen(t.made, t.clients[1].snap, Received(t.clients[1])) == [t.made[0]]
      && t.made[0] != t.made[1]
  {
    var e1, e2 := [Join(1), SendWelcome(1), TakeSnapshot(1, 0)], [Receive(0, []), AddToHistory(1)];
    var e3, e4 := [DeliverChat(1), VisitOne(1, Chat(1)), SendHistory(1)], [Take(1), Take(1), Take(1)];
    ComesIn(s, c, b, s.made[0]);
    var t1 := Exec(s, e1);
    SendsAnother(t1, c, t1.clients[1]);
    var t2 := Exec(t1, e2);
    GetsItThenHistory(t2, c, t2.clients[1]);
    var t3 := Exec(t2, e3);
    PumpsThree(t3);
    ExecConcat(s, e1, e2);
    ExecConcat(s, e1 + e2, e3);
    ExecConcat(s, e1 + e2 + e3, e4);
    OnlyTheSnapshot(t3.made, t3.clients[1].snap, t3.made[0]);
    assert [Welcome, Chat(1), History][..3] == [Welcome, Chat(1), History];
  }

  lemma OnlyTheSnapshot(made: seq<Msg>, snap: Option<Snapshot>, m: Msg)
    requires snap.Some? && snap.value.msgs == [m]
    ensures Screen(made, snap, [Welcome, Chat(1), History]) == [m]
  {
  }

  /** A message that was delivered, and would be visible, is not on the list of a client that came in meanwhile. */
  lemma DeliveredButNotListed(now: int, ttl: nat, a: DeviceId, b: DeviceId) returns (es: seq<Event>)
    ensures
      var s := Exec(Empty(now, ttl), es);
      && |s.clients| == 2 && |s.made| == 2 && VisibleTo(s.made[1], s.clients[1].device)
      && Chat(1) in Received(s.clients[1])
      && s.made[1] !in Screen(s.made, s.clients[1].snap, Received(s.clients[1]))
  {
    var first := FirstClient(now, ttl, a);
    var s := Exec(Empty(now, ttl), first);
    PostRuns(s, 0);
    var t := Exec(s, Post(0));
    var u := Next(t, Connect(b));
    LatecomerRuns(u, u.clients[0], b);
    ExecConcat(Empty(now, ttl), first, Post(0));
    ExecSnoc(Empty(now, ttl), first + Post(0), Connect(b));
    ExecConcat(Empty(now, ttl), first + Post(0) + [Connect(b)], Latecomer());
    es := first + Post(0) + [Connect(b)] + Latecomer();
  }
}

/** What every run of the hub keeps. */
module HubRuns {
  import opened Prelude
  import opened HubModel
  import opened HubInvariants

  // ---- lists of messages ------------------------------------------------------------------------------

  lemma {:induction false} FreshFresh(ms: seq<Msg>, low: int, high: int)
    requires low <= high
    ensures Fresh(Fresh(ms, low), high) == Fresh(ms, high)
  {
    if ms != [] {
      var front, last := ms[..|ms| - 1], ms[|ms| - 1];
      FreshFresh(front, low, high);
      FreshSnoc(Fresh(front, low), last, high);
      assert Fresh(front, low) + [] == Fresh(front, low) && Fresh(front, high) + [] == Fresh(front, high);
    }
  }

  lemma FreshSnoc(ms: seq<Msg>, m: Msg, cutoff: int)
    ensures Fresh(ms + [m], cutoff) == Fresh(ms, cutoff) + (if m.stamp >= cutoff then [m] else [])
  {
    assert (ms + [m])[..|ms|] == ms;
  }

  lemma {:induction false} FreshHas(ms: seq<Msg>, cutoff: int, m: Msg)
    ensures m in Fresh(ms, cutoff) <==> m in ms && m.stamp >= cutoff
  {
    if ms != [] {
      FreshHas(ms[..|ms| - 1], cutoff, m);
    }
  }

  lemma {:induction false} VisibleHas(ms: seq<Msg>, device: DeviceId, m: Msg)
    ensures m in Visible(ms, device) <==> m in ms && VisibleTo(m, device)
  {
    if ms != [] {
      VisibleHas(ms[..|ms| - 1], device, m);
    }
  }

  /** Filtering by age and by visibility commute. */
  lemma {:induction false} FreshVisible(ms: seq<Msg>, cutoff: int, device: DeviceId)
    ensures Fresh(Visible(ms, device), cutoff) == Visible(Fresh(ms, cutoff), device)
  {
    if ms != [] {
      var front, last := ms[..|ms| - 1], ms[|ms| - 1];
      FreshVisible(front, cutoff, device);
      FreshSnoc(Visible(front, device), last, cutoff);
      VisibleSnoc(Fresh(front, cutoff), last, device);
      assert Visible(front, device) + [] == Visible(front, device) && Fresh(front, cutoff) + [] == Fresh(front, cutoff);
    }
  }

  lemma VisibleSnoc(ms: seq<Msg>, m: Msg, device: DeviceId)
    ensures Visible(ms + [m], device) == Visible(ms, device) + (if VisibleTo(m, device) then [m] else [])
  {
    assert (ms + [m])[..|ms|] == ms;
  }

  // ---- the invariant ------------------------------------------------------------------------------------

  /** The recipients of a message are what sanitizeRecipients makes of the incoming list, never nothing. */
  predicate Addressed(m: Msg) {
    m.to == Recipients(m.asked, m.from) && (m.asked != [] ==> m.to != [])
  }

  ghost predicate Messages(s: State) {
    && s.composing !! s.undelivered
    && (forall n :: n in s.composing || n in s.undelivered ==> n < |s.made|)
    && (forall k :: k in s.waiting ==> k < |s.lists|)
    && (forall n :: 0 <= n < |s.made| ==>
          s.made[n].serial == n && Addressed(s.made[n]) && s.made[n].stamp == Seconds(s.made[n].sentAt) && s.made[n].sentAt <= s.now)
    && (forall k :: 0 <= k < |s.log| ==>
          s.log[k].serial < |s.made| && s.made[s.log[k].serial] == s.log[k] && s.log[k].serial !in s.composing)
  }

  /** Compaction has only taken away what no later snapshot could show. */
  ghost predicate Compacted(s: State) {
    && s.lastCut <= Cutoff(s)
    && (forall cut :: s.lastCut <= cut ==> Fresh(s.history, cut) == Fresh(s.log, cut))
    && (forall m :: m in s.history ==> m in s.log)
  }

  /** A frame that may have been offered to a client by now. */
  predicate Possible(s: State, device: DeviceId, f: Frame) {
    match f
    case Chat(n) => n < |s.made| && n !in s.composing && n !in s.undelivered && VisibleTo(s.made[n], device)
    case Presence(k) => k < |s.lists| && k !in s.waiting
    case _ => false
  }

  ghost predicate Offers(s: State, c: Client) {
    forall f :: f in c.offered ==> Possible(s, c.device, f)
  }

  /** The snapshot shows visible messages of this log, and of those stamped late enough all, in order. */
  ghost predicate Shows(snap: Snapshot, log: seq<Msg>, device: DeviceId) {
    && Fresh(snap.msgs, snap.since) == Visible(Fresh(log, snap.since), device)
    && forall m :: m in snap.msgs ==> m in log && VisibleTo(m, device)
  }

  ghost predicate Snapshots(s: State, c: Client) {
    && (c.snap.None? <==> NoSnapshotYet(c.stage))
    && (c.snap.Some? ==>
          && c.snap.value.at <= |s.log| && c.snap.value.since <= Cutoff(s)
          && Shows(c.snap.value, s.log[..c.snap.value.at], c.device))
  }

  /** A message added after the snapshot is being delivered or has been offered. */
  ghost predicate CaughtUp(s: State, c: Client) {
    c.snap.Some? && c.registered ==>
      forall k :: c.snap.value.at <= k < |s.log| && VisibleTo(s.log[k], c.device) ==>
        s.log[k].serial in s.undelivered || Chat(s.log[k].serial) in c.offered
  }

  ghost predicate Fits(s: State, c: Client) {
    ClientInv(c) && Offers(s, c) && Snapshots(s, c) && CaughtUp(s, c)
  }

  ghost predicate Inv(s: State) {
    Messages(s) && Compacted(s) && forall i :: 0 <= i < |s.clients| ==> Fits(s, s.clients[i])
  }

  // ---- events that change one client only -----------------------------------------------------------------

  /** What the hub knows of a client is unchanged: only the way its frames travel differs. */
  predicate SameRole(c: Client, d: Client) {
    && d.device == c.device && d.offered == c.offered && d.snap == c.snap
    && (d.registered ==> c.registered || c.stage.New?)
    && (NoSnapshotYet(d.stage) <==> NoSnapshotYet(c.stage))
  }

  lemma ClientStep(s: State, i: nat, d: Client)
    requires Inv(s) && i < |s.clients| && ClientInv(d) && SameRole(s.clients[i], d)
    ensures Inv(With(s, i, d))
  {
    var s1 := With(s, i, d);
    forall j | 0 <= j < |s1.clients|
      ensures Fits(s1, s1.clients[j])
    {
      assert Fits(s, s.clients[j]);
    }
  }

  /** The same when the event also calls broadcastPresence. */
  lemma ClientStepDue(s: State, i: nat, d: Client, due: nat)
    requires Inv(s) && i < |s.clients| && ClientInv(d) && SameRole(s.clients[i], d)
    ensures Inv(With(s, i, d).(due := due))
  {
    var s1 := With(s, i, d).(due := due);
    forall j | 0 <= j < |s1.clients|
      ensures Fits(s1, s1.clients[j])
    {
      assert Fits(s, s.clients[j]);
    }
  }

  lemma SnapshotShows(s: State, cut: int, device: DeviceId)
    requires Compacted(s)
    ensures Shows(Snapshot(|s.log|, Since(s, cut), Visible(Fresh(s.history, cut), device)), s.log, device)
  {
    var since, msgs := Since(s, cut), Visible(Fresh(s.history, cut), device);
    FreshVisible(Fresh(s.history, cut), since, device);
    FreshFresh(s.history, cut, since);
    forall m | m in msgs
      ensures m in s.log && VisibleTo(m, device)
    {
      VisibleHas(Fresh(s.history, cut), device, m);
      FreshHas(s.history, cut, m);
    }
  }

  lemma SnapshotStep(s: State, i: nat, wait: nat)
    requires Inv(s) && i < |s.clients| && s.clients[i].stage == Welcomed
    ensures Inv(DoTakeSnapshot(s, i, wait))
  {
    var c := s.clients[i];
    var s1 := DoTakeSnapshot(s, i, wait);
    var d := s1.clients[i];
    assert Fits(s, c);
    RelabelKeeps(c, d);
    SnapshotShows(s, CutoffBefore(s, wait), c.device);
    assert s.log[..|s.log|] == s.log;
    forall j | 0 <= j < |s1.clients|
      ensures Fits(s1, s1.clients[j])
    {
      assert Fits(s, s.clients[j]);
    }
  }

  // ---- events of the whole hub --------------------------------------------------------------------------------

  lemma TickStep(s: State, d: nat)
    requires Inv(s)
    ensures Inv(s.(now := s.now + d))
  {
    var s1 := s.(now := s.now + d);
    forall j | 0 <= j < |s.clients|
      ensures Fits(s1, s.clients[j])
    {
      assert Fits(s, s.clients[j]);
    }
  }

  lemma ConnectStep(s: State, device: DeviceId)
    requires Inv(s)
    ensures Inv(s.(clients := s.clients + [NewClient(device)]))
  {
    var s1 := s.(clients := s.clients + [NewClient(device)]);
    forall f
      ensures Places(NewClient(device), f) == 0
    {
    }
    forall j | 0 <= j < |s1.clients|
      ensures Fits(s1, s1.clients[j])
    {
      if j < |s.clients| {
        assert Fits(s, s.clients[j]);
      }
    }
  }

  lemma ReceiveFits(s: State, i: nat, asked: seq<Option<DeviceId>>, c: Client)
    requires Messages(s) && i < |s.clients| && Fits(s, c)
    ensures Fits(DoReceive(s, i, asked), c)
  {
  }

  lemma ReceiveMessages(s: State, i: nat, asked: seq<Option<DeviceId>>)
    requires Messages(s) && Compacted(s) && i < |s.clients|
    ensures Messages(DoReceive(s, i, asked)) && Compacted(DoReceive(s, i, asked))
  {
  }

  lemma ReceiveStep(s: State, i: nat, asked: seq<Option<DeviceId>>)
    requires Inv(s) && i < |s.clients|
    ensures Inv(DoReceive(s, i, asked))
  {
    ReceiveMessages(s, i, asked);
    forall j | 0 <= j < |s.clients|
      ensures Fits(DoReceive(s, i, asked), s.clients[j])
    {
      ReceiveFits(s, i, asked, s.clients[j]);
    }
  }

  lemma AddMessages(s: State, n: nat)
    requires Inv(s) && n in s.composing
    ensures Messages(DoAddToHistory(s, n))
    ensures Compacted(DoAddToHistory(s, n))
  {
    var s1 := DoAddToHistory(s, n);
    var m := s.made[n];
    forall cut | s1.lastCut <= cut
      ensures Fresh(s1.history, cut) == Fresh(s1.log, cut)
    {
      FreshSnoc(Fresh(s.history, Cutoff(s)), m, cut);
      FreshFresh(s.history, Cutoff(s), cut);
      FreshSnoc(s.log, m, cut);
    }
    forall h | h in s.history
      ensures h in s.log
    {
    }
    forall h | h in s1.history
      ensures h in s1.log
    {
      FreshHas(s.history, Cutoff(s), h);
    }
  }

  lemma AddFits(s: State, n: nat, c: Client)
    requires Messages(s) && n in s.composing && Fits(s, c)
    ensures Fits(DoAddToHistory(s, n), c)
  {
    var s1 := DoAddToHistory(s, n);
    if c.snap.Some? {
      assert s1.log[..c.snap.value.at] == s.log[..c.snap.value.at];
    }
    assert CaughtUp(s1, c);
  }

  lemma AddStep(s: State, n: nat)
    requires Inv(s) && n in s.composing
    ensures Inv(DoAddToHistory(s, n))
  {
    AddMessages(s, n);
    forall j | 0 <= j < |s.clients|
      ensures Fits(DoAddToHistory(s, n), s.clients[j])
    {
      AddFits(s, n, s.clients[j]);
    }
  }

  lemma ChatOffered(s: State, n: nat, s1: State, c: Client)
    requires Messages(s) && n in s.undelivered && n < |s.made| && Fits(s, c)
    requires s1.now == s.now && s1.ttl == s.ttl
    requires s1.made == s.made && s1.log == s.log && s1.composing == s.composing && s1.lists == s.lists
    requires s1.waiting == s.waiting
    requires s1.undelivered == s.undelivered - {n}
    ensures Fits(s1, Offer(c, Chat(n), VisibleTo(s.made[n], c.device)))
  {
    var wanted := VisibleTo(s.made[n], c.device);
    assert !Possible(s, c.device, Chat(n));
    OfferKeeps(c, Chat(n), wanted);
  }

  lemma DeliverChatStep(s: State, n: nat)
    requires Inv(s) && n in s.undelivered
    ensures Inv(Next(s, DeliverChat(n)))
  {
    var s1 := Next(s, DeliverChat(n));
    forall j | 0 <= j < |s.clients|
      ensures Fits(s1, s1.clients[j])
    {
      ChatOffered(s, n, s1, s.clients[j]);
    }
  }

  lemma ComputePresenceStep(s: State)
    requires Inv(s)
    ensures Inv(Next(s, ComputePresence))
  {
    var s1 := Next(s, ComputePresence);
    forall j | 0 <= j < |s.clients|
      ensures Fits(s1, s.clients[j])
    {
      assert Fits(s, s.clients[j]);
    }
  }

  lemma PresenceOffered(s: State, k: nat, s1: State, c: Client)
    requires Messages(s) && k in s.waiting && Fits(s, c)
    requires s1.now == s.now && s1.ttl == s.ttl
    requires s1.made == s.made && s1.log == s.log && s1.composing == s.composing && s1.lists == s.lists
    requires s1.undelivered == s.undelivered && s1.waiting == s.waiting - {k}
    ensures Fits(s1, Offer(c, Presence(k), true))
  {
    assert !Possible(s, c.device, Presence(k));
    OfferKeeps(c, Presence(k), true);
  }

  lemma DeliverPresenceStep(s: State, k: nat)
    requires Inv(s) && k in s.waiting
    ensures Inv(Next(s, DeliverPresence(k)))
  {
    var s1 := Next(s, DeliverPresence(k));
    forall j | 0 <= j < |s.clients|
      ensures Fits(s1, s1.clients[j])
    {
      PresenceOffered(s, k, s1, s.clients[j]);
    }
  }

  lemma JoinStep(s: State, i: nat)
    requires Inv(s) && i < |s.clients|
    ensures Inv(NextOf(s, Join(i), i))
  {
    var c := s.clients[i];
    assert Fits(s, c);
    if c.stage.New? && NoReaders(s) {
      var d := c.(stage := Added, registered := true);
      RelabelKeeps(c, d);
      ClientStep(s, i, d);
    }
  }

  lemma WelcomeStep(s: State, i: nat)
    requires Inv(s) && i < |s.clients|
    ensures Inv(NextOf(s, SendWelcome(i), i))
  {
    var c := s.clients[i];
    assert Fits(s, c);
    if c.stage.Added? {
      EnqueueKeeps(c, Welcome, Welcomed);
      ClientStep(s, i, Enqueue(c, Welcome).(stage := Welcomed));
    }
  }

  lemma SendHistoryStep(s: State, i: nat)
    requires Inv(s) && i < |s.clients|
    ensures Inv(NextOf(s, SendHistory(i), i))
  {
    var c := s.clients[i];
    assert Fits(s, c);
    if c.stage.Snapped? {
      var d := (if c.snap.Some? && c.snap.value.msgs != [] then Enqueue(c, History) else c).(stage := Sent);
      HistoryKeeps(c, d);
      assert NextOf(s, SendHistory(i), i) == With(s, i, d);
      ClientStep(s, i, d);
    }
  }

  lemma HistoryKeeps(c: Client, d: Client)
    requires ClientInv(c) && c.stage.Snapped?
    requires d == Enqueue(c, History).(stage := Sent) || d == c.(stage := Sent)
    ensures ClientInv(d) && SameRole(c, d)
  {
    if d == c.(stage := Sent) {
      RelabelKeeps(c, d);
    } else {
      EnqueueKeeps(c, History, Sent);
    }
  }

  lemma AnnounceStep(s: State, i: nat)
    requires Inv(s) && i < |s.clients|
    ensures Inv(NextOf(s, Announce(i), i))
  {
    var c := s.clients[i];
    assert Fits(s, c);
    if c.stage.Sent? {
      var d := c.(stage := Announced);
      RelabelKeeps(c, d);
      ClientStepDue(s, i, d, s.due + 1);
      assert NextOf(s, Announce(i), i) == With(s, i, d).(due := s.due + 1);
    }
  }

  lemma LeaveStep(s: State, i: nat)
    requires Inv(s) && i < |s.clients|
    ensures Inv(DoLeave(s, i))
  {
    var c := s.clients[i];
    if NoReaders(s) && c.registered {
      assert c.toVisit == {};
      assert DoLeave(s, i) == With(s, i, Unregister(c)).(due := s.due + 1);
      LeaveKeeps(s, i);
    } else {
      assert DoLeave(s, i) == s;
    }
  }

  lemma LeaveKeeps(s: State, i: nat)
    requires Inv(s) && i < |s.clients| && s.clients[i].toVisit == {} && s.clients[i].registered
    ensures Inv(With(s, i, Unregister(s.clients[i])).(due := s.due + 1))
  {
    var c := s.clients[i];
    assert Fits(s, c);
    UnregisterKeeps(c);
    ClientStepDue(s, i, Unregister(c), s.due + 1);
  }

  lemma GivenUp(c: Client, f: Frame)
    requires ClientInv(c) && c.toVisit == {}
    ensures ClientInv(GiveUp(c, f)) && SameRole(c, GiveUp(c, f))
  {
    GiveUpKeeps(c, f);
  }

  lemma DisconnectStep(s: State, i: nat, f: Frame)
    requires Inv(s) && i < |s.clients|
    ensures Inv(DoDisconnect(s, i, f))
  {
    var c := s.clients[i];
    if NoReaders(s) && f in c.slow && c.slow[f].GivingUp? {
      var due := s.due + if c.registered then 1 else 0;
      assert DoDisconnect(s, i, f) == With(s, i, GiveUp(c, f)).(due := due);
      DisconnectKeeps(s, i, f, due);
    } else {
      assert DoDisconnect(s, i, f) == s;
    }
  }

  lemma DisconnectKeeps(s: State, i: nat, f: Frame, due: nat)
    requires Inv(s) && i < |s.clients| && NoReaders(s)
    ensures Inv(With(s, i, GiveUp(s.clients[i], f)).(due := due))
  {
    var c := s.clients[i];
    assert Fits(s, c) && c.toVisit == {};
    GivenUp(c, f);
    ClientStepDue(s, i, GiveUp(c, f), due);
  }

  /** Frames travel without the client's role changing. */
  lemma RoleInLoop(now: int, c: Client, f: Frame)
    ensures SameRole(c, Visit(c, f)) && SameRole(c, SlowBegin(now, c, f)) && SameRole(c, Consume(c))
  {
  }

  lemma RoleInRetry(now: int, c: Client, f: Frame)
    ensures SameRole(c, BeginRound(now, c, f)) && SameRole(c, Expire(now, c, f)) && SameRole(c, Attempt(c, f))
  {
  }

  /** The events that move a frame. */
  function Moved(now: int, c: Client, e: Event): Client {
    match e
    case VisitOne(_, f) => Visit(c, f)
    case BeginSlow(_, f) => SlowBegin(now, c, f)
    case ReadClock(_, f) => BeginRound(now, c, f)
    case TryAgain(_, f) => Attempt(c, f)
    case PassDeadline(_, f) => Expire(now, c, f)
    case _ => Consume(c)
  }

  lemma FrameEvent(s: State, e: Event, i: nat)
    requires Inv(s) && i < |s.clients|
    requires MovesFrame(e)
    ensures Inv(NextOf(s, e, i))
  {
    var c := s.clients[i];
    assert Fits(s, c);
    MovedKeeps(s.now, c, e);
    ClientStep(s, i, Moved(s.now, c, e));
  }

  lemma MovedKeeps(now: int, c: Client, e: Event)
    requires ClientInv(c)
    ensures ClientInv(Moved(now, c, e)) && SameRole(c, Moved(now, c, e))
  {
    MovedKeepsInv(now, c, e);
    MovedKeepsRole(now, c, e);
  }

  lemma MovedKeepsInv(now: int, c: Client, e: Event)
    requires ClientInv(c)
    ensures ClientInv(Moved(now, c, e))
  {
    if e.VisitOne? {
      VisitKeeps(c, e.f);
    } else if e.BeginSlow? {
      SlowBeginKeeps(now, c, e.f);
    } else if e.ReadClock? {
      BeginRoundKeeps(now, c, e.f);
    } else if e.TryAgain? {
      AttemptKeeps(c, e.f);
    } else if e.PassDeadline? {
      ExpireKeeps(now, c, e.f);
    } else {
      ConsumeKeeps(c);
    }
  }

  lemma ConsumeKeeps(c: Client)
    requires ClientInv(c)
    ensures ClientInv(Consume(c))
  {
    RelabelKeeps(c, Consume(c));
  }

  lemma MovedKeepsRole(now: int, c: Client, e: Event)
    ensures SameRole(c, Moved(now, c, e))
  {
    match e
    case VisitOne(_, f) => RoleInLoop(now, c, f);
    case BeginSlow(_, f) => RoleInLoop(now, c, f);
    case ReadClock(_, f) => RoleInRetry(now, c, f);
    case TryAgain(_, f) => RoleInRetry(now, c, f);
    case PassDeadline(_, f) => RoleInRetry(now, c, f);
    case _ => RoleInLoop(now, c, Welcome);
  }

  /** Register's sections. */
  lemma RegisterEvent(s: State, e: Event, i: nat)
    requires Inv(s) && i < |s.clients|
    requires e.Join? || e.SendWelcome? || e.TakeSnapshot? || e.SendHistory? || e.Announce?
    requires e.c == i
    ensures Inv(NextOf(s, e, i))
  {
    if e.Join? {
      JoinStep(s, i);
    } else if e.SendWelcome? {
      WelcomeStep(s, i);
    } else if e.TakeSnapshot? {
      if s.clients[i].stage.Welcomed? {
        SnapshotStep(s, i, e.wait);
      }
    } else if e.SendHistory? {
      SendHistoryStep(s, i);
    } else {
      AnnounceStep(s, i);
    }
  }

  lemma ClientEvent(s: State, e: Event, i: nat)
    requires Inv(s) && i < |s.clients| && OfClient(e) && e.c == i
    ensures Inv(NextOf(s, e, i))
  {
    if e.Receive? {
      ReceiveStep(s, i, e.asked);
    } else if e.Disconnect? {
      DisconnectStep(s, i, e.f);
    } else if e.Leave? {
      LeaveStep(s, i);
    } else if MovesFrame(e) {
      FrameEvent(s, e, i);
    } else {
      RegisterEvent(s, e, i);
    }
  }

  lemma NextKeepsInv(s: State, e: Event)
    requires Inv(s)
    ensures Inv(Next(s, e))
  {
    if OfClient(e) {
      if e.c < |s.clients| {
        ClientEvent(s, e, e.c);
      }
    } else {
      HubEvent(s, e);
    }
  }

  /** The event concerns one client. */
  predicate OfClient(e: Event) {
    !e.Tick? && !e.Connect? && !e.AddToHistory? && !e.DeliverChat? && !e.ComputePresence? && !e.DeliverPresence?
  }

  lemma AddEvent(s: State, n: nat)
    requires Inv(s)
    ensures Inv(Next(s, AddToHistory(n)))
  {
    if n in s.composing && NoReaders(s) {
      AddStep(s, n);
      assert Next(s, AddToHistory(n)) == DoAddToHistory(s, n);
    } else {
      assert Next(s, AddToHistory(n)) == s;
    }
  }

  lemma HubEvent(s: State, e: Event)
    requires Inv(s) && !OfClient(e)
    ensures Inv(Next(s, e))
  {
    if e.Tick? {
      TickStep(s, e.elapsed);
    } else if e.Connect? {
      ConnectStep(s, e.device);
    } else if e.AddToHistory? {
      AddEvent(s, e.serial);
    } else {
      DeliveryEvent(s, e);
    }
  }

  lemma DeliveryEvent(s: State, e: Event)
    requires Inv(s) && (e.DeliverChat? || e.ComputePresence? || e.DeliverPresence?)
    ensures Inv(Next(s, e))
  {
    if e.ComputePresence? {
      ComputePresenceStep(s);
    } else if e.DeliverChat? {
      if e.serial in s.undelivered {
        DeliverChatStep(s, e.serial);
      }
    } else if e.number in s.waiting {
      DeliverPresenceStep(s, e.number);
    }
  }

  lemma {:induction false} ExecKeepsInv(s: State, es: seq<Event>)
    requires Inv(s)
    ensures Inv(Exec(s, es))
    decreases |es|
  {
    if es != [] {
      NextKeepsInv(s, es[0]);
      ExecKeepsInv(Next(s, es[0]), es[1..]);
    }
  }
}

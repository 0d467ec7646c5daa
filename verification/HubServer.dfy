/**
 The hub's own objects.  Every method is one critical section (or a few that nothing interleaves with) and moves
 the ghost model by exactly the events of HubModel, so whatever holds for every run holds for every valid hub.
 */
module HubServer {
  import opened Prelude
  import opened HubModel
  import M = HubModel
  import opened HubHistory
  import HubTheorems

  class Client {
    ghost const id: nat              // its place in the model
    const device: DeviceId
    var queue: seq<Frame>            // the send channel
    var closed: bool

    constructor (ghost id: nat, device: DeviceId)
      ensures this.id == id && this.device == device && queue == [] && !closed
    {
      this.id, this.device := id, device;
      queue, closed := [], false;
    }

    ghost predicate Shows(v: M.Client, registered: bool)
      reads this
    {
      && v.device == device && v.registered == registered && v.closed == closed
      && (registered ==> !closed)
      && v.taken <= |v.stream| && queue == v.stream[v.taken..]
    }
  }

  class Hub {
    const ttl: nat
    var clients: set<Client>
    const history: MessageLog
    var messages: nat                // numbers the frames of chat messages
    var presences: nat               // numbers presence frames
    ghost const began: int
    ghost var all: seq<Client>       // every client object there has been
    ghost var s: State
    ghost var log: seq<Event>

    ghost predicate Linked()
      reads this, all, history, history.buf
    {
      && history.Valid() && history.Contents() == s.history
      && messages == |s.made| && presences == |s.lists| && ttl == s.ttl
      && |all| == |s.clients|
      && (forall i :: 0 <= i < |all| ==> all[i].id == i && all[i].Shows(s.clients[i], all[i] in clients))
      && (forall c :: c in clients ==> Known(c))
      && s == Exec(Empty(began, ttl), log)
    }

    ghost predicate Known(c: Client)
      reads this
    {
      c.id < |all| && all[c.id] == c
    }

    /** Between critical sections no deliver loop is under way. */
    ghost predicate Valid()
      reads this, all, history, history.buf
    {
      Linked() && NoReaders(s)
    }

    constructor (ttl: nat, blank: Msg, ghost now: int)
      ensures Valid() && clients == {} && fresh(history) && fresh(history.buf)
      ensures began == now && this.ttl == ttl && s == Empty(now, ttl)
    {
      this.ttl, began, clients, messages, presences := ttl, now, {}, 0, 0;
      history := new MessageLog(blank);
      all, s, log := [], Empty(now, ttl), [];
    }

    /** What holds for every run holds here: a channel is closed exactly when its client has been registered and
        removed, and it never holds more than its buffer. */
    lemma QueuesAreSafe(c: Client)
      requires Valid() && Known(c)
      ensures c.closed <==> !s.clients[c.id].stage.New? && c !in clients
      ensures !s.clients[c.id].panicked && |c.queue| <= BUFFER
    {
      HubTheorems.ChannelSafety(began, ttl, log, c.id);
    }

    /** Before it has joined, nothing is sent to a client. */
    lemma NothingQueued(c: Client)
      requires Valid() && Known(c) && s.clients[c.id].stage.New?
      ensures c.queue == [] && c !in clients
    {
      HubTheorems.NewcomersWait(began, ttl, log, c.id);
    }

    ghost method Step(e: Event)
      requires s == Exec(Empty(began, ttl), log)
      modifies this`s, this`log
      ensures s == Next(old(s), e) && log == old(log) + [e] && s == Exec(Empty(began, ttl), log)
    {
      ExecSnoc(Empty(began, ttl), log, e);
      s, log := Next(s, e), log + [e];
    }

    method NewClient(device: DeviceId) returns (c: Client)
      requires Valid()
      modifies this
      ensures Valid() && fresh(c) && all == old(all) + [c] && c.device == device
      ensures clients == old(clients) && s == Next(old(s), Connect(device))
    {
      c := new Client(|all|, device);
      Step(Connect(device));
      all := all + [c];
    }

    /** The first section of Register. */
    method Join(c: Client)
      requires Valid() && Known(c) && s.clients[c.id].stage.New?
      modifies this`s, this`log, this`clients
      ensures Valid() && clients == old(clients) + {c}
      ensures s == Next(old(s), M.Join(c.id))
    {
      var i := c.id;
      QueuesAreSafe(c);
      Step(M.Join(i));
      assert s == With(old(s), i, old(s).clients[i].(stage := Added, registered := true));
      clients := clients + {c};
    }

    /** enqueueJSON. */
    method EnqueueJSON(c: Client, f: Frame)
      modifies c
      ensures c.queue == old(c.queue) + if c in clients && |old(c.queue)| < 256 then [f] else []
      ensures c.closed == old(c.closed)
    {
      if c !in clients {
        return;
      }
      if |c.queue| < BUFFER {
        c.queue := c.queue + [f];
      }
    }

    method SendWelcome(c: Client)
      requires Valid() && Known(c) && s.clients[c.id].stage.Added?
      modifies this`s, this`log, c
      ensures Valid() && s == Next(old(s), M.SendWelcome(c.id)) && s.now == old(s).now
      ensures s.clients[c.id].stage.Welcomed?
      ensures c.queue == old(c.queue) + if c in clients && |old(c.queue)| < 256 then [Welcome] else []
    {
      Step(M.SendWelcome(c.id));
      EnqueueJSON(c, Welcome);
    }

    /** sendHistory, which reads the clock before it waits for the lock: the snapshot under the read lock, then its frame. */
    method SendHistory(c: Client, now: int) returns (msgs: seq<Msg>)
      requires Valid() && Known(c) && s.clients[c.id].stage.Welcomed? && now <= s.now
      modifies this`s, this`log, c
      ensures Valid() && s.clients[c.id].stage.Sent?
      ensures s == Next(Next(old(s), TakeSnapshot(c.id, old(s).now - now)), M.SendHistory(c.id))
      ensures msgs == Visible(Fresh(history.Contents(), Seconds(now - ttl)), c.device)
      ensures c.queue == old(c.queue) + if msgs != [] && c in clients && |old(c.queue)| < 256 then [History] else []
    {
      msgs := Snapshot(c, now);
      EnqueueHistory(c, msgs);
    }

    method EnqueueHistory(c: Client, msgs: seq<Msg>)
      requires Valid() && Known(c) && s.clients[c.id].stage.Snapped?
      requires s.clients[c.id].snap.Some? && s.clients[c.id].snap.value.msgs == msgs
      modifies this`s, this`log, c
      ensures Valid() && s == Next(old(s), M.SendHistory(c.id)) && s.clients[c.id].stage.Sent?
      ensures c.queue == old(c.queue) + if msgs != [] && c in clients && |old(c.queue)| < 256 then [History] else []
    {
      ghost var v := s.clients[c.id];
      Step(M.SendHistory(c.id));
      assert s == With(old(s), c.id, (if msgs != [] then Enqueue(v, History) else v).(stage := Sent));
      if |msgs| == 0 {
        return;
      }
      EnqueueJSON(c, History);
    }

    method Snapshot(c: Client, now: int) returns (msgs: seq<Msg>)
      requires Valid() && Known(c) && s.clients[c.id].stage.Welcomed? && now <= s.now
      modifies this`s, this`log
      ensures Valid() && s == Next(old(s), TakeSnapshot(c.id, old(s).now - now))
      ensures msgs == Visible(Fresh(history.Contents(), Seconds(now - ttl)), c.device)
      ensures s.clients[c.id].stage.Snapped? && s.clients[c.id].snap.Some? && s.clients[c.id].snap.value.msgs == msgs
    {
      msgs := history.Collect(Seconds(now - ttl), c.device);
      Step(TakeSnapshot(c.id, s.now - now));
      assert s == DoTakeSnapshot(old(s), c.id, old(s).now - now);
    }

    /** Unregister, its first section: the client is deleted and its channel closed, at most once.  `why` is the
        frame a deliverSlow has given up on, None when ReadPump ends. */
    method Remove(c: Client, ghost why: Option<Frame>) returns (was: bool)
      requires Valid() && Known(c)
      requires why.Some? ==> why.value in s.clients[c.id].slow && s.clients[c.id].slow[why.value].GivingUp?
      modifies this`s, this`log, this`clients, c
      ensures Valid() && clients == old(clients) - {c}
      ensures s == Next(old(s), if why.None? then Leave(c.id) else Disconnect(c.id, why.value))
      ensures was == (c in old(clients)) && (was ==> s.due > 0)
      ensures c.queue == old(c.queue) && c.closed == (was || old(c.closed))
    {
      RemovedIs(s, c.id, why);
      Step(if why.None? then Leave(c.id) else Disconnect(c.id, why.value));
      was := c in clients;
      if was {
        clients := clients - {c};
        c.closed := true;
      }
    }

    method Unregister(c: Client, ghost why: Option<Frame>) returns (spawned: set<Client>)
      requires Valid() && Known(c)
      requires why.Some? ==> why.value in s.clients[c.id].slow && s.clients[c.id].slow[why.value].GivingUp?
      modifies this`s, this`log, this`clients, this`presences, c, clients
      ensures Valid() && clients == old(clients) - {c}
      ensures
        var t := Next(old(s), if why.None? then Leave(c.id) else Disconnect(c.id, why.value));
        if c in old(clients) then PresenceSent(t, s, spawned) else s == t && spawned == {}
      ensures c.queue == old(c.queue) && c.closed == (c in old(clients) || old(c.closed))
      ensures forall d :: d in clients ==>
                d.queue == old(d.queue) + if c in old(clients) && |old(d.queue)| < 256 then [Presence(old(presences))] else []
    {
      var was := Remove(c, why);
      if !was {
        return {};
      }
      spawned := BroadcastPresence();
    }

    /** Register, when nothing interleaves with it. */
    method Register(c: Client, now: int) returns (spawned: set<Client>)
      requires Valid() && Known(c) && s.clients[c.id].stage.New? && now <= s.now
      modifies this`s, this`log, this`clients, this`presences, c, clients
      ensures Valid() && clients == old(clients) + {c}
      ensures
        PresenceSent(Next(Greeted(Next(old(s), M.Join(c.id)), c.id, now), M.Announce(c.id)), s, spawned)
      ensures
        var msgs := Visible(Fresh(old(history.Contents()), Seconds(now - ttl)), c.device);
        c.queue == [Welcome] + (if msgs != [] then [History] else []) + [Presence(old(presences))]
      ensures forall d :: d in clients && d != c ==>
                d.queue == old(d.queue) + if |old(d.queue)| < 256 then [Presence(old(presences))] else []
    {
      hide Greeted, PresenceSent, Exec, NoReaders;
      NothingQueued(c);
      Join(c);
      Greet(c, now);
      Announce(c);
      spawned := BroadcastPresence();
    }

    method Greet(c: Client, now: int)
      requires Valid() && Known(c) && s.clients[c.id].stage.Added? && now <= s.now
      modifies this`s, this`log, c
      ensures Valid() && s.clients[c.id].stage.Sent?
      ensures s == Greeted(old(s), c.id, now)
      ensures
        var msgs := Visible(Fresh(history.Contents(), Seconds(now - ttl)), c.device);
        old(c.queue) == [] && c in clients ==> c.queue == [Welcome] + if msgs != [] then [History] else []
    {
      hide Exec, NoReaders;
      SendWelcome(c);
      var msgs := SendHistory(c, now);
    }

    ghost method Announce(c: Client)
      requires Valid() && Known(c) && s.clients[c.id].stage.Sent?
      modifies this`s, this`log
      ensures Valid() && s == Next(old(s), M.Announce(c.id)) && s.due > 0
    {
      Step(M.Announce(c.id));
      assert s == With(old(s), c.id, old(s).clients[c.id].(stage := Announced)).(due := old(s).due + 1);
    }

    /** ReadPump's part of SendMessage: a directed message without a valid recipient is dropped. */
    method Compose(c: Client, raw: seq<Option<DeviceId>>, now: int) returns (msg: Option<Msg>)
      requires Valid() && Known(c) && !s.clients[c.id].stage.New? && now == s.now
      modifies this`s, this`log, this`messages
      ensures Valid() && s == Next(old(s), Receive(c.id, raw))
      ensures msg.None? <==> raw != [] && Recipients(raw, c.device) == []
      ensures msg.Some? ==> Composed(msg.value) && msg.value.to == Recipients(raw, c.device) && msg.value.from == c.device
      ensures msg.Some? ==> msg.value.serial == old(messages) && msg.value.stamp == Seconds(now)
    {
      var to, ok := SanitizeRecipients(raw, c.device);
      Step(Receive(c.id, raw));
      assert s == DoReceive(old(s), c.id, raw);
      if !ok {
        return None;
      }
      msg := Some(Msg(messages, c.device, to, Seconds(now), now, raw));
      messages := messages + 1;
    }

    ghost predicate Composed(msg: Msg)
      reads this
    {
      msg.serial < |s.made| && s.made[msg.serial] == msg && msg.serial in s.composing
    }

    /** addToHistory under the write lock. */
    method AddMessage(msg: Msg, now: int)
      requires Valid() && Composed(msg) && now == s.now
      modifies this`s, this`log, history, history.buf
      ensures Valid() && s == Next(old(s), AddToHistory(msg.serial))
      ensures s == DoAddToHistory(old(s), msg.serial)
      ensures history.buf == old(history.buf) || fresh(history.buf)
    {
      history.Add(Seconds(now - ttl), msg);
      Step(AddToHistory(msg.serial));
    }

    /** One message of a client, when nothing interleaves with it. */
    method HandleMessage(c: Client, raw: seq<Option<DeviceId>>, now: int) returns (msg: Option<Msg>, spawned: set<Client>)
      requires Valid() && Known(c) && !s.clients[c.id].stage.New? && now == s.now
      modifies this`s, this`log, this`messages, history, history.buf, clients
      ensures Valid() && clients == old(clients)
      ensures msg.None? <==> raw != [] && Recipients(raw, c.device) == []
      ensures msg.None? ==> s == Next(old(s), Receive(c.id, raw)) && spawned == {}
      ensures msg.Some? ==> Published(Next(old(s), Receive(c.id, raw)), s, msg.value, spawned)
      ensures msg.Some? ==> history.Contents() == Fresh(old(history.Contents()), Seconds(now - ttl)) + [msg.value]
      ensures msg.Some? ==> msg.value.to == Recipients(raw, c.device) && msg.value.from == c.device
      ensures msg.Some? ==> msg.value.serial == old(messages) && msg.value.stamp == Seconds(now)
      ensures msg.None? ==> forall d :: d in clients ==> d.queue == old(d.queue)
      ensures msg.Some? ==>
                && (forall d :: d in clients ==>
                      d.queue == old(d.queue) + if MayReach(msg.value, d) && |old(d.queue)| < 256
                                                then [Chat(msg.value.serial)] else [])
                && spawned <= clients && forall d :: d in clients ==> (d in spawned <==> MayReach(msg.value, d) && |old(d.queue)| >= 256)
    {
      msg := Compose(c, raw, now);
      spawned := {};
      if msg.Some? {
        spawned := Publish(msg.value, now);
      }
    }

    method Publish(msg: Msg, now: int) returns (spawned: set<Client>)
      requires Valid() && Composed(msg) && now == s.now
      modifies this`s, this`log, history, history.buf, clients
      ensures Valid() && history.Contents() == Fresh(old(history.Contents()), Seconds(now - ttl)) + [msg]
      ensures Published(old(s), s, msg, spawned)
      ensures forall d :: d in clients ==>
                d.queue == old(d.queue) + if MayReach(msg, d) && |old(d.queue)| < 256 then [Chat(msg.serial)] else []
      ensures spawned <= clients && forall d :: d in clients ==> (d in spawned <==> MayReach(msg, d) && |old(d.queue)| >= 256)
    {
      AddMessage(msg, now);
      spawned := DeliverMessage(msg);
    }

    /** The head of deliverSlow's loop: is the deadline still ahead? */
    method BeforeDeadline(c: Client, f: Frame, deadline: int, now: int) returns (goOn: bool)
      requires Valid() && Known(c) && LooksAtClock(s.now, s.clients[c.id], f) && now == s.now
      requires s.clients[c.id].slow[f].deadline == deadline
      modifies this`s, this`log
      ensures Valid() && s == Next(old(s), ReadClock(c.id, f))
      ensures goOn ==> s.clients[c.id].slow == old(s).clients[c.id].slow[f := old(s).clients[c.id].slow[f].(checked := true)]
      ensures !goOn ==> s == old(s) && deadline <= now
    {
      ghost var v := s.clients[c.id];
      Step(ReadClock(c.id, f));
      assert s == With(old(s), c.id, BeginRound(now, v, f));
      goOn := now < deadline;
    }

    /** One round of deliverSlow, once it has the lock. */
    method TrySlow(c: Client, f: Frame) returns (done: bool)
      requires Valid() && Known(c) && f in s.clients[c.id].slow
      requires s.clients[c.id].slow[f].Retrying? && s.clients[c.id].slow[f].checked
      modifies this`s, this`log, c
      ensures Valid() && s == Next(old(s), TryAgain(c.id, f))
      ensures done == (f !in s.clients[c.id].slow) && done == (c !in clients || |old(c.queue)| < 256)
      ensures c.queue == old(c.queue) + if c in clients && |old(c.queue)| < 256 then [f] else []
    {
      ghost var v := s.clients[c.id];
      Step(TryAgain(c.id, f));
      assert s == With(old(s), c.id, Attempt(v, f));
      AttemptIs(v, f);
      if c !in clients {
        return true;
      }
      done := |c.queue| < BUFFER;
      if done {
        c.queue := c.queue + [f];
      }
    }

    /** deliverSlow after its loop: is the client still there? */
    method StillThere(c: Client, f: Frame, now: int) returns (still: bool)
      requires Valid() && Known(c) && LooksAtClock(s.now, s.clients[c.id], f) && now == s.now
      requires s.clients[c.id].slow[f].deadline <= now
      modifies this`s, this`log
      ensures Valid() && s == Next(old(s), PassDeadline(c.id, f))
      ensures still == (c in clients)
      ensures still ==> f in s.clients[c.id].slow && s.clients[c.id].slow[f].GivingUp?
    {
      ghost var v := s.clients[c.id];
      Step(PassDeadline(c.id, f));
      assert s == With(old(s), c.id, Expire(now, v, f));
      still := c in clients;
    }

    /** From t to u: e, and then the deliver loop has visited every client. */
    ghost predicate Delivered(t: State, e: Event, u: State, f: Frame, m: Option<Msg>, spawned: set<Client>)
      reads this
    {
      u == Next(t, e).(clients := u.clients) && Came(all, OfferAll(t.clients, f, m), u.clients, {}, spawned, f)
    }

    /** From t to u: a list of the devices, and one presence frame with it to everybody. */
    ghost predicate PresenceSent(t: State, u: State, spawned: set<Client>)
      reads this
    {
      var k := |t.lists|;
      Delivered(Next(t, M.ComputePresence), DeliverPresence(k), u, Presence(k), None, spawned)
    }

    /** From t to u: the message joins the history and goes to everybody who may see it. */
    ghost predicate Published(t: State, u: State, msg: Msg, spawned: set<Client>)
      reads this
    {
      Delivered(Next(t, AddToHistory(msg.serial)), DeliverChat(msg.serial), u, Chat(msg.serial), Some(msg), spawned)
    }

    /** The body of the deliver loop: unless filtered out, send or leave it to a deliverSlow. */
    method VisitClient(c: Client, f: Frame, m: Option<Msg>) returns (full: bool)
      requires Linked() && c in clients && s.clients[c.id].toVisit == if Wanted(c, m) then {f} else {}
      modifies this`s, this`log, c
      ensures Linked() && s == With(old(s), c.id, Visit(old(s).clients[c.id], f))
      ensures full == Overflows(old(s).clients[c.id], f)
      ensures c.queue == old(c.queue) + if Wanted(c, m) && |old(c.queue)| < 256 then [f] else []
      ensures full == (Wanted(c, m) && |old(c.queue)| >= 256)
    {
      hide Exec;
      if !Wanted(c, m) {
        assert s == With(s, c.id, s.clients[c.id]);
        return false;
      }
      Step(VisitOne(c.id, f));
      assert s == With(old(s), c.id, Visit(old(s).clients[c.id], f));
      full := |c.queue| >= BUFFER;
      if !full {
        c.queue := c.queue + [f];
      }
    }

    /** The deliver loop, half way: what is left to visit and for whom it has started a deliverSlow. */
    ghost predicate Delivering(start: State, todo: set<Client>, spawned: set<Client>, f: Frame, m: Option<Msg>)
      reads this, all, history, history.buf
    {
      && Linked() && todo <= clients && spawned <= clients && s == start.(clients := s.clients)
      && Ahead(all, s.clients, todo, f, m) && Came(all, start.clients, s.clients, todo, spawned, f)
    }

    method VisitNext(ghost start: State, ghost before: map<Client, seq<Frame>>, todo: set<Client>, spawned: set<Client>,
                     c: Client, f: Frame, m: Option<Msg>)
      returns (more: set<Client>)
      requires Delivering(start, todo + {c}, spawned, f, m) && c !in todo && Brought(before, todo + {c}, spawned, f, m)
      modifies this`s, this`log, c
      ensures Delivering(start, todo, more, f, m) && Brought(before, todo, more, f, m)
    {
      more := VisitThis(start, todo, spawned, c, f, m);
    }

    method VisitThis(ghost start: State, todo: set<Client>, spawned: set<Client>, c: Client, f: Frame, m: Option<Msg>)
      returns (more: set<Client>)
      requires Delivering(start, todo + {c}, spawned, f, m) && c !in todo
      modifies this`s, this`log, c
      ensures Delivering(start, todo, more, f, m)
      ensures c.queue == old(c.queue) + if Wanted(c, m) && |old(c.queue)| < 256 then [f] else []
      ensures more == spawned + if Wanted(c, m) && |old(c.queue)| >= 256 then {c} else {}
    {
      ghost var cs := s.clients;
      var full := VisitClient(c, f, m);
      OneVisited(all, start.clients, cs, todo, spawned, c, f, m);
      more := if full then spawned + {c} else spawned;
    }

    /** The loop has been to every client but those in todo: it has sent, or left the frame to a deliverSlow. */
    ghost predicate Brought(before: map<Client, seq<Frame>>, todo: set<Client>, spawned: set<Client>, f: Frame, m: Option<Msg>)
      reads this, clients
    {
      && before.Keys == clients && spawned <= clients
      && forall d :: d in clients ==>
           && d.queue == before[d] + (if d !in todo && Wanted(d, m) && |before[d]| < 256 then [f] else [])
           && (d in spawned <==> d !in todo && Wanted(d, m) && |before[d]| >= 256)
    }

    /** The loop of deliver; spawned are the clients it starts a deliverSlow for. */
    method VisitAll(f: Frame, m: Option<Msg>) returns (spawned: set<Client>)
      requires Linked() && Ahead(all, s.clients, clients, f, m)
      modifies this`s, this`log, clients
      ensures Delivering(old(s), {}, spawned, f, m)
      ensures forall d :: d in clients ==>
                d.queue == old(d.queue) + if Wanted(d, m) && |old(d.queue)| < 256 then [f] else []
      ensures spawned <= clients && forall d :: d in clients ==> (d in spawned <==> Wanted(d, m) && |old(d.queue)| >= 256)
    {
      spawned := {};
      var todo := clients;
      ghost var before := map d | d in clients :: d.queue;
      assert Delivering(s, todo, spawned, f, m) && Brought(before, todo, spawned, f, m);
      hide Delivering, Wanted, Linked, Ahead, Exec, NoReaders;
      while todo != {}
        invariant Delivering(old(s), todo, spawned, f, m) && Brought(before, todo, spawned, f, m) && todo <= clients
      {
        var c :| c in todo;
        assert todo == todo - {c} + {c};
        todo := todo - {c};
        spawned := VisitNext(old(s), before, todo, spawned, c, f, m);
      }
    }

    /** deliver for a chat message: to everybody who may see it. */
    method DeliverMessage(msg: Msg) returns (spawned: set<Client>)
      requires Valid() && msg.serial in s.undelivered && msg.serial < |s.made| && s.made[msg.serial] == msg
      modifies this`s, this`log, clients
      ensures Valid()
      ensures Delivered(old(s), DeliverChat(msg.serial), s, Chat(msg.serial), Some(msg), spawned)
      ensures forall d :: d in clients ==>
                d.queue == old(d.queue) + if MayReach(msg, d) && |old(d.queue)| < 256 then [Chat(msg.serial)] else []
      ensures spawned <= clients && forall d :: d in clients ==> (d in spawned <==> MayReach(msg, d) && |old(d.queue)| >= 256)
    {
      Step(DeliverChat(msg.serial));
      OfferedIsAhead(all, old(s).clients, clients, Chat(msg.serial), Some(msg));
      spawned := VisitAll(Chat(msg.serial), Some(msg));
      NobodyAhead(all, s.clients, Chat(msg.serial), Some(msg));
    }

    /** devices: every device online once, however many tabs it has open. */
    method Devices() returns (list: seq<DeviceId>)
      requires Linked()
      ensures forall d :: d in list <==> d in Online(s.clients)
      ensures forall d :: d in list <==> exists c :: c in clients && c.device == d
      ensures forall j, k :: 0 <= j < k < |list| ==> list[j] != list[k]
    {
      list := [];
      var todo, seen: set<DeviceId> := clients, {};
      while todo != {}
        invariant todo <= clients
        invariant forall d :: d in seen <==> d in list
        invariant forall d :: d in list ==> exists c :: c in clients && c.device == d
        invariant forall c :: c in clients - todo ==> c.device in list
        invariant forall j, k :: 0 <= j < k < |list| ==> list[j] != list[k]
      {
        var c :| c in todo;
        todo := todo - {c};
        if c.device in seen {
          continue;
        }
        seen := seen + {c.device};
        list := list + [c.device];
      }
      OnlineAreTheClients();
    }

    lemma OnlineAreTheClients()
      requires Linked()
      ensures forall c :: c in clients ==> c.device in Online(s.clients)
      ensures forall d :: d in Online(s.clients) ==> exists c :: c in clients && c.device == d
    {
      forall c | c in clients
        ensures c.device in Online(s.clients)
      {
        assert Known(c) && s.clients[c.id].registered && s.clients[c.id].device == c.device;
      }
      forall d | d in Online(s.clients)
        ensures exists c :: c in clients && c.device == d
      {
        var i :| 0 <= i < |s.clients| && s.clients[i].registered && s.clients[i].device == d;
        assert all[i] in clients && all[i].device == d;
      }
    }

    /** broadcastPresence, its first section. */
    method ComputePresence() returns (number: nat, list: seq<DeviceId>)
      requires Valid() && s.due > 0
      modifies this`s, this`log, this`presences
      ensures Valid() && s == Next(old(s), M.ComputePresence)
      ensures number == |old(s).lists| == old(presences) && number in s.waiting
      ensures forall d :: d in list <==> d in s.lists[number]
    {
      list := Devices();
      number := presences;
      Step(M.ComputePresence);
      presences := presences + 1;
    }

    /** broadcastPresence, its second section. */
    method DeliverList(number: nat) returns (spawned: set<Client>)
      requires Valid() && number in s.waiting
      modifies this`s, this`log, clients
      ensures Valid()
      ensures Delivered(old(s), DeliverPresence(number), s, Presence(number), None, spawned)
      ensures forall d :: d in clients ==> d.queue == old(d.queue) + if |old(d.queue)| < 256 then [Presence(number)] else []
      ensures spawned <= clients && forall d :: d in clients ==> (d in spawned <==> |old(d.queue)| >= 256)
    {
      var f := Presence(number);
      Step(DeliverPresence(number));
      OfferedIsAhead(all, old(s).clients, clients, f, None);
      spawned := VisitAll(f, None);
      NobodyAhead(all, s.clients, f, None);
    }

    /** broadcastPresence, when nothing comes between its sections. */
    method BroadcastPresence() returns (spawned: set<Client>)
      requires Valid() && s.due > 0
      modifies this`s, this`log, this`presences, clients
      ensures Valid()
      ensures PresenceSent(old(s), s, spawned)
      ensures forall d :: d in clients ==> d.queue == old(d.queue) + if |old(d.queue)| < 256 then [Presence(old(presences))] else []
      ensures spawned <= clients && forall d :: d in clients ==> (d in spawned <==> |old(d.queue)| >= 256)
    {
      var number, list := ComputePresence();
      spawned := DeliverList(number);
    }

    /** The write pump receives a frame. */
    method Take(c: Client) returns (f: Option<Frame>)
      requires Valid() && Known(c)
      modifies this`s, this`log, c
      ensures Valid() && s == Next(old(s), M.Take(c.id))
      ensures f == if old(c.queue) == [] then None else Some(old(c.queue)[0])
      ensures c.queue == if f.None? then [] else old(c.queue)[1..]
    {
      Step(M.Take(c.id));
      if |c.queue| == 0 {
        return None;
      }
      f := Some(c.queue[0]);
      c.queue := c.queue[1..];
    }
  }

  /** A message for everybody, from this device, or one that names it. */
  predicate MayReach(m: Msg, c: Client) {
    m.to == [] || m.from == c.device || c.device in m.to
  }

  /** The frame finds the queue full. */
  predicate Overflows(v: M.Client, f: Frame) {
    f in v.toVisit && QueueLength(v) >= BUFFER
  }

  /** Welcome and history, when nothing interleaves; the clock for the cutoff was read at `now`. */
  function Greeted(s: State, i: nat, now: int): State
  {
    var t := Next(s, M.SendWelcome(i));
    Next(Next(t, TakeSnapshot(i, if now <= t.now then t.now - now else 0)), M.SendHistory(i))
  }

  /** A round sends, gives up on a client that is gone, or counts. */
  lemma AttemptIs(v: M.Client, f: Frame)
    requires f in v.slow && v.slow[f].Retrying? && v.slow[f].checked
    ensures
      var d := Attempt(v, f);
      && (f in d.slow <==> v.registered && QueueLength(v) >= BUFFER)
      && d.stream == v.stream + (if v.registered && QueueLength(v) < BUFFER && !v.closed then [f] else [])
      && d.device == v.device && d.registered == v.registered && d.closed == v.closed && d.taken == v.taken
      && d.toVisit == v.toVisit
  {
  }

  /** What leaving is to the model, whoever calls Unregister. */
  function Removed(v: M.Client, why: Option<Frame>): M.Client {
    if why.None? then M.Unregister(v) else GiveUp(v, why.value)
  }

  lemma RemovedIs(s: State, i: nat, why: Option<Frame>)
    requires i < |s.clients| && NoReaders(s)
    requires why.Some? ==> why.value in s.clients[i].slow && s.clients[i].slow[why.value].GivingUp?
    ensures Next(s, if why.None? then Leave(i) else Disconnect(i, why.value)) ==
            With(s, i, Removed(s.clients[i], why)).(due := s.due + if s.clients[i].registered then 1 else 0)
  {
  }

  /** What deliver wants to reach: everybody, or those who may see the message. */
  predicate Wanted(c: Client, m: Option<Msg>) {
    m.None? || VisibleTo(m.value, c.device)
  }

  /** The deliver loop has yet to come to the clients in todo that the filter accepts. */
  ghost predicate Ahead(all: seq<Client>, cs: seq<M.Client>, todo: set<Client>, f: Frame, m: Option<Msg>) {
    && |all| == |cs|
    && forall i :: 0 <= i < |all| ==> cs[i].toVisit == if all[i] in todo && Wanted(all[i], m) then {f} else {}
  }

  /** The loop has come to every client but those in todo; for spawned it has started a deliverSlow. */
  ghost predicate Came(all: seq<Client>, before: seq<M.Client>, after: seq<M.Client>, todo: set<Client>,
                       spawned: set<Client>, f: Frame)
  {
    && |after| == |before| == |all|
    && forall i :: 0 <= i < |after| ==>
         && after[i] == (if all[i] in todo then before[i] else Visit(before[i], f))
         && (all[i] in spawned <==> all[i] !in todo && Overflows(before[i], f))
  }

  /** Offering a frame puts every registered client the filter accepts ahead of the loop. */
  lemma OfferedIsAhead(all: seq<Client>, cs: seq<M.Client>, clients: set<Client>, f: Frame, m: Option<Msg>)
    requires |all| == |cs|
    requires forall i :: 0 <= i < |all| ==>
               cs[i].toVisit == {} && cs[i].device == all[i].device && cs[i].registered == (all[i] in clients)
    ensures Ahead(all, OfferAll(cs, f, m), clients, f, m)
  {
  }

  lemma NobodyAhead(all: seq<Client>, cs: seq<M.Client>, f: Frame, m: Option<Msg>)
    requires Ahead(all, cs, {}, f, m)
    ensures forall i :: 0 <= i < |cs| ==> cs[i].toVisit == {}
  {
  }

  lemma OneVisited(all: seq<Client>, start: seq<M.Client>, cs: seq<M.Client>, todo: set<Client>, spawned: set<Client>,
                   c: Client, f: Frame, m: Option<Msg>)
    requires Ahead(all, cs, todo + {c}, f, m) && Came(all, start, cs, todo + {c}, spawned, f) && c !in todo
    requires c.id < |all| && all[c.id] == c && forall i :: 0 <= i < |all| ==> all[i].id == i
    ensures
      var after := cs[c.id := Visit(cs[c.id], f)];
      && Ahead(all, after, todo, f, m)
      && Came(all, start, after, todo, if Overflows(cs[c.id], f) then spawned + {c} else spawned, f)
  {
  }
}

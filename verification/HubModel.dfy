/**
 The message hub as a state machine whose steps are the critical sections of its goroutines.

 Sections under the read lock may interleave with one another and with the write pumps; sections under the
 write lock exclude deliver loops under way.  `Next` is total: an event that cannot happen now changes
 nothing, so every list of events is a run.
 */
module HubModel {
  import opened Prelude

  type DeviceId = string

  /** sendBuffer. */
  const BUFFER: nat := 256
  /** slowClientRetryWindow and slowClientRetryDelay, in milliseconds. */
  const RETRY_WINDOW: nat := 3000
  const RETRY_DELAY: nat := 150
  /** MaxRecipients. */
  const MAX_RECIPIENTS: nat := 16

  // ---- messages -------------------------------------------------------------------------------------

  /** A chat message; `to` empty means everybody. */
  datatype Msg = Msg(
    serial: nat,                      // history: which SendMessage call made it
    from: DeviceId,
    to: seq<DeviceId>,
    stamp: int,                       // Unix seconds
    sentAt: int,                      // history: the clock, in milliseconds, when the stamp was taken
    asked: seq<Option<DeviceId>>)     // history: the incoming `to` list; None where uuid.Parse fails

  predicate VisibleTo(m: Msg, device: DeviceId) {
    m.to == [] || m.from == device || device in m.to
  }

  /** Time.Unix(): whole seconds, rounded down. */
  function Seconds(ms: int): int {
    ms / 1000
  }

  /** The messages of a list that are not older than the cutoff, in order. */
  function Fresh(ms: seq<Msg>, cutoff: int): seq<Msg> {
    if ms == [] then []
    else Fresh(ms[..|ms| - 1], cutoff) + (if ms[|ms| - 1].stamp >= cutoff then [ms[|ms| - 1]] else [])
  }

  /** The messages of a list that a device may see, in order. */
  function Visible(ms: seq<Msg>, device: DeviceId): seq<Msg> {
    if ms == [] then []
    else Visible(ms[..|ms| - 1], device) + (if VisibleTo(ms[|ms| - 1], device) then [ms[|ms| - 1]] else [])
  }

  /** sanitizeRecipients on the ids before k: distinct, valid, not the sender itself, at most 16. */
  function Recipients(raw: seq<Option<DeviceId>>, self: DeviceId): seq<DeviceId> {
    if raw == [] then []
    else
      var out := Recipients(raw[..|raw| - 1], self);
      var last := raw[|raw| - 1];
      if |out| < MAX_RECIPIENTS && last.Some? && last.value != self && last.value !in out then out + [last.value] else out
  }

  // ---- clients --------------------------------------------------------------------------------------

  datatype Frame = Chat(serial: nat) | Presence(number: nat) | Welcome | History

  /** A deliverSlow goroutine. */
  datatype Slow =
    | Spawned
    | Retrying(deadline: int, attempts: nat, checked: bool)  // checked: waits for the lock, having looked at the clock
    | GivingUp                        // it saw the client registered after its deadline; Unregister is next

  /** How far Register has come. */
  datatype Stage = New | Added | Welcomed | Snapped | Sent | Announced

  /** What sendHistory collected when the log had `at` messages; no visible message stamped `since` or later is missing. */
  datatype Snapshot = Snapshot(at: nat, since: int, msgs: seq<Msg>)

  datatype Client = Client(
    device: DeviceId,
    stage: Stage,
    registered: bool,                 // h.clients[c]
    closed: bool,                     // the channel
    panicked: bool,                   // history: a send on the closed channel, or a second close
    stream: seq<Frame>,               // history: every frame ever sent on the channel
    taken: nat,                       // how many of them the write pump has received
    toVisit: set<Frame>,              // deliver loops under way that have yet to come to this client
    slow: map<Frame, Slow>,
    offered: set<Frame>,              // history: frames handed to deliver whose filter accepted this client
    abandoned: set<Frame>,            // history: frames a deliverSlow dropped
    snap: Option<Snapshot>)

  function QueueLength(c: Client): int {
    |c.stream| - c.taken
  }

  function NewClient(device: DeviceId): Client {
    Client(device, New, false, false, false, [], 0, {}, map[], {}, {}, None)
  }

  /** `c.send <- f`. */
  function Send(c: Client, f: Frame): Client {
    if c.closed then c.(panicked := true) else c.(stream := c.stream + [f])
  }

  /** enqueueJSON: only while registered, and dropped when the queue is full. */
  function Enqueue(c: Client, f: Frame): Client {
    if c.registered && QueueLength(c) < BUFFER then Send(c, f) else c
  }

  function Unregister(c: Client): Client {
    if c.registered then c.(registered := false, closed := true, panicked := c.panicked || c.closed) else c
  }

  /** A deliver loop begins: the client is among those it will visit. */
  function Offer(c: Client, f: Frame, wanted: bool): Client {
    if c.registered && wanted then c.(toVisit := c.toVisit + {f}, offered := c.offered + {f}) else c
  }

  /** The body of the deliver loop for this client. */
  function Visit(c: Client, f: Frame): Client {
    if f !in c.toVisit then c
    else
      var c1 := c.(toVisit := c.toVisit - {f});
      if QueueLength(c) < BUFFER then Send(c1, f) else c1.(slow := c1.slow[f := Spawned])
  }

  function Abandon(c: Client, f: Frame): Client {
    c.(slow := c.slow - {f}, abandoned := c.abandoned + {f})
  }

  function SlowBegin(now: int, c: Client, f: Frame): Client {
    if f in c.slow && c.slow[f].Spawned? then c.(slow := c.slow[f := Retrying(now + RETRY_WINDOW, 0, false)]) else c
  }

  /** When it has slept after its last round. */
  function WakesAt(t: Slow): int
    requires t.Retrying?
  {
    t.deadline - RETRY_WINDOW + RETRY_DELAY * t.attempts
  }

  /** It is awake and looks at the clock, at the head of the retry loop. */
  predicate LooksAtClock(now: int, c: Client, f: Frame) {
    f in c.slow && c.slow[f].Retrying? && !c.slow[f].checked && WakesAt(c.slow[f]) <= now
  }

  /** The deadline has not passed: another round begins, with a wait for the lock. */
  function BeginRound(now: int, c: Client, f: Frame): Client {
    if LooksAtClock(now, c, f) && now < c.slow[f].deadline then c.(slow := c.slow[f := c.slow[f].(checked := true)]) else c
  }

  /** The round, once it has the lock, which may be after the deadline. */
  function Attempt(c: Client, f: Frame): Client {
    if f !in c.slow || !c.slow[f].Retrying? || !c.slow[f].checked then c
    else if !c.registered then Abandon(c, f)
    else if QueueLength(c) < BUFFER then Send(c.(slow := c.slow - {f}), f)
    else c.(slow := c.slow[f := Retrying(c.slow[f].deadline, c.slow[f].attempts + 1, false)])
  }

  /** The deadline has passed: look whether the client is still there. */
  function Expire(now: int, c: Client, f: Frame): Client {
    if !LooksAtClock(now, c, f) || now < c.slow[f].deadline then c
    else if !c.registered then Abandon(c, f)
    else c.(slow := c.slow[f := GivingUp])
  }

  function GiveUp(c: Client, f: Frame): Client {
    if f in c.slow && c.slow[f].GivingUp? then Abandon(Unregister(c), f) else c
  }

  function Consume(c: Client): Client {
    if QueueLength(c) > 0 then c.(taken := c.taken + 1) else c
  }

  // ---- the hub --------------------------------------------------------------------------------------

  datatype State = State(
    now: int,                         // milliseconds
    ttl: nat,                         // historyTTL, milliseconds
    clients: seq<Client>,             // every client object there has been
    history: seq<Msg>,                // h.history
    log: seq<Msg>,                    // history: every message ever added
    lastCut: int,                     // history: the cutoff of the last compaction
    made: seq<Msg>,                   // every message, by serial
    composing: set<nat>,              // SendMessage calls before addToHistory
    undelivered: set<nat>,            // SendMessage calls between addToHistory and deliver
    due: nat,                         // broadcastPresence calls before devices
    lists: seq<set<DeviceId>>,        // every list devices has made, by number
    waiting: set<nat>)                // broadcastPresence calls between devices and deliver

  datatype Event =
    | Tick(elapsed: nat)
    | Connect(device: DeviceId)
    | Join(c: nat)                    // Register, first section
    | SendWelcome(c: nat)
    | TakeSnapshot(c: nat, wait: nat) // sendHistory, first section; it has waited for the lock since it read the clock
    | SendHistory(c: nat)
    | Announce(c: nat)                // broadcastPresence is called
    | Receive(c: nat, asked: seq<Option<DeviceId>>)  // ReadPump calls SendMessage, which takes the stamp
    | AddToHistory(serial: nat)
    | DeliverChat(serial: nat)
    | ComputePresence                 // devices, under the read lock
    | DeliverPresence(number: nat)
    | VisitOne(c: nat, f: Frame)
    | BeginSlow(c: nat, f: Frame)
    | ReadClock(c: nat, f: Frame)     // deliverSlow finds that its deadline has not passed
    | TryAgain(c: nat, f: Frame)
    | PassDeadline(c: nat, f: Frame)
    | Disconnect(c: nat, f: Frame)    // deliverSlow calls Unregister
    | Leave(c: nat)                   // ReadPump ends and calls Unregister
    | Take(c: nat)                    // WritePump receives a frame

  /** The event only moves a frame of one client. */
  predicate MovesFrame(e: Event) {
    e.VisitOne? || e.BeginSlow? || e.ReadClock? || e.TryAgain? || e.PassDeadline? || e.Take?
  }

  /** The write lock is free: no deliver loop is under way. */
  predicate NoReaders(s: State) {
    forall i :: 0 <= i < |s.clients| ==> s.clients[i].toVisit == {}
  }

  function Cutoff(s: State): int {
    Seconds(s.now - s.ttl)
  }

  /** The cutoff from a clock reading so long ago. */
  function CutoffBefore(s: State, wait: nat): int {
    Seconds(s.now - wait - s.ttl)
  }

  function With(s: State, i: nat, c: Client): State
    requires i < |s.clients|
  {
    s.(clients := s.clients[i := c])
  }

  function OfferAll(cs: seq<Client>, f: Frame, m: Option<Msg>): seq<Client> {
    seq(|cs|, i requires 0 <= i < |cs| => Offer(cs[i], f, m.None? || VisibleTo(m.value, cs[i].device)))
  }

  /** The devices of the registered clients; one that has several tabs open counts once. */
  function Online(cs: seq<Client>): set<DeviceId> {
    set i | 0 <= i < |cs| && cs[i].registered :: cs[i].device
  }

  function DoTakeSnapshot(s: State, i: nat, wait: nat): State
    requires i < |s.clients|
  {
    var c, cut := s.clients[i], CutoffBefore(s, wait);
    var msgs := Visible(Fresh(s.history, cut), c.device);
    With(s, i, c.(stage := Snapped, snap := Some(Snapshot(|s.log|, Since(s, cut), msgs))))
  }

  /** An earlier compaction may have used a later cutoff. */
  function Since(s: State, cut: int): int {
    if cut < s.lastCut then s.lastCut else cut
  }

  function DoLeave(s: State, i: nat): State
    requires i < |s.clients|
  {
    var c := s.clients[i];
    if NoReaders(s) && c.registered then With(s, i, Unregister(c)).(due := s.due + 1) else s
  }

  function DoDisconnect(s: State, i: nat, f: Frame): State
    requires i < |s.clients|
  {
    var c := s.clients[i];
    if NoReaders(s) && f in c.slow && c.slow[f].GivingUp? then
      With(s, i, GiveUp(c, f)).(due := s.due + if c.registered then 1 else 0)
    else s
  }

  function DoReceive(s: State, i: nat, asked: seq<Option<DeviceId>>): State
    requires i < |s.clients|
  {
    var self := s.clients[i].device;
    var to := Recipients(asked, self);
    if asked != [] && to == [] then s
    else
      var n := |s.made|;
      s.(made := s.made + [Msg(n, self, to, Seconds(s.now), s.now, asked)], composing := s.composing + {n})
  }

  function DoAddToHistory(s: State, n: nat): State
    requires n < |s.made|
  {
    var m := s.made[n];
    s.(history := Fresh(s.history, Cutoff(s)) + [m], log := s.log + [m], lastCut := Cutoff(s),
       composing := s.composing - {n}, undelivered := s.undelivered + {n})
  }

  function Next(s: State, e: Event): State {
    match e
    case Tick(d) => s.(now := s.now + d)
    case Connect(device) => s.(clients := s.clients + [NewClient(device)])
    case AddToHistory(n) => if n in s.composing && n < |s.made| && NoReaders(s) then DoAddToHistory(s, n) else s
    case DeliverChat(n) =>
      if n in s.undelivered && n < |s.made| then
        s.(undelivered := s.undelivered - {n}, clients := OfferAll(s.clients, Chat(n), Some(s.made[n])))
      else s
    case ComputePresence =>
      if s.due > 0 then
        s.(due := s.due - 1, waiting := s.waiting + {|s.lists|}, lists := s.lists + [Online(s.clients)])
      else s
    case DeliverPresence(k) =>
      if k in s.waiting then
        s.(waiting := s.waiting - {k}, clients := OfferAll(s.clients, Presence(k), None))
      else s
    case _ => if e.c < |s.clients| then NextOf(s, e, e.c) else s
  }

  /** The events that concern one client. */
  function NextOf(s: State, e: Event, i: nat): State
    requires i < |s.clients|
  {
    var c := s.clients[i];
    match e
    case Join(_) => if c.stage.New? && NoReaders(s) then With(s, i, c.(stage := Added, registered := true)) else s
    case SendWelcome(_) => if c.stage.Added? then With(s, i, Enqueue(c, Welcome).(stage := Welcomed)) else s
    case TakeSnapshot(_, wait) => if c.stage.Welcomed? then DoTakeSnapshot(s, i, wait) else s
    case SendHistory(_) =>
      if !c.stage.Snapped? then s
      else With(s, i, (if c.snap.Some? && c.snap.value.msgs != [] then Enqueue(c, History) else c).(stage := Sent))
    case Announce(_) => if c.stage.Sent? then With(s, i, c.(stage := Announced)).(due := s.due + 1) else s
    case Receive(_, asked) => if c.stage.New? then s else DoReceive(s, i, asked)
    case VisitOne(_, f) => With(s, i, Visit(c, f))
    case BeginSlow(_, f) => With(s, i, SlowBegin(s.now, c, f))
    case ReadClock(_, f) => With(s, i, BeginRound(s.now, c, f))
    case TryAgain(_, f) => With(s, i, Attempt(c, f))
    case PassDeadline(_, f) => With(s, i, Expire(s.now, c, f))
    case Disconnect(_, f) => DoDisconnect(s, i, f)
    case Leave(_) => DoLeave(s, i)
    case Take(_) => With(s, i, Consume(c))
    case _ => s
  }

  function Exec(s: State, es: seq<Event>): State
    decreases |es|
  {
    if es == [] then s else Exec(Next(s, es[0]), es[1..])
  }

  function Empty(now: int, ttl: nat): State {
    State(now, ttl, [], [], [], Seconds(now - ttl), [], {}, {}, 0, [], {})
  }

  lemma {:induction false} ExecConcat(s: State, a: seq<Event>, b: seq<Event>)
    ensures Exec(s, a + b) == Exec(Exec(s, a), b)
    decreases |a|
  {
    if a == [] {
      assert a + b == b;
    } else {
      assert (a + b)[0] == a[0] && (a + b)[1..] == a[1..] + b;
      ExecConcat(Next(s, a[0]), a[1..], b);
    }
  }

  lemma ExecSnoc(s: State, es: seq<Event>, e: Event)
    ensures Exec(s, es + [e]) == Next(Exec(s, es), e)
  {
    ExecConcat(s, es, [e]);
    assert Exec(Exec(s, es), [e]) == Exec(Next(Exec(s, es), e), []);
  }
}

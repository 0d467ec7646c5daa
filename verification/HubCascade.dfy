/**
 Unregistering a slow client announces it to all others, which may fill their queues and start more
 retries, which may unregister more clients.  Without new connections and new messages this comes to an end.
 */
module HubCascade {
  import opened Prelude
  import opened HubModel
  import opened HubInvariants
  import opened HubRuns

  /** Events that bring new work from outside: connections, joins and messages. */
  predicate FromOutside(e: Event) {
    e.Connect? || e.Join? || e.Receive?
  }

  /** Something happens other than the passing of time. */
  ghost predicate Active(s: State, e: Event) {
    !e.Tick? && Next(s, e) != s
  }

  // ---- the measure --------------------------------------------------------------------------------------

  ghost function Sum(cs: seq<Client>, w: Client -> nat): nat {
    if cs == [] then 0 else Sum(cs[..|cs| - 1], w) + w(cs[|cs| - 1])
  }

  lemma {:induction false} SumUpdate(cs: seq<Client>, i: nat, d: Client, w: Client -> nat)
    requires i < |cs|
    ensures Sum(cs[i := d], w) + w(cs[i]) == Sum(cs, w) + w(d)
  {
    var front := cs[..|cs| - 1];
    if i == |cs| - 1 {
      assert cs[i := d][..|cs| - 1] == front;
    } else {
      assert cs[i := d][..|cs| - 1] == front[i := d];
      SumUpdate(front, i, d, w);
    }
  }

  lemma {:induction false} SumSame(cs: seq<Client>, ds: seq<Client>, w: Client -> nat)
    requires |cs| == |ds| && forall i :: 0 <= i < |cs| ==> w(cs[i]) == w(ds[i])
    ensures Sum(cs, w) == Sum(ds, w)
  {
    if cs != [] {
      SumSame(cs[..|cs| - 1], ds[..|ds| - 1], w);
    }
  }

  function Live(c: Client): nat {
    One(c.registered)
  }

  /** Register still has so many sections to go; its last one also calls for a broadcast. */
  function StagesLeft(c: Client): nat {
    match c.stage
    case New => 0
    case Added => 6
    case Welcomed => 5
    case Snapped => 4
    case Sent => 3
    case Announced => 0
  }

  function VisitsLeft(c: Client): nat {
    |c.toVisit|
  }

  function Patience(t: Slow): nat {
    match t
    case Spawned => 44
    case Retrying(_, attempts, checked) => if attempts <= 20 then 43 - 2 * attempts - (if checked then 1 else 0) else 2
    case GivingUp => 1
  }

  ghost function PatienceLeft(m: map<Frame, Slow>): nat
    decreases |m|
  {
    if m == map[] then 0
    else
      var f :| f in m;
      Patience(m[f]) + PatienceLeft(m - {f})
  }

  ghost function RetriesLeft(c: Client): nat {
    PatienceLeft(c.slow)
  }

  function Queued(c: Client): nat {
    if c.taken <= |c.stream| then |c.stream| - c.taken else 0
  }

  lemma {:induction false} PatienceWithout(m: map<Frame, Slow>, f: Frame)
    requires f in m
    ensures PatienceLeft(m) == Patience(m[f]) + PatienceLeft(m - {f})
    decreases |m|
  {
    var g :| g in m && PatienceLeft(m) == Patience(m[g]) + PatienceLeft(m - {g});
    if g != f {
      PatienceWithout(m - {g}, f);
      PatienceWithout(m - {f}, g);
      assert m - {g} - {f} == m - {f} - {g};
    }
  }

  lemma PatienceWith(m: map<Frame, Slow>, f: Frame, t: Slow)
    ensures PatienceLeft(m[f := t]) == Patience(t) + PatienceLeft(m - {f})
  {
    PatienceWithout(m[f := t], f);
    assert m[f := t] - {f} == m - {f};
  }

  datatype Measure = Measure(live: nat, starts: nat, visits: nat, retries: nat, queued: nat)

  ghost function MeasureOf(s: State): Measure {
    Measure(
      Sum(s.clients, Live),
      Sum(s.clients, StagesLeft) + 2 * |s.composing| + |s.undelivered| + 2 * s.due + |s.waiting|,
      Sum(s.clients, VisitsLeft),
      Sum(s.clients, RetriesLeft),
      Sum(s.clients, Queued))
  }

  predicate Less(a: Measure, b: Measure) {
    || a.live < b.live
    || (a.live == b.live && a.starts < b.starts)
    || (a.live == b.live && a.starts == b.starts && a.visits < b.visits)
    || (a.live == b.live && a.starts == b.starts && a.visits == b.visits && a.retries < b.retries)
    || (a.live == b.live && a.starts == b.starts && a.visits == b.visits && a.retries == b.retries && a.queued < b.queued)
  }

  // ---- one step -------------------------------------------------------------------------------------------

  lemma UpdateMeasure(s: State, i: nat, d: Client)
    requires i < |s.clients|
    ensures var a, b, c := MeasureOf(s), MeasureOf(With(s, i, d)), s.clients[i];
            && b.live + Live(c) == a.live + Live(d)
            && b.starts + StagesLeft(c) == a.starts + StagesLeft(d)
            && b.visits + VisitsLeft(c) == a.visits + VisitsLeft(d)
            && b.retries + RetriesLeft(c) == a.retries + RetriesLeft(d)
            && b.queued + Queued(c) == a.queued + Queued(d)
  {
    SumUpdate(s.clients, i, d, Live);
    SumUpdate(s.clients, i, d, StagesLeft);
    SumUpdate(s.clients, i, d, VisitsLeft);
    SumUpdate(s.clients, i, d, RetriesLeft);
    SumUpdate(s.clients, i, d, Queued);
  }

  /** A client comes closer to rest. */
  ghost predicate Settles(c: Client, d: Client) {
    || Live(d) < Live(c)
    || (Live(d) == Live(c) && StagesLeft(d) < StagesLeft(c))
    || (Live(d) == Live(c) && StagesLeft(d) == StagesLeft(c) && VisitsLeft(d) < VisitsLeft(c))
    || (Live(d) == Live(c) && StagesLeft(d) == StagesLeft(c) && VisitsLeft(d) == VisitsLeft(c) && RetriesLeft(d) < RetriesLeft(c))
    || (Live(d) == Live(c) && StagesLeft(d) == StagesLeft(c) && VisitsLeft(d) == VisitsLeft(c) && RetriesLeft(d) == RetriesLeft(c)
        && Queued(d) < Queued(c))
  }

  lemma ClientSettles(s: State, i: nat, d: Client)
    requires i < |s.clients| && Settles(s.clients[i], d)
    ensures Less(MeasureOf(With(s, i, d)), MeasureOf(s))
  {
    UpdateMeasure(s, i, d);
  }

  /** A retry that comes closer to its end. */
  lemma StatusSettles(c: Client, f: Frame, t: Slow)
    requires f in c.slow && Patience(t) < Patience(c.slow[f])
    ensures Settles(c, c.(slow := c.slow[f := t]))
  {
    PatienceWithout(c.slow, f);
    PatienceWith(c.slow, f, t);
  }

  lemma BeginSettles(now: int, c: Client, f: Frame)
    ensures SlowBegin(now, c, f) == c || Settles(c, SlowBegin(now, c, f))
  {
    if f in c.slow && c.slow[f].Spawned? {
      StatusSettles(c, f, Retrying(now + RETRY_WINDOW, 0, false));
    }
  }

  lemma ClockSettles(now: int, c: Client, f: Frame)
    requires ClientInv(c)
    ensures BeginRound(now, c, f) == c || Settles(c, BeginRound(now, c, f))
  {
    if LooksAtClock(now, c, f) && now < c.slow[f].deadline {
      StatusSettles(c, f, c.slow[f].(checked := true));
    }
  }

  lemma AbandonSettles(c: Client, f: Frame)
    requires f in c.slow
    ensures Settles(c, Abandon(c, f))
  {
    PatienceWithout(c.slow, f);
  }

  lemma ExpireSettles(now: int, c: Client, f: Frame)
    ensures Expire(now, c, f) == c || Settles(c, Expire(now, c, f))
  {
    if LooksAtClock(now, c, f) && now >= c.slow[f].deadline {
      if c.registered {
        StatusSettles(c, f, GivingUp);
      } else {
        AbandonSettles(c, f);
      }
    }
  }

  lemma AttemptSettles(c: Client, f: Frame)
    requires ClientInv(c)
    ensures Attempt(c, f) == c || Settles(c, Attempt(c, f))
  {
    if f in c.slow && c.slow[f].Retrying? && c.slow[f].checked {
      assert Patient(c.slow[f]);
      if !c.registered {
        AbandonSettles(c, f);
      } else if QueueLength(c) < BUFFER {
        PatienceWithout(c.slow, f);
      } else {
        StatusSettles(c, f, Retrying(c.slow[f].deadline, c.slow[f].attempts + 1, false));
      }
    }
  }

  lemma VisitSettles(c: Client, f: Frame)
    ensures Visit(c, f) == c || Settles(c, Visit(c, f))
  {
    if f in c.toVisit {
      assert |c.toVisit - {f}| < |c.toVisit|;
    }
  }

  lemma GiveUpSettles(c: Client, f: Frame)
    requires f in c.slow && c.slow[f].GivingUp?
    ensures Live(GiveUp(c, f)) < Live(c) || (!c.registered && Settles(c, GiveUp(c, f)))
  {
    PatienceWithout(c.slow, f);
  }

  lemma StaysPut(s: State, i: nat)
    requires i < |s.clients|
    ensures With(s, i, s.clients[i]) == s
  {
    assert s.clients[i := s.clients[i]] == s.clients;
  }

  lemma FrameSettles(s: State, e: Event, i: nat)
    requires Inv(s) && i < |s.clients|
    requires MovesFrame(e)
    ensures NextOf(s, e, i) == s || Less(MeasureOf(NextOf(s, e, i)), MeasureOf(s))
  {
    var c := s.clients[i];
    assert Fits(s, c);
    StaysPut(s, i);
    var d := match e
      case VisitOne(_, f) => Visit(c, f)
      case BeginSlow(_, f) => SlowBegin(s.now, c, f)
      case ReadClock(_, f) => BeginRound(s.now, c, f)
      case TryAgain(_, f) => Attempt(c, f)
      case PassDeadline(_, f) => Expire(s.now, c, f)
      case _ => Consume(c);
    assert NextOf(s, e, i) == With(s, i, d);
    assert d == c || Settles(c, d) by {
      match e
      case VisitOne(_, f) => VisitSettles(c, f);
      case BeginSlow(_, f) => BeginSettles(s.now, c, f);
      case ReadClock(_, f) => ClockSettles(s.now, c, f);
      case TryAgain(_, f) => AttemptSettles(c, f);
      case PassDeadline(_, f) => ExpireSettles(s.now, c, f);
      case _ =>
    }
    if d != c {
      ClientSettles(s, i, d);
    }
  }

  lemma StageSettles(s: State, e: Event, i: nat)
    requires Inv(s) && i < |s.clients|
    requires e.SendWelcome? || e.TakeSnapshot? || e.SendHistory?
    ensures NextOf(s, e, i) == s || Less(MeasureOf(NextOf(s, e, i)), MeasureOf(s))
  {
    if NextOf(s, e, i) != s {
      var d := NextOf(s, e, i).clients[i];
      assert NextOf(s, e, i) == With(s, i, d);
      ClientSettles(s, i, d);
    }
  }

  lemma AnnounceSettles(s: State, i: nat)
    requires i < |s.clients| && s.clients[i].stage.Sent?
    ensures Less(MeasureOf(NextOf(s, Announce(i), i)), MeasureOf(s))
  {
    var d := s.clients[i].(stage := Announced);
    assert NextOf(s, Announce(i), i) == With(s, i, d).(due := s.due + 1);
    UpdateMeasure(s, i, d);
  }

  lemma DropSettles(s: State, e: Event, i: nat)
    requires Inv(s) && i < |s.clients| && (e.Disconnect? || e.Leave?)
    ensures NextOf(s, e, i) == s || Less(MeasureOf(NextOf(s, e, i)), MeasureOf(s))
  {
    if NextOf(s, e, i) != s {
      var c, d := s.clients[i], NextOf(s, e, i).clients[i];
      if e.Disconnect? {
        GiveUpSettles(c, e.f);
      }
      UpdateMeasure(s, i, d);
    }
  }

  lemma OfferingStartsNothing(cs: seq<Client>, f: Frame, m: Option<Msg>)
    ensures Sum(OfferAll(cs, f, m), Live) == Sum(cs, Live)
    ensures Sum(OfferAll(cs, f, m), StagesLeft) == Sum(cs, StagesLeft)
  {
    SumSame(cs, OfferAll(cs, f, m), Live);
    SumSame(cs, OfferAll(cs, f, m), StagesLeft);
  }

  lemma DeliverSettles(s: State, n: nat)
    requires n in s.undelivered && n < |s.made|
    ensures Less(MeasureOf(Next(s, DeliverChat(n))), MeasureOf(s))
  {
    OfferingStartsNothing(s.clients, Chat(n), Some(s.made[n]));
    assert |s.undelivered - {n}| < |s.undelivered|;
  }

  lemma ComputeSettles(s: State)
    requires s.due > 0
    ensures Less(MeasureOf(Next(s, ComputePresence)), MeasureOf(s))
  {
    assert |s.waiting + {|s.lists|}| <= |s.waiting| + 1;
  }

  lemma PresenceSettles(s: State, k: nat)
    requires k in s.waiting
    ensures Less(MeasureOf(Next(s, DeliverPresence(k))), MeasureOf(s))
  {
    OfferingStartsNothing(s.clients, Presence(k), None);
    assert |s.waiting - {k}| < |s.waiting|;
  }

  lemma AddSettles(s: State, n: nat)
    requires n in s.composing && n < |s.made|
    ensures Less(MeasureOf(DoAddToHistory(s, n)), MeasureOf(s))
  {
    assert |s.composing - {n}| < |s.composing|;
    assert |s.undelivered + {n}| <= |s.undelivered| + 1;
  }

  /** Every step but the passing of time and the arrival of work from outside strictly lowers the measure. */
  lemma ActivityDescends(s: State, e: Event)
    requires Inv(s) && !FromOutside(e) && Active(s, e)
    ensures Less(MeasureOf(Next(s, e)), MeasureOf(s))
  {
    if e.AddToHistory? {
      AddSettles(s, e.serial);
    } else if e.DeliverChat? {
      DeliverSettles(s, e.serial);
    } else if e.ComputePresence? {
      ComputeSettles(s);
    } else if e.DeliverPresence? {
      PresenceSettles(s, e.number);
    } else if e.SendWelcome? || e.TakeSnapshot? || e.SendHistory? {
      StageSettles(s, e, e.c);
    } else if e.Announce? {
      AnnounceSettles(s, e.c);
    } else if e.Disconnect? || e.Leave? {
      DropSettles(s, e, e.c);
    } else if MovesFrame(e) {
      FrameSettles(s, e, e.c);
    }
  }

  // ---- whole runs --------------------------------------------------------------------------------------------

  lemma FirstTrue(p: nat -> bool, k: nat, last: nat) returns (m: nat)
    requires k <= last && p(last)
    ensures k <= m <= last && p(m) && forall j :: k <= j < m ==> !p(j)
  {
    m := k;
    while !p(m)
      invariant k <= m <= last
      invariant forall j :: k <= j < m ==> !p(j)
      decreases last - m
    {
      m := m + 1;
    }
  }

  lemma {:induction false} Constant(active: nat -> bool, mu: nat -> Measure, k: nat, m: nat)
    requires k <= m
    requires forall j :: k <= j < m ==> !active(j)
    requires forall j :: k <= j ==> if active(j) then Less(mu(j + 1), mu(j)) else mu(j + 1) == mu(j)
    ensures mu(m) == mu(k)
    decreases m - k
  {
    if k < m {
      Constant(active, mu, k, m - 1);
    }
  }

  ghost predicate Rests(active: nat -> bool, k: nat) {
    forall m :: k <= m ==> !active(m)
  }

  /** A measure that falls at every active step and stays at every other allows finitely many active ones. */
  lemma {:induction false} ComesToRest(active: nat -> bool, mu: nat -> Measure, k: nat)
    requires forall j :: k <= j ==> if active(j) then Less(mu(j + 1), mu(j)) else mu(j + 1) == mu(j)
    ensures exists n :: k <= n && Rests(active, n)
    decreases mu(k).live, mu(k).starts, mu(k).visits, mu(k).retries, mu(k).queued
  {
    if !Rests(active, k) {
      var last :| k <= last && active(last);
      var m := FirstTrue(active, k, last);
      Constant(active, mu, k, m);
      ComesToRest(active, mu, m + 1);
      var n :| m + 1 <= n && Rests(active, n);
    }
  }

  ghost function StateAt(s: State, es: nat -> Event, k: nat): State {
    if k == 0 then s else Next(StateAt(s, es, k - 1), es(k - 1))
  }

  lemma {:induction false} StateAtInv(s: State, es: nat -> Event, k: nat)
    requires Inv(s)
    ensures Inv(StateAt(s, es, k))
  {
    if k > 0 {
      StateAtInv(s, es, k - 1);
      NextKeepsInv(StateAt(s, es, k - 1), es(k - 1));
    }
  }

  ghost predicate ActiveAt(s: State, es: nat -> Event, k: nat) {
    Active(StateAt(s, es, k), es(k))
  }

  /** From step n on, time passes at most. */
  ghost predicate RestsFrom(s: State, es: nat -> Event, n: nat) {
    forall m: nat :: n <= m ==> !ActiveAt(s, es, m)
  }

  ghost function MeasureAt(s: State, es: nat -> Event, k: nat): Measure {
    MeasureOf(StateAt(s, es, k))
  }

  lemma MeasureDescends(s: State, es: nat -> Event, k: nat)
    requires Inv(s) && !FromOutside(es(k))
    ensures if ActiveAt(s, es, k) then Less(MeasureAt(s, es, k + 1), MeasureAt(s, es, k))
            else MeasureAt(s, es, k + 1) == MeasureAt(s, es, k)
  {
    StateAtInv(s, es, k);
    StepDescends(StateAt(s, es, k), es(k));
    assert StateAt(s, es, k + 1) == Next(StateAt(s, es, k), es(k));
  }

  /**
   The disconnect cascade terminates: from any state of any run, if no new connections and messages come
   in, then after finitely many steps nothing is left to do but wait.
   */
  lemma CascadeEnds(start: int, ttl: nat, before: seq<Event>, es: nat -> Event)
    requires forall m: nat :: !FromOutside(es(m))
    ensures exists n: nat :: RestsFrom(Exec(Empty(start, ttl), before), es, n)
  {
    var s := Exec(Empty(start, ttl), before);
    ExecKeepsInv(Empty(start, ttl), before);
    var n := RunEnds(s, es);
    assert RestsFrom(s, es, n);
  }

  lemma RunEnds(s: State, es: nat -> Event) returns (n: nat)
    requires Inv(s) && forall m: nat :: !FromOutside(es(m))
    ensures RestsFrom(s, es, n)
  {
    hide ActiveAt, MeasureAt, Inv, Less;
    var active: nat -> bool := (k: nat) => ActiveAt(s, es, k);
    var mu: nat -> Measure := (k: nat) => MeasureAt(s, es, k);
    forall k: nat
      ensures if active(k) then Less(mu(k + 1), mu(k)) else mu(k + 1) == mu(k)
    {
      MeasureDescends(s, es, k);
    }
    ComesToRest(active, mu, 0);
    n :| Rests(active, n);
    forall m: nat | n <= m
      ensures !ActiveAt(s, es, m)
    {
      assert !active(m);
    }
  }

  lemma StepDescends(s: State, e: Event)
    requires Inv(s) && !FromOutside(e)
    ensures if Active(s, e) then Less(MeasureOf(Next(s, e)), MeasureOf(s)) else MeasureOf(Next(s, e)) == MeasureOf(s)
  {
    if Active(s, e) {
      ActivityDescends(s, e);
    }
  }

  // ---- what is true at rest ------------------------------------------------------------------------------------

  function Later(s: State, elapsed: nat): State {
    s.(now := s.now + elapsed)
  }

  /** However much time passes, only connections, joins, messages and departures can change anything. */
  ghost predicate AtRest(s: State) {
    forall d: nat, e: Event :: !e.Tick? && !FromOutside(e) && !e.Leave? ==> Next(Later(s, d), e) == Later(s, d)
  }

  /** Its pump has received everything on its channel, nothing is on its way, and Register is not under way. */
  predicate Quiet(c: Client) {
    c.toVisit == {} && c.slow == map[] && c.taken == |c.stream| && StagesLeft(c) == 0
  }

  ghost predicate NothingLeft(s: State) {
    && s.composing == {} && s.undelivered == {} && s.due == 0 && s.waiting == {}
    && forall i :: 0 <= i < |s.clients| ==> Quiet(s.clients[i])
  }

  /** After some time this event changes something. */
  ghost predicate Stirs(s: State, d: nat, e: Event) {
    !e.Tick? && !FromOutside(e) && !e.Leave? && Next(Later(s, d), e) != Later(s, d)
  }

  lemma VisitStirs(s: State, i: nat, f: Frame)
    requires i < |s.clients| && f in s.clients[i].toVisit
    ensures Stirs(s, 0, VisitOne(i, f))
  {
    assert Next(Later(s, 0), VisitOne(i, f)).clients[i] == Visit(s.clients[i], f);
    assert f !in Visit(s.clients[i], f).toVisit;
  }

  lemma RetryStirs(s: State, i: nat, f: Frame) returns (d: nat, e: Event)
    requires NoReaders(s) && i < |s.clients| && f in s.clients[i].slow
    ensures Stirs(s, d, e)
  {
    var c, t := s.clients[i], s.clients[i].slow[f];
    d := 0;
    if t.Spawned? {
      e := BeginSlow(i, f);
      assert Next(Later(s, d), e).clients[i].slow[f].Retrying?;
    } else if t.GivingUp? {
      e := Disconnect(i, f);
      assert Later(s, d).clients == s.clients;
      assert f !in Next(Later(s, d), e).clients[i].slow;
    } else if t.checked {
      e := TryAgain(i, f);
      var after := Next(Later(s, d), e).clients[i];
      assert after == Attempt(c, f);
      assert f !in after.slow || after.slow[f] != t;
    } else {
      d, e := ExpiryStirs(s, i, f);
    }
  }

  lemma ExpiryStirs(s: State, i: nat, f: Frame) returns (d: nat, e: Event)
    requires NoReaders(s) && i < |s.clients| && f in s.clients[i].slow
    requires s.clients[i].slow[f].Retrying? && !s.clients[i].slow[f].checked
    ensures Stirs(s, d, e)
  {
    var c, t := s.clients[i], s.clients[i].slow[f];
    var until := if WakesAt(t) < t.deadline then t.deadline else WakesAt(t);
    d := if until < s.now then 0 else until - s.now;
    e := PassDeadline(i, f);
    var after := Next(Later(s, d), e).clients[i];
    assert after == Expire(s.now + d, c, f);
    assert f !in after.slow || after.slow[f] != t;
  }

  lemma PumpStirs(s: State, i: nat)
    requires i < |s.clients| && s.clients[i].taken < |s.clients[i].stream|
    ensures Stirs(s, 0, Take(i))
  {
    assert Next(Later(s, 0), Take(i)).clients[i].taken == s.clients[i].taken + 1;
  }

  lemma RegisterStirs(s: State, i: nat) returns (e: Event)
    requires i < |s.clients| && StagesLeft(s.clients[i]) > 0
    ensures Stirs(s, 0, e)
  {
    var stage := s.clients[i].stage;
    e := if stage.Added? then SendWelcome(i)
         else if stage.Welcomed? then TakeSnapshot(i, 0)
         else if stage.Snapped? then SendHistory(i)
         else Announce(i);
    assert Next(Later(s, 0), e).clients[i].stage != stage;
  }

  lemma ClientStirs(s: State, i: nat) returns (d: nat, e: Event)
    requires Inv(s) && NoReaders(s) && i < |s.clients| && !Quiet(s.clients[i])
    ensures Stirs(s, d, e)
  {
    assert Fits(s, s.clients[i]);
    d := 0;
    if f :| f in s.clients[i].slow {
      d, e := RetryStirs(s, i, f);
    } else if StagesLeft(s.clients[i]) > 0 {
      e := RegisterStirs(s, i);
    } else {
      e := Take(i);
      PumpStirs(s, i);
    }
  }

  lemma HubStirs(s: State) returns (e: Event)
    requires Inv(s) && NoReaders(s)
    requires s.composing != {} || s.undelivered != {} || s.due > 0 || s.waiting != {}
    ensures Stirs(s, 0, e)
  {
    assert Later(s, 0) == s;
    if n :| n in s.composing {
      e := AddToHistory(n);
      assert n !in Next(s, e).composing;
    } else if n :| n in s.undelivered {
      e := DeliverChat(n);
      assert n !in Next(s, e).undelivered;
    } else if s.due > 0 {
      e := ComputePresence;
      assert Next(s, e).due < s.due;
    } else {
      var k :| k in s.waiting;
      e := DeliverPresence(k);
      assert k !in Next(s, e).waiting;
    }
  }

  lemma SomethingStirs(s: State) returns (d: nat, e: Event)
    requires Inv(s) && !NothingLeft(s)
    ensures Stirs(s, d, e)
  {
    d := 0;
    if !NoReaders(s) {
      var i :| 0 <= i < |s.clients| && s.clients[i].toVisit != {};
      var f :| f in s.clients[i].toVisit;
      VisitStirs(s, i, f);
      e := VisitOne(i, f);
    } else if i :| 0 <= i < |s.clients| && !Quiet(s.clients[i]) {
      d, e := ClientStirs(s, i);
    } else {
      e := HubStirs(s);
    }
  }

  lemma NothingStirs(s: State, d: nat, e: Event)
    requires NothingLeft(s) && !e.Tick? && !FromOutside(e) && !e.Leave?
    ensures Next(Later(s, d), e) == Later(s, d)
  {
    if OfClient(e) && e.c < |s.clients| {
      assert Quiet(s.clients[e.c]);
      StaysPut(Later(s, d), e.c);
    }
  }

  /**
   What the cascade comes to: nothing but connections, joins, messages and departures can change anything any more,
   however much time passes, if and only if no call is under way and every client is quiet; and then the pump of
   every registered client has received every frame that was ever offered to it.
   */
  lemma RestMeansDelivered(start: int, ttl: nat, es: seq<Event>)
    ensures
      var s := Exec(Empty(start, ttl), es);
      && (AtRest(s) <==> NothingLeft(s))
      && (AtRest(s) ==>
            forall i, f :: 0 <= i < |s.clients| && s.clients[i].registered && f in s.clients[i].offered ==>
              f in s.clients[i].stream[..s.clients[i].taken])
  {
    var s := Exec(Empty(start, ttl), es);
    ExecKeepsInv(Empty(start, ttl), es);
    if NothingLeft(s) {
      forall d: nat, e: Event | !e.Tick? && !FromOutside(e) && !e.Leave?
        ensures Next(Later(s, d), e) == Later(s, d)
      {
        NothingStirs(s, d, e);
      }
      forall i, f | 0 <= i < |s.clients| && s.clients[i].registered && f in s.clients[i].offered
        ensures f in s.clients[i].stream[..s.clients[i].taken]
      {
        QuietMeansReceived(s, i, f);
      }
    } else {
      var d, e := SomethingStirs(s);
      assert Next(Later(s, d), e) != Later(s, d);
    }
  }

  lemma QuietMeansReceived(s: State, i: nat, f: Frame)
    requires Inv(s) && NothingLeft(s) && i < |s.clients| && s.clients[i].registered && f in s.clients[i].offered
    ensures f in s.clients[i].stream[..s.clients[i].taken]
  {
    var c := s.clients[i];
    assert Fits(s, c) && Quiet(c);
    assert Places(c, f) == 1;
    assert c.stream[..c.taken] == c.stream;
  }
}

/** What every critical section of the hub keeps. */
module HubInvariants {
  import opened Prelude
  import opened HubModel

  function One(b: bool): nat {
    if b then 1 else 0
  }

  predicate Broadcast(f: Frame) {
    f.Chat? || f.Presence?
  }

  /** In how many places a frame is: on the channel, ahead of a deliver loop, with a retry, or dropped. */
  function Places(c: Client, f: Frame): nat {
    multiset(c.stream)[f] + One(f in c.toVisit) + One(f in c.slow) + One(f in c.abandoned)
  }

  /** How far Register has not come. */
  predicate NoWelcomeYet(stage: Stage) {
    stage.New? || stage.Added?
  }

  predicate NoSnapshotYet(stage: Stage) {
    NoWelcomeYet(stage) || stage.Welcomed?
  }

  predicate NoHistoryYet(stage: Stage) {
    NoSnapshotYet(stage) || stage.Snapped?
  }

  /** Every frame is in as many places as it has been sent to this client. */
  ghost predicate Conserved(c: Client) {
    && (forall f :: Broadcast(f) ==> Places(c, f) == One(f in c.offered))
    && (forall f :: !Broadcast(f) ==> f !in c.offered && Places(c, f) == multiset(c.stream)[f] <= 1)
    && (NoWelcomeYet(c.stage) ==> multiset(c.stream)[Welcome] == 0)
    && (NoHistoryYet(c.stage) ==> multiset(c.stream)[History] == 0)
  }

  /** The channel is closed exactly when the client has been registered and removed, and nobody trips over it. */
  predicate Safe(c: Client) {
    && !c.panicked
    && (c.closed <==> !c.stage.New? && !c.registered)
    && (c.stage.New? ==> !c.registered && c.offered == {} && c.stream == [])
    && (c.toVisit != {} ==> c.registered)
    && (c.abandoned != {} ==> c.closed)
    && c.taken <= |c.stream| <= c.taken + BUFFER
  }

  predicate Patient(t: Slow) {
    t.Retrying? ==> RETRY_DELAY * t.attempts + (if t.checked then RETRY_DELAY else 0) <= RETRY_WINDOW
  }

  /** 3 s of window with 150 ms between two rounds are at most 20 rounds. */
  predicate Bounded(c: Client) {
    forall f :: f in c.slow ==> Patient(c.slow[f])
  }

  ghost predicate ClientInv(c: Client) {
    Safe(c) && Conserved(c) && Bounded(c)
  }

  lemma SendKeeps(c: Client, f: Frame)
    requires !c.closed
    ensures Send(c, f) == c.(stream := c.stream + [f])
    ensures forall g :: multiset(c.stream + [f])[g] == multiset(c.stream)[g] + One(f == g)
  {
  }

  lemma VisitKeeps(c: Client, f: Frame)
    requires ClientInv(c)
    ensures ClientInv(Visit(c, f))
  {
    if f in c.toVisit {
      var c1 := c.(toVisit := c.toVisit - {f});
      SendKeeps(c1, f);
      var d := Visit(c, f);
      assert Places(c, f) == One(f in c.offered);
      forall g
        ensures Places(d, g) == Places(c, g)
      {
      }
    }
  }

  lemma EnqueueKeeps(c: Client, f: Frame, stage: Stage)
    requires ClientInv(c)
    requires (f == Welcome && c.stage == Added && stage == Welcomed) || (f == History && c.stage == Snapped && stage == Sent)
    ensures ClientInv(Enqueue(c, f).(stage := stage))
  {
    var d := Enqueue(c, f).(stage := stage);
    if c.registered && QueueLength(c) < BUFFER {
      SendKeeps(c, f);
      forall g
        ensures Places(d, g) == Places(c, g) + One(g == f)
      {
      }
    } else {
      StageMoves(c, stage);
    }
  }

  lemma StageMoves(c: Client, stage: Stage)
    requires ClientInv(c)
    requires (c.stage == Added && stage == Welcomed) || (c.stage == Snapped && stage == Sent)
    ensures ClientInv(c.(stage := stage))
  {
    forall g
      ensures Places(c.(stage := stage), g) == Places(c, g)
    {
    }
  }

  lemma AbandonKeeps(c: Client, f: Frame)
    requires ClientInv(c) && f in c.slow && c.closed
    ensures ClientInv(Abandon(c, f))
  {
    var d := Abandon(c, f);
    assert Places(c, f) == One(f in c.offered);
    forall g
      ensures Places(d, g) == Places(c, g)
    {
    }
  }

  /** A retry that only changes its mind leaves every frame where it is. */
  lemma StatusKeeps(c: Client, f: Frame, t: Slow)
    requires ClientInv(c) && f in c.slow && Patient(t)
    ensures ClientInv(c.(slow := c.slow[f := t]))
  {
    var d := c.(slow := c.slow[f := t]);
    assert !Broadcast(f) ==> Places(c, f) == multiset(c.stream)[f];
    forall g
      ensures Places(d, g) == Places(c, g)
    {
    }
  }

  lemma SlowBeginKeeps(now: int, c: Client, f: Frame)
    requires ClientInv(c)
    ensures ClientInv(SlowBegin(now, c, f))
  {
    if f in c.slow && c.slow[f].Spawned? {
      StatusKeeps(c, f, Retrying(now + RETRY_WINDOW, 0, false));
    }
  }

  lemma BeginRoundKeeps(now: int, c: Client, f: Frame)
    requires ClientInv(c)
    ensures ClientInv(BeginRound(now, c, f))
  {
    if LooksAtClock(now, c, f) && now < c.slow[f].deadline {
      StatusKeeps(c, f, c.slow[f].(checked := true));
    }
  }

  lemma ExpireKeeps(now: int, c: Client, f: Frame)
    requires ClientInv(c)
    ensures ClientInv(Expire(now, c, f))
  {
    if LooksAtClock(now, c, f) && now >= c.slow[f].deadline {
      if c.registered {
        StatusKeeps(c, f, GivingUp);
      } else {
        SlowIsJoined(c, f);
        AbandonKeeps(c, f);
      }
    }
  }

  /** Retries exist only for clients that have been registered. */
  lemma SlowIsJoined(c: Client, f: Frame)
    requires ClientInv(c) && f in c.slow && !c.registered
    ensures c.closed
  {
    assert Places(c, f) >= 1;
    assert f in c.offered;
  }

  lemma AttemptKeeps(c: Client, f: Frame)
    requires ClientInv(c)
    ensures ClientInv(Attempt(c, f))
  {
    if f in c.slow && c.slow[f].Retrying? && c.slow[f].checked {
      if !c.registered {
        SlowIsJoined(c, f);
        AbandonKeeps(c, f);
      } else if QueueLength(c) < BUFFER {
        ResendKeeps(c, f);
      } else {
        StatusKeeps(c, f, Retrying(c.slow[f].deadline, c.slow[f].attempts + 1, false));
      }
    }
  }

  lemma ResendKeeps(c: Client, f: Frame)
    requires ClientInv(c) && f in c.slow && c.registered && QueueLength(c) < BUFFER
    ensures ClientInv(Send(c.(slow := c.slow - {f}), f))
  {
    var d := Send(c.(slow := c.slow - {f}), f);
    assert Places(c, f) == One(f in c.offered) && Broadcast(f) by {
      assert !Broadcast(f) ==> Places(c, f) == multiset(c.stream)[f];
    }
    SendKeeps(c.(slow := c.slow - {f}), f);
    forall g
      ensures Places(d, g) == Places(c, g)
    {
    }
  }

  lemma UnregisterKeeps(c: Client)
    requires ClientInv(c) && c.toVisit == {}
    ensures ClientInv(Unregister(c))
  {
    var d := Unregister(c);
    forall g
      ensures Places(d, g) == Places(c, g)
    {
    }
  }

  lemma GiveUpKeeps(c: Client, f: Frame)
    requires ClientInv(c) && c.toVisit == {}
    ensures ClientInv(GiveUp(c, f))
  {
    if f in c.slow && c.slow[f].GivingUp? {
      UnregisterKeeps(c);
      if !c.registered {
        SlowIsJoined(c, f);
      }
      AbandonKeeps(Unregister(c), f);
    }
  }

  lemma OfferKeeps(c: Client, f: Frame, wanted: bool)
    requires ClientInv(c) && Broadcast(f) && f !in c.offered
    ensures ClientInv(Offer(c, f, wanted))
  {
    var d := Offer(c, f, wanted);
    assert Places(c, f) == 0;
    forall g
      ensures Places(d, g) == Places(c, g) + One(g == f && c.registered && wanted)
    {
    }
  }

  /** Stage changes and the write pump leave every frame where it is. */
  lemma RelabelKeeps(c: Client, d: Client)
    requires ClientInv(c) && d == c.(stage := d.stage, registered := d.registered, taken := d.taken, snap := d.snap)
    requires c.taken <= d.taken <= |c.stream|
    requires if c.stage.New? then d.stage.New? == !d.registered else d.registered == c.registered && !d.stage.New?
    requires NoWelcomeYet(d.stage) ==> NoWelcomeYet(c.stage)
    requires NoHistoryYet(d.stage) ==> NoHistoryYet(c.stage)
    ensures ClientInv(d)
  {
    forall g
      ensures Places(d, g) == Places(c, g)
    {
    }
  }
}

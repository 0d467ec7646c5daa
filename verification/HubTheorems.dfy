/** The promises of the hub, for every run. */
module HubTheorems {
  import opened Prelude
  import opened HubModel
  import opened HubInvariants
  import opened HubRuns
  import HubOrder

  lemma Runs(start: int, ttl: nat, es: seq<Event>)
    ensures Inv(Exec(Empty(start, ttl), es))
  {
    ExecKeepsInv(Empty(start, ttl), es);
  }

  // ---- channels and frames ----------------------------------------------------------------------------

  /**
   A channel is closed exactly when its client has been registered and then removed; no step ever sends on
   a closed channel or closes one twice, whoever races to unregister.
   */
  lemma ChannelSafety(start: int, ttl: nat, es: seq<Event>, i: nat)
    requires i < |Exec(Empty(start, ttl), es).clients|
    ensures var c := Exec(Empty(start, ttl), es).clients[i];
            && !c.panicked
            && (c.closed <==> !c.stage.New? && !c.registered)
            && |c.stream| - c.taken <= 256
  {
    Runs(start, ttl, es);
    assert Fits(Exec(Empty(start, ttl), es), Exec(Empty(start, ttl), es).clients[i]);
  }

  /** Nothing is sent to a client that has not joined. */
  lemma NewcomersWait(start: int, ttl: nat, es: seq<Event>, i: nat)
    requires i < |Exec(Empty(start, ttl), es).clients| && Exec(Empty(start, ttl), es).clients[i].stage.New?
    ensures var c := Exec(Empty(start, ttl), es).clients[i]; !c.registered && c.stream == [] && c.offered == {}
  {
    Runs(start, ttl, es);
    assert Fits(Exec(Empty(start, ttl), es), Exec(Empty(start, ttl), es).clients[i]);
  }

  /**
   A frame handed to deliver is, for each client the filter accepted, at every moment in exactly one place:
   once on the channel (queued or already received), ahead of its deliver loop, with one retry, or dropped;
   and it is dropped only for a client that has been removed.
   */
  lemma FrameConservation(start: int, ttl: nat, es: seq<Event>, i: nat, f: Frame)
    requires i < |Exec(Empty(start, ttl), es).clients|
    requires f in Exec(Empty(start, ttl), es).clients[i].offered
    ensures var c := Exec(Empty(start, ttl), es).clients[i];
            && multiset(c.stream)[f] + One(f in c.toVisit) + One(f in c.slow) + One(f in c.abandoned) == 1
            && (f in c.abandoned ==> !c.registered && c.closed)
  {
    Runs(start, ttl, es);
    var c := Exec(Empty(start, ttl), es).clients[i];
    assert Fits(Exec(Empty(start, ttl), es), c);
    assert Places(c, f) == 1;
  }

  /** Nothing else gets on a channel: every chat or presence frame there was offered, and is there once. */
  lemma NoStrayFrames(start: int, ttl: nat, es: seq<Event>, i: nat, f: Frame)
    requires i < |Exec(Empty(start, ttl), es).clients| && f in Exec(Empty(start, ttl), es).clients[i].stream
    ensures var c := Exec(Empty(start, ttl), es).clients[i];
            multiset(c.stream)[f] == 1 && (Broadcast(f) ==> f in c.offered)
  {
    Runs(start, ttl, es);
    var c := Exec(Empty(start, ttl), es).clients[i];
    assert Fits(Exec(Empty(start, ttl), es), c);
    assert Places(c, f) >= multiset(c.stream)[f] >= 1;
  }

  /** deliver offers a message to exactly the registered clients that may see it. */
  lemma DeliverReachesAll(start: int, ttl: nat, es: seq<Event>, n: nat, i: nat)
    requires var s := Exec(Empty(start, ttl), es); n in s.undelivered && i < |s.clients|
    ensures var s := Exec(Empty(start, ttl), es);
            && n < |s.made|
            && var m, device := s.made[n], s.clients[i].device;
               (Chat(n) in Next(s, DeliverChat(n)).clients[i].offered <==>
                  s.clients[i].registered && (m.to == [] || m.from == device || device in m.to))
  {
    Runs(start, ttl, es);
    var s := Exec(Empty(start, ttl), es);
    assert Fits(s, s.clients[i]);
    assert !Possible(s, s.clients[i].device, Chat(n));
  }

  /** The filter by age looks at each message by itself and keeps the order. */
  lemma {:induction false} FreshIsAFilter(a: seq<Msg>, b: seq<Msg>, cutoff: int)
    ensures Fresh(a + b, cutoff) == Fresh(a, cutoff) + Fresh(b, cutoff)
    ensures |b| == 1 ==> Fresh(b, cutoff) == if b[0].stamp >= cutoff then b else []
    decreases |b|
  {
    if b == [] {
      assert a + b == a && Fresh(b, cutoff) == [];
    } else {
      var front, last := b[..|b| - 1], b[|b| - 1];
      FreshIsAFilter(a, front, cutoff);
      assert a + b == (a + front) + [last] && b == front + [last];
      assert |b| == 1 ==> front == [] && Fresh(front, cutoff) == [] && b == [last];
      hide Fresh;
      FreshSnoc(a + front, last, cutoff);
      FreshSnoc(front, last, cutoff);
    }
  }

  /** So does the filter by visibility. */
  lemma {:induction false} VisibleIsAFilter(a: seq<Msg>, b: seq<Msg>, device: DeviceId)
    ensures Visible(a + b, device) == Visible(a, device) + Visible(b, device)
    ensures |b| == 1 ==> Visible(b, device) == if b[0].to == [] || b[0].from == device || device in b[0].to then b else []
    decreases |b|
  {
    if b == [] {
      assert a + b == a && Visible(b, device) == [];
    } else {
      var front, last := b[..|b| - 1], b[|b| - 1];
      VisibleIsAFilter(a, front, device);
      assert a + b == (a + front) + [last] && b == front + [last];
      assert |b| == 1 ==> front == [] && Visible(front, device) == [] && b == [last];
      hide Visible;
      VisibleSnoc(a + front, last, device);
      VisibleSnoc(front, last, device);
    }
  }

  // ---- history ------------------------------------------------------------------------------------------

  /**
   Compacting the history in place is unobservable: a snapshot holds exactly the messages ever added that
   are young enough and visible to the device, in the order in which they were added.  If it has waited for the
   lock, and a compaction with a later cutoff came first, this holds from that cutoff on, and nothing is shown that
   is older than the snapshot's own.
   */
  lemma SnapshotIsTheWholeLog(start: int, ttl: nat, es: seq<Event>, i: nat, wait: nat)
    requires var s := Exec(Empty(start, ttl), es); i < |s.clients| && s.clients[i].stage == Welcomed
    ensures var s := Exec(Empty(start, ttl), es);
            var cut, device := CutoffBefore(s, wait), s.clients[i].device;
            var snap := Next(s, TakeSnapshot(i, wait)).clients[i].snap;
            && snap.Some? && snap.value.at == |s.log|
            && (wait == 0 || s.lastCut <= cut ==> snap.value.msgs == Visible(Fresh(s.log, cut), device))
            && Fresh(snap.value.msgs, Since(s, cut)) == Visible(Fresh(s.log, Since(s, cut)), device)
            && Fresh(snap.value.msgs, cut) == snap.value.msgs
  {
    Runs(start, ttl, es);
    var s := Exec(Empty(start, ttl), es);
    var cut, device := CutoffBefore(s, wait), s.clients[i].device;
    SnapshotShows(s, cut, device);
    FreshVisible(Fresh(s.history, cut), cut, device);
    FreshFresh(s.history, cut, cut);
  }

  /**
   Whole-second stamps notwithstanding, a snapshot shows a visible message of age up to the retention and
   does not show one of age retention plus one second (plus what it has waited for the lock) or more.
   */
  lemma RetentionIsKept(start: int, ttl: nat, es: seq<Event>, i: nat, wait: nat, m: Msg)
    requires var s := Exec(Empty(start, ttl), es);
             && i < |s.clients| && s.clients[i].stage == Welcomed
             && m in s.log && (m.to == [] || m.from == s.clients[i].device || s.clients[i].device in m.to)
    ensures var s := Exec(Empty(start, ttl), es);
            var shown := Next(s, TakeSnapshot(i, wait)).clients[i].snap.value.msgs;
            && (s.now - m.sentAt <= ttl ==> m in shown)
            && (s.now - m.sentAt >= ttl + 1000 + wait ==> m !in shown)
  {
    SnapshotIsTheWholeLog(start, ttl, es, i, wait);
    Runs(start, ttl, es);
    TtlIsFixed(Empty(start, ttl), es);
    var s := Exec(Empty(start, ttl), es);
    var k :| 0 <= k < |s.log| && s.log[k] == m;
    assert s.made[m.serial] == m && m.stamp == Seconds(m.sentAt);
    var since, cut := Since(s, CutoffBefore(s, wait)), CutoffBefore(s, wait);
    var shown := Next(s, TakeSnapshot(i, wait)).clients[i].snap.value.msgs;
    VisibleHas(Fresh(s.log, since), s.clients[i].device, m);
    FreshHas(s.log, since, m);
    FreshHas(shown, since, m);
    FreshHas(shown, cut, m);
  }

  lemma {:induction false} TtlIsFixed(s: State, es: seq<Event>)
    ensures Exec(s, es).ttl == s.ttl
    decreases |es|
  {
    if es != [] {
      TtlIsFixed(Next(s, es[0]), es[1..]);
    }
  }

  /** From its snapshot on, a client keeps it. */
  predicate KeepsSnapshot(c: Client, d: Client) {
    d.device == c.device && (!NoSnapshotYet(c.stage) ==> !NoSnapshotYet(d.stage) && d.snap == c.snap)
  }

  lemma SnapshotStays(s: State, e: Event, i: nat)
    requires i < |s.clients|
    ensures i < |Next(s, e).clients| && KeepsSnapshot(s.clients[i], Next(s, e).clients[i])
  {
    if OfClient(e) {
      if e.c == i {
        MySnapshotStays(s, e, i);
      }
    } else {
      HubKeepsSnapshots(s, e, i);
    }
  }

  lemma HubKeepsSnapshots(s: State, e: Event, i: nat)
    requires i < |s.clients| && !OfClient(e)
    ensures i < |Next(s, e).clients| && KeepsSnapshot(s.clients[i], Next(s, e).clients[i])
  {
  }

  lemma MySnapshotStays(s: State, e: Event, i: nat)
    requires i < |s.clients| && OfClient(e)
    ensures i < |NextOf(s, e, i).clients| && KeepsSnapshot(s.clients[i], NextOf(s, e, i).clients[i])
  {
  }

  lemma {:induction false} SnapshotsStay(s: State, es: seq<Event>, i: nat)
    requires i < |s.clients|
    ensures i < |Exec(s, es).clients| && KeepsSnapshot(s.clients[i], Exec(s, es).clients[i])
    decreases |es|
  {
    if es != [] {
      SnapshotStays(s, es[0], i);
      SnapshotsStay(Next(s, es[0]), es[1..], i);
    }
  }

  /**
   For a client whose channel had room when its history frame came up, at any later moment at which it is still
   registered: every message visible to it had expired at its snapshot, is in its history frame, was offered to it as a
   frame of its own, or is just being delivered; in every interleaving of Register and SendMessage.
   */
  lemma JoinCompleteness(start: int, ttl: nat, before: seq<Event>, more: seq<Event>, i: nat, k: nat)
    requires
      var s := Exec(Empty(start, ttl), before);
      && i < |s.clients| && s.clients[i].stage.Snapped? && s.clients[i].registered
      && |s.clients[i].stream| - s.clients[i].taken < 256
    requires
      var t := Exec(Empty(start, ttl), before + [SendHistory(i)] + more);
      && i < |t.clients| && t.clients[i].registered && k < |t.log|
      && (t.log[k].to == [] || t.log[k].from == t.clients[i].device || t.clients[i].device in t.log[k].to)
    ensures
      var snap := Exec(Empty(start, ttl), before).clients[i].snap;
      var t := Exec(Empty(start, ttl), before + [SendHistory(i)] + more);
      var c, m := t.clients[i], t.log[k];
      && snap.Some? && c.snap == snap
      && (|| (k < snap.value.at && m.stamp < snap.value.since <= Cutoff(t))
          || (m in snap.value.msgs && History in c.stream)
          || Chat(m.serial) in c.offered
          || m.serial in t.undelivered)
  {
    var s := Exec(Empty(start, ttl), before);
    var t := Exec(Empty(start, ttl), before + [SendHistory(i)] + more);
    Runs(start, ttl, before);
    Runs(start, ttl, before + [SendHistory(i)] + more);
    ExecConcat(Empty(start, ttl), before + [SendHistory(i)], more);
    ExecSnoc(Empty(start, ttl), before, SendHistory(i));
    SnapshotStays(s, SendHistory(i), i);
    SnapshotsStay(Next(s, SendHistory(i)), more, i);
    HubOrder.StreamsGrow(Next(s, SendHistory(i)), more, i);
    HistoryGoesOut(s, i);
    assert Fits(t, t.clients[i]);
    SeenOrExpired(t, i, k);
  }

  lemma HistoryGoesOut(s: State, i: nat)
    requires Inv(s) && i < |s.clients| && s.clients[i].stage.Snapped? && s.clients[i].registered
    requires |s.clients[i].stream| - s.clients[i].taken < 256
    ensures
      var d := Next(s, SendHistory(i)).clients[i];
      d.snap.Some? && d.snap == s.clients[i].snap && (d.snap.value.msgs != [] ==> History in d.stream)
  {
    assert Fits(s, s.clients[i]);
    hide Inv, Fits, Next;
    HistoryFits(s, i);
  }

  lemma HistoryFits(s: State, i: nat)
    requires i < |s.clients| && s.clients[i].stage.Snapped? && s.clients[i].snap.Some? && s.clients[i].registered
    requires !s.clients[i].closed && |s.clients[i].stream| - s.clients[i].taken < 256
    ensures
      var c, d := s.clients[i], Next(s, SendHistory(i)).clients[i];
      d.snap == c.snap && d.stream == if c.snap.value.msgs != [] then c.stream + [History] else c.stream
  {
  }

  lemma SeenOrExpired(s: State, i: nat, k: nat)
    requires Inv(s) && i < |s.clients| && s.clients[i].registered && s.clients[i].snap.Some?
    requires k < |s.log| && VisibleTo(s.log[k], s.clients[i].device)
    ensures
      var c, m := s.clients[i], s.log[k];
      || (k < c.snap.value.at && m.stamp < c.snap.value.since <= Cutoff(s))
      || m in c.snap.value.msgs
      || Chat(m.serial) in c.offered
      || m.serial in s.undelivered
  {
    var c := s.clients[i];
    assert Fits(s, c);
    if k < c.snap.value.at {
      var before := s.log[..c.snap.value.at];
      assert before[k] == s.log[k];
      FreshHas(before, c.snap.value.since, s.log[k]);
      VisibleHas(Fresh(before, c.snap.value.since), c.device, s.log[k]);
      FreshHas(c.snap.value.msgs, c.snap.value.since, s.log[k]);
    }
  }

  // ---- direct messages -----------------------------------------------------------------------------------

  /** What sanitizeRecipients promises, said without saying how. */
  ghost predicate Sanitized(raw: seq<Option<DeviceId>>, self: DeviceId, out: seq<DeviceId>) {
    && |out| <= 16
    && (forall j :: 0 <= j < |out| ==> Some(out[j]) in raw && out[j] != self)
    && (forall j, k :: 0 <= j < k < |out| ==> out[j] != out[k])
    && (|out| < 16 ==> forall r :: r in raw && r.Some? && r.value != self ==> r.value in out)
  }

  lemma {:induction false} RecipientsAreSanitized(raw: seq<Option<DeviceId>>, self: DeviceId)
    ensures Sanitized(raw, self, Recipients(raw, self))
  {
    if raw != [] {
      RecipientsAreSanitized(raw[..|raw| - 1], self);
      assert raw == raw[..|raw| - 1] + [raw[|raw| - 1]];
    }
  }

  /** Later ids never displace earlier ones: the result for a prefix is a prefix of the result. */
  lemma {:induction false} FirstComeFirstServed(raw: seq<Option<DeviceId>>, more: seq<Option<DeviceId>>, self: DeviceId)
    ensures Recipients(raw, self) <= Recipients(raw + more, self)
    decreases |more|
  {
    if more == [] {
      assert raw + more == raw;
    } else {
      var front := more[..|more| - 1];
      assert (raw + more)[..|raw + more| - 1] == raw + front;
      FirstComeFirstServed(raw, front, self);
    }
  }

  /** A directed message has recipients if and only if some id in the list is valid and not the sender's. */
  lemma DirectedOrDropped(raw: seq<Option<DeviceId>>, self: DeviceId)
    ensures Recipients(raw, self) != [] <==> exists r :: r in raw && r.Some? && r.value != self
  {
    RecipientsAreSanitized(raw, self);
    if Recipients(raw, self) != [] {
      assert Some(Recipients(raw, self)[0]) in raw;
    }
  }

  /**
   A message whose incoming `to` list was not empty is never broadcast: over the whole run it only ever
   reaches the channels, retries and history frames of the sender's device and of at most 16 devices that
   were named in that list.
   */
  lemma DirectMessagesAreConfined(start: int, ttl: nat, es: seq<Event>, i: nat, n: nat)
    requires var s := Exec(Empty(start, ttl), es);
             && i < |s.clients| && n < |s.made| && s.made[n].asked != []
             && var c := s.clients[i];
                || Chat(n) in c.stream || Chat(n) in c.slow || Chat(n) in c.toVisit
                || (c.snap.Some? && s.made[n] in c.snap.value.msgs)
    ensures var s := Exec(Empty(start, ttl), es);
            var m := s.made[n];
            && (s.clients[i].device == m.from || s.clients[i].device in m.to)
            && 0 < |m.to| && Sanitized(m.asked, m.from, m.to)
  {
    Runs(start, ttl, es);
    var s := Exec(Empty(start, ttl), es);
    var c := s.clients[i];
    assert Fits(s, c);
    RecipientsAreSanitized(s.made[n].asked, s.made[n].from);
    assert Places(c, Chat(n)) == One(Chat(n) in c.offered);
    if c.snap.Some? && s.made[n] in c.snap.value.msgs {
      assert VisibleTo(s.made[n], c.device);
    } else {
      assert Possible(s, c.device, Chat(n));
    }
  }
}

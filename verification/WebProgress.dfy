/** How many PUTs the upload loop of the web client takes, and when it succeeds. */
module WebProgress {
  import opened Prelude
  import opened UploadModel
  import opened UploadInvariants
  import opened UploadTheorems
  import opened Exchange
  import opened WebLoop
  import opened WebTheorems

  // ---- the cost of an unreliable network ----------------------------------------------------------------------------

  /** How many chunks the file takes; an empty one needs a PUT if the server is asked to complete it. */
  function Chunks(size: nat): nat {
    if size == 0 then 1 else (size + CHUNK - 1) / CHUNK
  }

  /** The answers so far: 200 and 409 from the server, 200 and 409 from others, and failures. */
  datatype Tally = Tally(oks: nat, conflicts: nat, pages: nat, fails: nat)

  function Counts(puts: seq<Put>): Tally {
    if puts == [] then Tally(0, 0, 0, 0)
    else
      var c, x := Counts(puts[..|puts| - 1]), puts[|puts| - 1].answer;
      if IsPage(x) then c.(pages := c.pages + 1)
      else if Fails(x) then c.(fails := c.fails + 1)
      else if Is200(x) then c.(oks := c.oks + 1)
      else c.(conflicts := c.conflicts + 1)
  }

  lemma OneMore(puts: seq<Put>, put: Put)
    ensures
      var c, d, x := Counts(puts), Counts(puts + [put]), put.answer;
      d == if IsPage(x) then c.(pages := c.pages + 1) else if Fails(x) then c.(fails := c.fails + 1)
           else if Is200(x) then c.(oks := c.oks + 1) else c.(conflicts := c.conflicts + 1)
  {
    assert (puts + [put])[..|puts|] == puts;
  }

  lemma {:induction false} EveryPutIsCounted(puts: seq<Put>)
    ensures var c := Counts(puts); |puts| == c.oks + c.conflicts + c.pages + c.fails
  {
    if puts != [] {
      EveryPutIsCounted(puts[..|puts| - 1]);
    }
  }

  /** Nothing but time passes: one uploader, no cleanup, and no PUT that outlives its own failure. */
  ghost predicate Quiet(net: nat -> Turn) {
    forall k: nat :: Idle(net(k))
  }

  /** What the answers so far can have been, if nobody else acts. */
  ghost predicate Paced(l: Loop, file: Bytes) {
    PacedBy(l, file, Counts(l.puts))
  }

  ghost predicate PacedBy(l: Loop, file: Bytes, c: Tally) {
    && c.fails <= MAX_RETRIES * (c.oks + c.pages) + l.failures
    && c.conflicts + (if InSync(l) then 0 else 1) <= c.fails + c.pages
    && c.oks * CHUNK + Left(l, file) <= |file|
    && (c.oks == 0 || c.oks * CHUNK < |file|)
  }

  lemma TallyBound(c: Tally, size: nat)
    requires c.conflicts <= c.fails + c.pages && c.fails <= MAX_RETRIES * (c.oks + c.pages) + MAX_RETRIES
    requires c.oks == 0 || c.oks * CHUNK < size
    ensures c.oks + c.conflicts + c.pages + c.fails + 1 <= 21 * Chunks(size) + 22 * c.pages
  {
    assert c.oks + 1 <= Chunks(size);
  }

  /** What the server's own answer to a PUT means if nobody else acts. */
  ghost predicate Timely(l: Loop, file: Bytes, r: Exchanged) {
    && Left(l.(s := r.s), file) <= Left(l, file)
    && (r.x.Got? && r.x.response.Progress? && r.x.response.file.None? ==>
          && l.id.Some? && l.id.value in r.s.cells && r.x.response.offset == Reached(r.s.cells[l.id.value])
          && (if r.x.response.status == 200 then 0 < Left(l.(s := r.s), file) == Left(l, file) - CHUNK
              else r.x.response.status == 409 && !InSync(l)))
  }

  lemma QuietPut(l: Loop, file: Bytes, t: Turn)
    requires Informed(l, file) && Running(l) && Idle(t)
    ensures Timely(l, file, Sends(l, file, t))
  {
    ThisBody(l, file);
    if l.id.Some? {
      ReadyCell(l.s, l.id.value, file);
      PutTurnIs(l.s, l.id.value, file, l.offset, BodyAt(file, l.id, l.offset), t);
    } else {
      StrayTurns(l.s, l.offset, BodyAt(file, l.id, l.offset), t);
    }
  }

  lemma TurnedIsPaced(l: Loop, file: Bytes, r: Exchanged, t: Turn, next: Turn)
    requires Running(l) && Informed(l.(s := r.s), file) && Timely(l, file, r) && Paced(l, file)
    requires Usual(r.x) && l.failures <= MAX_RETRIES && Running(Turned(l, file, r, t, next))
    ensures Paced(Turned(l, file, r, t, next), file)
  {
    hide Informed, Left, Retry;
    var l1, m := Sent(l, file, r), Turned(l, file, r, t, next);
    OneMore(l.puts, l1.puts[|l.puts|]);
    SameSession(l.(s := r.s), l1, file);
    SameLeft(l.(s := r.s), l1, file);
    JudgedCounts(l1, r.x, t, next);
    if IsPage(r.x) {
      SameLeft(l1, m, file);
    } else {
      JudgeDescends(l1, file, r.x, t, next);
      if r.x.Got? && r.x.response.Progress? {
        SameLeft(l1, m, file);
      }
    }
  }

  lemma StepIsPaced(l: Loop, file: Bytes, net: nat -> Turn)
    requires Informed(l, file) && Counted(l, file) && Paced(l, file) && Idle(net(l.k))
    requires Running(l) && Running(Step(l, file, net))
    ensures Paced(Step(l, file, net), file)
  {
    hide PutTurn, Turned, Informed, Timely, Paced;
    PutIsSound(l, file, net(l.k));
    PutIsUsual(l, file, net(l.k));
    QuietPut(l, file, net(l.k));
    TurnedIsPaced(l, file, Sends(l, file, net(l.k)), net(l.k), net(l.k + 1));
  }

  /** At most 21 PUTs for each chunk, and 22 more for each page. */
  ghost predicate Bounded(l: Loop, file: Bytes) {
    |l.puts| <= 21 * Chunks(|file|) + 22 * Counts(l.puts).pages
  }

  /** A turn is one PUT. */
  lemma StepIsOnePut(l: Loop, file: Bytes, net: nat -> Turn)
    requires Informed(l, file) && Counted(l, file) && Running(l)
    ensures Step(l, file, net).puts == l.puts + [Put(l.offset, BodyAt(file, l.id, l.offset), Sends(l, file, net(l.k)).x)]
  {
    hide PutTurn, Judge;
    PutIsUsual(l, file, net(l.k));
    JudgedCounts(Sent(l, file, Sends(l, file, net(l.k))), Sends(l, file, net(l.k)).x, net(l.k), net(l.k + 1));
  }

  lemma StepIsBounded(l: Loop, file: Bytes, net: nat -> Turn)
    requires Informed(l, file) && Counted(l, file) && Paced(l, file) && Running(l)
    ensures Bounded(Step(l, file, net), file)
  {
    hide Step, Sends, BodyAt, Informed;
    StepIsOnePut(l, file, net);
    EveryPutIsCounted(l.puts);
    TallyBound(Counts(l.puts), |file|);
    OneMore(l.puts, Put(l.offset, BodyAt(file, l.id, l.offset), Sends(l, file, net(l.k)).x));
  }

  lemma {:induction false} AfterIsPaced(l: Loop, file: Bytes, net: nat -> Turn, n: nat)
    requires Informed(l, file) && Counted(l, file) && Paced(l, file) && Bounded(l, file) && Quiet(net)
    ensures Running(After(l, file, net, n)) ==> Paced(After(l, file, net, n), file)
    ensures Bounded(After(l, file, net, n), file)
  {
    hide Step, Informed, Counted, Paced, Bounded;
    if n > 0 {
      var m := After(l, file, net, n - 1);
      AfterIsPaced(l, file, net, n - 1);
      AfterIsSound(l, file, net, n - 1);
      if !Running(m) {
        Stays(m, file, net);
      } else {
        StepIsBounded(m, file, net);
        if Running(Step(m, file, net)) {
          StepIsPaced(m, file, net);
        }
      }
    }
  }

  /**
   If nobody else acts, an attempt sends at most 21 PUTs for each chunk of the file, and 22 for each 200 or 409 that
   is not the server's.
   */
  lemma PutsPerChunk(name: string, mime: string, file: Bytes, saved: Option<Id>, s0: State, net: nat -> Turn, n: nat)
    requires Inv(s0) && AllFaithful(s0) && OwnRecord(saved, s0, net(0), file) && Quiet(net)
    ensures Bounded(After(OpenSession(name, mime, file, saved, s0, net), file, net, n), file)
  {
    hide OpenSession;
    OpenBegins(name, mime, file, saved, s0, net);
    var l := OpenSession(name, mime, file, saved, s0, net);
    if Running(l) {
      AfterIsPaced(l, file, net, n);
    } else {
      OnceEnded(l, file, net, 0, n);
    }
  }

  // ---- when nothing goes wrong --------------------------------------------------------------------------------------

  /** The client has a session that can go on. */
  ghost predicate Uploading(l: Loop, file: Bytes) {
    Running(l) && l.inLoop && l.id.Some? && Underway(l.s, l.id.value, file) && Informed(l, file)
  }

  /** The server has got so much from this client's session. */
  function Arrived(l: Loop): nat
    requires l.id.Some? && l.id.value in l.s.cells
  {
    Reached(l.s.cells[l.id.value])
  }

  lemma SmoothStep(l: Loop, file: Bytes, net: nat -> Turn)
    requires Uploading(l, file) && Smooth(net(l.k))
    ensures
      var m := Step(l, file, net);
      && m.k == l.k + 1 && m.id == l.id && |m.puts| == |l.puts| + 1 && m.stop.None? && m.inLoop
      && (if !InSync(l) then Uploading(m, file) && InSync(m) && Arrived(m) == Arrived(l)
          else if Arrived(l) + CHUNK < |file| then Uploading(m, file) && InSync(m) && Arrived(m) == Arrived(l) + CHUNK
          else m.done.Some?)
  {
    hide PutTurn;
    ThisBody(l, file);
    ReadyCell(l.s, l.id.value, file);
    SmoothPut(l.s, l.id.value, file, l.offset, BodyAt(file, l.id, l.offset), net(l.k));
  }

  lemma {:induction false} StepFirst(l: Loop, file: Bytes, net: nat -> Turn, n: nat)
    ensures After(Step(l, file, net), file, net, n) == After(l, file, net, n + 1)
  {
    hide Step;
    if n > 0 {
      StepFirst(l, file, net, n - 1);
    }
  }

  /** On a smooth network every chunk takes one PUT, and an offset that is off takes one more. */
  lemma {:induction false} SmoothRun(l: Loop, file: Bytes, net: nat -> Turn) returns (n: nat)
    requires Uploading(l, file) && Arrived(l) <= |file| && forall j: nat :: l.k <= j ==> Smooth(net(j))
    ensures
      var m := After(l, file, net, n);
      && m.done.Some? && m.stop.None? && m.id == l.id
      && |m.puts| == |l.puts| + Chunks(|file| - Arrived(l)) + (if InSync(l) then 0 else 1)
    decreases |file| - Arrived(l), if InSync(l) then 0 else 1
  {
    hide Step, InSync;
    SmoothStep(l, file, net);
    var m := Step(l, file, net);
    if m.done.Some? {
      n := 1;
      assert After(l, file, net, 0) == l;
    } else {
      n := SmoothRun(m, file, net);
      StepFirst(l, file, net, n);
      n := n + 1;
    }
  }

  /** It returns the file, after so many PUTs. */
  ghost predicate Succeeds(l: Loop, puts: nat) {
    !Running(l) && l.id.Some? && l.stop.None? && Result(l).Success? && |l.puts| == puts
  }

  /** A new upload on a smooth network succeeds with one PUT a chunk, and with none if the file is empty. */
  lemma NewUploadSucceeds(name: string, mime: string, file: Bytes, s0: State, net: nat -> Turn) returns (n: nat)
    requires Inv(s0) && AllFaithful(s0) && net(0).freshId !in s0.cells && forall j: nat :: Smooth(net(j))
    ensures Succeeds(After(OpenSession(name, mime, file, None, s0, net), file, net, n),
                     if |file| == 0 then 0 else Chunks(|file|))
  {
    hide Step;
    OpenBegins(name, mime, file, None, s0, net);
    SmoothCreate(s0, net(0), name, mime, file);
    var l := OpenSession(name, mime, file, None, s0, net);
    n := 0;
    if |file| > 0 {
      n := SmoothRun(l, file, net);
    }
  }

  /** A recorded upload that can go on succeeds with one PUT for each chunk that is missing, and one at the very least. */
  lemma ResumedUploadSucceeds(name: string, mime: string, file: Bytes, saved: Id, s0: State, net: nat -> Turn)
    returns (n: nat)
    requires Underway(s0, saved, file) && forall j: nat :: Smooth(net(j))
    ensures Reached(s0.cells[saved]) <= |file|
    ensures Succeeds(After(OpenSession(name, mime, file, Some(saved), s0, net), file, net, n),
                     Chunks(|file| - Reached(s0.cells[saved])))
  {
    hide Step;
    ReadyCell(s0, saved, file);
    OnlyTimePasses(s0, net(0).before);
    MeanwhileKeepsReady(s0, net(0), saved, file);
    OpenBegins(name, mime, file, Some(saved), s0, net);
    n := SmoothRun(OpenSession(name, mime, file, Some(saved), s0, net), file, net);
  }
}

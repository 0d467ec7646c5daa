/** What the upload loop of the web client guarantees, against every network. */
module WebTheorems {
  import opened Prelude
  import opened UploadModel
  import opened UploadInvariants
  import opened UploadTheorems
  import opened Exchange
  import opened WebLoop

  // ---- openUploadSession ----------------------------------------------------------------------------------------

  ghost predicate Begun(l: Loop, file: Bytes) {
    Informed(l, file) && Counted(l, file) && l.puts == [] && l.failures == 0 && (Running(l) ==> InSync(l))
  }

  /** Nothing has been opened yet. */
  ghost predicate Fresh(l: Loop) {
    && Inv(l.s) && AllFaithful(l.s) && l.id.None? && l.offset.None? && l.done.None? && l.stop.None?
    && !l.inLoop && l.puts == [] && l.failures == 0
  }

  lemma CreateBegins(l: Loop, name: string, mime: string, file: Bytes, t: Turn)
    requires Fresh(l) && l.record.None?
    ensures Begun(CreateSession(l, name, mime, file, t), file)
  {
    hide Created, Meanwhile;
    MeanwhileIsSound(l.s, t);
    CreatedIsSound(Meanwhile(l.s, t), t, name, mime, file);
    var m := CreateSession(l, name, mime, file, t);
    var (s, x) := Created(Meanwhile(l.s, t), t, name, mime, file);
    assert m.s == s && Informed(m, file);
    assert Running(m) ==> InSync(m);
    assert Counted(m, file);
  }

  lemma OpenBegins(name: string, mime: string, file: Bytes, saved: Option<Id>, s0: State, net: nat -> Turn)
    requires Inv(s0) && AllFaithful(s0) && OwnRecord(saved, s0, net(0), file)
    ensures Begun(OpenSession(name, mime, file, saved, s0, net), file)
  {
    hide GetTurn, CreateSession;
    var l := Loop(s0, 0, None, None, None, 0, saved, false, None, []);
    if saved.None? {
      CreateBegins(l, name, mime, file, net(0));
    } else {
      LookUp(s0, saved.value, file, net(0));
      var r := GetTurn(s0, saved, net(0));
      CreateBegins(l.(s := r.s, k := 1, record := None), name, mime, file, net(1));
    }
  }

  // ---- every turn -------------------------------------------------------------------------------------------------

  lemma {:induction false} AfterIsSound(l: Loop, file: Bytes, net: nat -> Turn, n: nat)
    requires Informed(l, file) && Counted(l, file)
    ensures Informed(After(l, file, net, n), file) && Counted(After(l, file, net, n), file)
  {
    hide Step;
    if n > 0 {
      AfterIsSound(l, file, net, n - 1);
      StepIsSound(After(l, file, net, n - 1), file, net);
      StepIsCounted(After(l, file, net, n - 1), file, net);
    }
  }

  /** Giving up, a body of null, and errors that are 5xx, 400, 401 or without a status leave the resume record. */
  predicate LeavesRecord(o: WebLoop.Outcome) {
    match o
    case GaveUp => true
    case Broken => true
    case Failure(_, status) => status >= 500 || status == 400 || status == 401 || status == 0
    case Cancelled => false
    case Success(_, _) => false
  }

  /** What an attempt that has ended has come to. */
  ghost predicate Ended(l: Loop, file: Bytes)
    requires !Running(l)
  {
    && (l.stop.None? ==> l.id.Some?)
    && var o, record := Result(l), RecordAtEnd(l);
       && (o.Success? ==> o.id in l.s.cells && HoldsFile(l.s.cells[o.id], file) && o.file.size == |file| && record == None)
       && (l.puts != [] ==> record == if LeavesRecord(o) then l.id else None)
       && (l.puts != [] && record.Some? ==> Ready(l.s, record.value, file))
       && SlicesOnly(file, l.puts)
       && (o.GaveUp? <==> InARow(l.puts) > MAX_RETRIES)
  }

  lemma EndsSo(l: Loop, file: Bytes)
    requires Informed(l, file) && Counted(l, file) && !Running(l)
    ensures Ended(l, file)
  {
  }

  /**
   Whatever the network does: a file is returned only if the server has it registered and holds exactly its bytes;
   everything sent to a known offset was a slice of the file; the record is kept exactly for the errors that a later
   attempt may get over, and then the upload can go on; and it gives up exactly after more than 10 failures in a row.
   */
  lemma WhatIsReturned(name: string, mime: string, file: Bytes, saved: Option<Id>, s0: State, net: nat -> Turn, n: nat)
    requires Inv(s0) && AllFaithful(s0) && OwnRecord(saved, s0, net(0), file)
    requires !Running(After(OpenSession(name, mime, file, saved, s0, net), file, net, n))
    ensures Ended(After(OpenSession(name, mime, file, saved, s0, net), file, net, n), file)
  {
    hide OpenSession, After, Ended;
    OpenBegins(name, mime, file, saved, s0, net);
    AfterIsSound(OpenSession(name, mime, file, saved, s0, net), file, net, n);
    EndsSo(After(OpenSession(name, mime, file, saved, s0, net), file, net, n), file);
  }

  // ---- when it stops ----------------------------------------------------------------------------------------------

  /** The PUT of this turn is answered 200 or 409 with a body that is not the server's. */
  predicate Misled(l: Loop, net: nat -> Turn) {
    Running(l) && MeansPage(net(l.k).fate)
  }

  predicate MeansPage(fate: Fate) {
    fate.Foreign? && fate.status in {200, 409} && !fate.isNull
  }

  /** What is left of the file, as far as the server is concerned. */
  function Left(l: Loop, file: Bytes): nat {
    if l.id.Some? && l.id.value in l.s.cells && Reached(l.s.cells[l.id.value]) <= |file|
    then |file| - Reached(l.s.cells[l.id.value]) else |file|
  }

  /** The client is about to send from where the server is. */
  predicate InSync(l: Loop) {
    l.id.Some? ==> l.id.value in l.s.cells && l.offset == Some(Reached(l.s.cells[l.id.value]))
  }

  predicate Less(m: Loop, l: Loop, file: Bytes) {
    || Left(m, file) < Left(l, file)
    || (Left(m, file) == Left(l, file) && m.failures > l.failures)
    || (Left(m, file) == Left(l, file) && m.failures == l.failures && InSync(m) && !InSync(l))
  }

  /** What one PUT does to the upload, if the answer is not a page. */
  ghost predicate Heard(l: Loop, file: Bytes, r: Exchanged) {
    && Left(l.(s := r.s), file) <= Left(l, file)
    && (r.x.Got? && r.x.response.Progress? && r.x.response.file.None? ==>
          && l.id.Some? && l.id.value in r.s.cells && r.x.response.offset == Reached(r.s.cells[l.id.value])
          && (if r.x.response.status == 200 then Left(l.(s := r.s), file) < Left(l, file)
              else Left(l.(s := r.s), file) == Left(l, file) ==> !InSync(l)))
  }

  lemma PutIsHeard(l: Loop, file: Bytes, t: Turn)
    requires Informed(l, file) && Running(l)
    ensures Heard(l, file, Sends(l, file, t))
  {
    ThisBody(l, file);
    if l.id.Some? {
      ReadyCell(l.s, l.id.value, file);
      PutTurnIs(l.s, l.id.value, file, l.offset, BodyAt(file, l.id, l.offset), t);
    } else {
      StrayTurns(l.s, l.offset, BodyAt(file, l.id, l.offset), t);
    }
  }

  lemma GetIsHeard(l: Loop, file: Bytes, t: Turn)
    requires Informed(l, file) && Running(l)
    ensures Left(l.(s := GetTurn(l.s, l.id, t).s), file) <= Left(l, file)
  {
    if l.id.Some? {
      ReadyCell(l.s, l.id.value, file);
      GetTurnIs(l.s, l.id.value, file, t);
    }
  }

  lemma HeedKeeps(l: Loop, file: Bytes, x: Xhr)
    ensures Left(Heed(l, x), file) == Left(l, file) && Heed(l, x).failures == l.failures
  {
  }

  lemma RetryDescends(l: Loop, file: Bytes, err: WebLoop.Outcome, t: Turn, next: Turn)
    requires Informed(l, file) && Running(l) && Running(Retry(l, err, t, next))
    ensures
      var m := Retry(l, err, t, next);
      Left(m, file) <= Left(l, file) && m.failures == l.failures + 1
  {
    hide GetTurn, Informed, Heed, Left;
    GetIsHeard(l, file, next);
    var r := GetTurn(l.s, l.id, next);
    var m := l.(s := r.s, failures := l.failures + 1, k := l.k + 1);
    SameLeft(l.(s := r.s), m, file);
    HeedKeeps(m, file, r.x);
    assert Retry(l, err, t, next) == Heed(m, r.x);
  }

  lemma SameLeft(l: Loop, m: Loop, file: Bytes)
    requires m.s == l.s && m.id == l.id
    ensures Left(m, file) == Left(l, file)
    ensures m.offset == l.offset ==> InSync(m) == InSync(l)
  {
  }

  predicate IsPage(x: Xhr) {
    x.Page? && x.status in {200, 409} && !x.isNull
  }

  lemma JudgeDescends(l: Loop, file: Bytes, x: Xhr, t: Turn, next: Turn)
    requires Informed(l, file) && Running(l) && !IsPage(x) && Running(Judge(l, x, t, next))
    ensures
      var m := Judge(l, x, t, next);
      if x.Got? && x.response.Progress? then m == Adopt(l, x.response.status, Some(x.response.offset), x.response.file)
      else Left(m, file) <= Left(l, file) && m.failures == l.failures + 1
  {
    hide Retry, Informed, Left;
    if x.NetworkError? {
      RetryDescends(l, file, Failure(true, 0), t, next);
    } else if x.Got? && x.response.Plain? {
      RetryDescends(l, file, HttpError(x.response.status), t, next);
    } else if x.Page? && x.status !in {200, 409} {
      RetryDescends(l, file, HttpError(x.status), t, next);
    }
  }

  lemma TurnedDescends(l: Loop, file: Bytes, r: Exchanged, t: Turn, next: Turn)
    requires Running(l) && Informed(l.(s := r.s), file) && Heard(l, file, r) && !IsPage(r.x)
    requires Running(Turned(l, file, r, t, next))
    ensures Less(Turned(l, file, r, t, next), l, file)
  {
    hide Judge, Informed, Left;
    var l1 := Sent(l, file, r);
    SameSession(l.(s := r.s), l1, file);
    SameLeft(l.(s := r.s), l1, file);
    JudgeDescends(l1, file, r.x, t, next);
    if r.x.Got? && r.x.response.Progress? {
      SameLeft(l1, Judge(l1, r.x, t, next), file);
    }
  }

  lemma OnlyPagesMislead(l: Loop, file: Bytes, net: nat -> Turn)
    requires Running(l)
    ensures IsPage(Sends(l, file, net(l.k)).x) <==> Misled(l, net)
  {
  }

  /** A turn that is not misled and not the last one lowers the measure. */
  lemma StepDescends(l: Loop, file: Bytes, net: nat -> Turn)
    requires Informed(l, file) && Running(l) && !Misled(l, net) && Running(Step(l, file, net))
    ensures Less(Step(l, file, net), l, file)
  {
    hide PutTurn, Turned, Less, Heard, Misled;
    PutIsSound(l, file, net(l.k));
    PutIsHeard(l, file, net(l.k));
    OnlyPagesMislead(l, file, net);
    TurnedDescends(l, file, Sends(l, file, net(l.k)), net(l.k), net(l.k + 1));
  }

  predicate Quits(l: Loop, file: Bytes, net: nat -> Turn, n: nat) {
    !Running(After(l, file, net, n))
  }

  /** From turn `m` on, no PUT is answered by a page. */
  ghost predicate CalmFrom(l: Loop, file: Bytes, net: nat -> Turn, m: nat) {
    forall j: nat :: m <= j ==> !Misled(After(l, file, net, j), net)
  }

  lemma {:induction false} Calms(l: Loop, file: Bytes, net: nat -> Turn, m: nat) returns (n: nat)
    requires Informed(l, file) && Counted(l, file) && CalmFrom(l, file, net, m)
    ensures Quits(l, file, net, n)
    decreases Left(After(l, file, net, m), file), MAX_RETRIES + 1 - After(l, file, net, m).failures,
              if InSync(After(l, file, net, m)) then 0 else 1
  {
    hide Step, Informed, Left, InSync;
    n := m;
    if !Quits(l, file, net, m) {
      AfterIsSound(l, file, net, m);
      AfterIsSound(l, file, net, m + 1);
      if !Quits(l, file, net, m + 1) {
        assert !Misled(After(l, file, net, m), net);
        StepDescends(After(l, file, net, m), file, net);
        n := Calms(l, file, net, m + 1);
      } else {
        n := m + 1;
      }
    }
  }

  lemma Stays(l: Loop, file: Bytes, net: nat -> Turn)
    requires !Running(l)
    ensures Step(l, file, net) == l
  {
  }

  lemma {:induction false} OnceEnded(l: Loop, file: Bytes, net: nat -> Turn, n: nat, j: nat)
    requires Quits(l, file, net, n) && n <= j
    ensures After(l, file, net, j) == After(l, file, net, n)
  {
    if n < j {
      OnceEnded(l, file, net, n, j - 1);
    }
  }

  /**
   The loop ends if and only if only finitely many of its PUTs are answered 200 or 409 by somebody who is not the
   server: such an answer costs no retry and no pause, and everything else uses up the file or the retries.
   */
  lemma StopsIffCalm(l: Loop, file: Bytes, net: nat -> Turn)
    requires Informed(l, file) && Counted(l, file)
    ensures (exists n: nat :: Quits(l, file, net, n)) <==> (exists m: nat :: CalmFrom(l, file, net, m))
  {
    if n: nat :| Quits(l, file, net, n) {
      forall j: nat | n <= j
        ensures !Misled(After(l, file, net, j), net)
      {
        OnceEnded(l, file, net, n, j);
      }
      assert CalmFrom(l, file, net, n);
    }
    if m: nat :| CalmFrom(l, file, net, m) {
      var n := Calms(l, file, net, m);
    }
  }

  lemma JudgeIsLater(l: Loop, x: Xhr, t: Turn, next: Turn)
    ensures Judge(l, x, t, next).k >= l.k
  {
    hide GetTurn;
  }

  lemma StepIsLater(l: Loop, file: Bytes, net: nat -> Turn)
    requires Running(l)
    ensures Step(l, file, net).k > l.k
  {
    hide PutTurn, Judge;
    JudgeIsLater(Sent(l, file, Sends(l, file, net(l.k))), Sends(l, file, net(l.k)).x, net(l.k), net(l.k + 1));
  }

  /** Every turn is an exchange, so pages that have stopped coming have stopped misleading. */
  lemma {:induction false} TurnsAreExchanges(l: Loop, file: Bytes, net: nat -> Turn, n: nat)
    requires Running(After(l, file, net, n))
    ensures After(l, file, net, n).k >= l.k + n
  {
    hide Step;
    if n > 0 {
      var m := After(l, file, net, n - 1);
      if Running(m) {
        TurnsAreExchanges(l, file, net, n - 1);
        StepIsLater(m, file, net);
      } else {
        Stays(m, file, net);
      }
    }
  }

  /** An attempt on a network that shows finitely many pages ends. */
  lemma FewPagesSuffice(l: Loop, file: Bytes, net: nat -> Turn, last: nat) returns (n: nat)
    requires Informed(l, file) && Counted(l, file) && forall j: nat :: last <= j ==> !MeansPage(net(j).fate)
    ensures Quits(l, file, net, n)
  {
    forall j: nat | last <= j
      ensures !Misled(After(l, file, net, j), net)
    {
      if Running(After(l, file, net, j)) {
        TurnsAreExchanges(l, file, net, j);
      }
    }
    n := Calms(l, file, net, last);
  }

  /** A proxy that answers every PUT with a page of its own keeps the loop going for ever. */
  lemma {:induction false} PagesForEver(l: Loop, file: Bytes, net: nat -> Turn, n: nat)
    requires Running(l) && forall j: nat :: l.k <= j ==> MeansPage(net(j).fate)
    ensures Running(After(l, file, net, n)) && |After(l, file, net, n).puts| == |l.puts| + n
  {
    hide PutTurn;
    if n > 0 {
      PagesForEver(l, file, net, n - 1);
      TurnsAreExchanges(l, file, net, n - 1);
      OnlyPagesMislead(After(l, file, net, n - 1), file, net);
    }
  }
}

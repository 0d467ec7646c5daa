/** What the web client makes of failures: which it gets over, and what a new attempt makes of the record they leave. */
module WebResume {
  import opened Prelude
  import opened UploadModel
  import opened UploadInvariants
  import opened UploadTheorems
  import opened Exchange
  import opened WebLoop
  import opened WebTheorems
  import opened WebProgress

  // ---- one failure ------------------------------------------------------------------------------------------------

  /** The PUT is answered with a status other than 200 and 409, by whomever. */
  function StatusOf(x: Xhr): Option<nat> {
    match x
    case NetworkError => Some(0)
    case UserAbort => None
    case Got(Plain(status)) => Some(status)
    case Got(Progress(_, _, _)) => None
    case Page(status, _) => if status in {200, 409} then None else Some(status)
  }

  /** An error that is not 5xx, not 400 and has a status ends the attempt with that status; an abort cancels it. */
  lemma FinalFailure(l: Loop, file: Bytes, net: nat -> Turn)
    requires Informed(l, file) && Running(l)
    ensures
      var m, x := Step(l, file, net), Sends(l, file, net(l.k)).x;
      && (x.UserAbort? ==> m.stop == Some(WebLoop.Cancelled))
      && (StatusOf(x).Some? && 0 < StatusOf(x).value < 500 && StatusOf(x).value != 400 ==>
            m.stop == Some(Failure(false, StatusOf(x).value)) && m.s == Sends(l, file, net(l.k)).s)
  {
    hide PutTurn, GetTurn;
    PutIsUsual(l, file, net(l.k));
  }

  /** Any other error counts; after more than ten in a row the attempt is given up, and before it the server is asked. */
  lemma RetriedFailure(l: Loop, file: Bytes, net: nat -> Turn)
    requires Informed(l, file) && Running(l)
    requires
      var status := StatusOf(Sends(l, file, net(l.k)).x);
      status.Some? && (status.value == 0 || status.value == 400 || status.value >= 500)
    ensures
      var m := Step(l, file, net);
      && m.id == l.id && m.failures == l.failures + 1
      && if l.failures >= 10 then m.stop == Some(GaveUp)
         else if net(l.k).cancelledInPause then m.stop == Some(WebLoop.Cancelled)
         else Asks(l, m, GetTurn(Sends(l, file, net(l.k)).s, l.id, net(l.k + 1)))
  {
    hide PutTurn, GetTurn, Heed;
    PutIsUsual(l, file, net(l.k));
    var r := Sends(l, file, net(l.k));
    var l1 := Sent(l, file, r).(failures := l.failures + 1);
    var g := GetTurn(r.s, l.id, net(l.k + 1));
    HeedIs(l1.(s := g.s, k := l1.k + 1), g.x);
  }

  /** What the answer to the GET after a failure leads to. */
  predicate Asks(l: Loop, m: Loop, g: Exchanged) {
    && m.s == g.s && m.k == l.k + 2
    && match g.x
       case NetworkError => Running(m) && m.offset == l.offset
       case UserAbort => m.stop == Some(WebLoop.Cancelled)
       case Got(Progress(_, offset, info)) => m.stop.None? && m.offset == Some(offset) && m.done == info
       case Got(Plain(status)) => m.stop.Some? && m.stop.value.Failure? && m.stop.value.status == status
       case Page(status, isNull) =>
         if status != 200 then m.stop.Some? && m.stop.value.Failure? && m.stop.value.status == status
         else if isNull then m.stop == Some(Broken)
         else Running(m) && m.offset.None?
  }

  lemma HeedIs(l: Loop, x: Xhr)
    requires Running(l)
    ensures
      var m := Heed(l, x);
      && m.id == l.id && m.failures == l.failures && m.s == l.s && m.k == l.k
      && match x
         case NetworkError => Running(m) && m.offset == l.offset
         case UserAbort => m.stop == Some(WebLoop.Cancelled)
         case Got(Progress(_, offset, info)) => m.stop.None? && m.offset == Some(offset) && m.done == info
         case Got(Plain(status)) => m.stop.Some? && m.stop.value.Failure? && m.stop.value.status == status
         case Page(status, isNull) =>
           if status != 200 then m.stop.Some? && m.stop.value.Failure? && m.stop.value.status == status
           else if isNull then m.stop == Some(Broken)
           else Running(m) && m.offset.None?
  {
  }

  // ---- losses in a row --------------------------------------------------------------------------------------------

  /** Nothing gets through, and nobody else acts. */
  ghost predicate Dead(t: Turn) {
    Idle(t) && t.fate.Lost? && !t.cancelledInPause
  }

  /** From exchange `from` on, the next n turns of the loop, two exchanges each, are lost and then all goes well. */
  ghost predicate DeadFor(net: nat -> Turn, from: nat, n: nat) {
    && (forall j: nat :: from <= j < from + 2 * n ==> Dead(net(j)))
    && (forall j: nat :: from + 2 * n <= j ==> Smooth(net(j)))
  }

  lemma DeadExchange(s: State, id: Option<Id>, offset: Option<int>, body: Bytes, t: Turn)
    requires Inv(s) && AllFaithful(s) && Dead(t)
    ensures var r := PutTurn(s, id, offset, body, t);
            r.x == NetworkError && r.s.cells == s.cells && Inv(r.s) && AllFaithful(r.s)
    ensures var g := GetTurn(s, id, t);
            g.x == NetworkError && g.s.cells == s.cells && Inv(g.s) && AllFaithful(g.s)
  {
    OnlyTimePasses(s, t.before);
    MeanwhileIsSound(s, t);
    if id.Some? && id.value in s.cells {
      assert WithCell(Meanwhile(s, t), id.value, s.cells[id.value]) == Meanwhile(s, t);
    }
  }

  lemma DeadStep(l: Loop, file: Bytes, net: nat -> Turn)
    requires Uploading(l, file) && Dead(net(l.k)) && Dead(net(l.k + 1))
    ensures
      var m := Step(l, file, net);
      && m.failures == l.failures + 1 && m.inLoop && m.id == l.id && m.record == l.record && |m.puts| == |l.puts| + 1
      && (l.failures >= 10 ==> m.stop == Some(GaveUp) && m.s.cells == l.s.cells && Inv(m.s) && AllFaithful(m.s))
      && (l.failures < 10 ==> Uploading(m, file) && Arrived(m) == Arrived(l) && InSync(m) == InSync(l) && m.k == l.k + 2)
  {
    hide PutTurn, GetTurn, Turned, Inv, AllFaithful, Idle;
    var r := Sends(l, file, net(l.k));
    DeadExchange(l.s, l.id, l.offset, BodyAt(file, l.id, l.offset), net(l.k));
    var g := GetTurn(r.s, l.id, net(l.k + 1));
    DeadExchange(r.s, l.id, None, [], net(l.k + 1));
    DeadRetry(l, file, r, g, net(l.k), net(l.k + 1));
  }

  lemma DeadRetry(l: Loop, file: Bytes, r: Exchanged, g: Exchanged, t: Turn, next: Turn)
    requires Running(l) && r.x == NetworkError && g == GetTurn(r.s, l.id, next) && g.x == NetworkError && !t.cancelledInPause
    ensures
      var m := Turned(l, file, r, t, next);
      var n := l.(puts := l.puts + [Put(l.offset, BodyAt(file, l.id, l.offset), r.x)], failures := l.failures + 1);
      m == if l.failures >= 10 then n.(s := r.s, k := l.k + 1, stop := Some(GaveUp)) else n.(s := g.s, k := l.k + 2)
  {
    hide GetTurn, PutTurn;
  }

  lemma {:induction false} DeadRun(l: Loop, file: Bytes, net: nat -> Turn, n: nat)
    requires Uploading(l, file) && l.failures + n <= 10
    requires forall j: nat :: l.k <= j < l.k + 2 * n ==> Dead(net(j))
    ensures
      var m := After(l, file, net, n);
      && Uploading(m, file) && m.k == l.k + 2 * n && m.id == l.id && m.record == l.record && m.failures == l.failures + n
      && |m.puts| == |l.puts| + n && Arrived(m) == Arrived(l) && InSync(m) == InSync(l)
    decreases n
  {
    hide Step, Uploading, InSync;
    if n > 0 {
      DeadStep(l, file, net);
      DeadRun(Step(l, file, net), file, net, n - 1);
      StepFirst(l, file, net, n - 1);
    }
  }

  lemma {:induction false} AfterAfter(l: Loop, file: Bytes, net: nat -> Turn, n: nat, m: nat)
    ensures After(After(l, file, net, n), file, net, m) == After(l, file, net, n + m)
  {
    hide Step;
    if m > 0 {
      AfterAfter(l, file, net, n, m - 1);
    }
  }

  /** Ten turns in a row may be lost: each costs its PUT, and the upload succeeds. */
  lemma TenLossesAreSurvived(l: Loop, file: Bytes, net: nat -> Turn, n: nat) returns (m: nat)
    requires Uploading(l, file) && Arrived(l) <= |file| && l.failures == 0 && n <= 10 && DeadFor(net, l.k, n)
    ensures Succeeds(After(l, file, net, m), |l.puts| + n + Chunks(|file| - Arrived(l)) + (if InSync(l) then 0 else 1))
  {
    hide Step;
    DeadRun(l, file, net, n);
    m := SmoothRun(After(l, file, net, n), file, net);
    AfterAfter(l, file, net, n, m);
    m := n + m;
  }

  /** The eleventh is one too many: the attempt is given up, with the record and the session kept. */
  lemma ElevenAreNot(l: Loop, file: Bytes, net: nat -> Turn)
    requires Uploading(l, file) && l.failures == 0 && l.record == l.id
    requires forall j: nat :: l.k <= j < l.k + 22 ==> Dead(net(j))
    ensures
      var m := After(l, file, net, 11);
      && m.stop == Some(GaveUp) && RecordAtEnd(m) == l.id
      && Underway(m.s, l.id.value, file) && Reached(m.s.cells[l.id.value]) == Arrived(l)
  {
    hide Step, Uploading, InSync, Underway, Inv, AllFaithful;
    DeadRun(l, file, net, 10);
    var m := After(l, file, net, 10);
    assert m.k == l.k + 20 && Dead(net(m.k)) && Dead(net(m.k + 1));
    DeadStep(m, file, net);
    assert After(l, file, net, 11) == Step(m, file, net);
    StaysUnderway(m, Step(m, file, net), file);
  }

  lemma StaysUnderway(l: Loop, m: Loop, file: Bytes)
    requires Uploading(l, file) && m.s.cells == l.s.cells && Inv(m.s) && AllFaithful(m.s)
    ensures Underway(m.s, l.id.value, file)
  {
  }

  // ---- the next attempt ---------------------------------------------------------------------------------------------

  /**
   An attempt that gave up on an upload the server can still go on with: a new one goes on where the old one was, with
   one PUT for each chunk that is missing.
   */
  lemma TheNextAttemptGoesOn(l: Loop, name: string, mime: string, file: Bytes, net: nat -> Turn) returns (n: nat)
    requires Counted(l, file) && l.puts != [] && l.stop == Some(GaveUp)
    requires l.id.Some? && Underway(l.s, l.id.value, file) && forall j: nat :: Smooth(net(j))
    ensures Reached(l.s.cells[l.id.value]) <= |file|
    ensures
      Succeeds(After(OpenSession(name, mime, file, RecordAtEnd(l), l.s, net), file, net, n),
               Chunks(|file| - Reached(l.s.cells[l.id.value])))
  {
    assert RecordAtEnd(l) == l.id;
    n := ResumedUploadSucceeds(name, mime, file, l.id.value, l.s, net);
  }

  lemma NobodyKnows(s: State, id: Id, t: Turn)
    requires Inv(s) && AllFaithful(s) && id !in s.cells && Smooth(t)
    ensures
      var m := Meanwhile(s, t);
      GetTurn(s, Some(id), t) == Exchanged(m, Xhr.Got(Plain(404))) && m.cells == s.cells && Inv(m) && AllFaithful(m)
  {
    OnlyTimePasses(s, t.before);
    MeanwhileIsSound(s, t);
  }

  /** A record the server knows nothing of any more leads to a new upload, at the cost of one exchange. */
  lemma ForgottenRecord(name: string, mime: string, file: Bytes, saved: Id, s0: State, net: nat -> Turn) returns (n: nat)
    requires Inv(s0) && AllFaithful(s0) && saved !in s0.cells && net(1).freshId !in s0.cells
    requires forall j: nat :: Smooth(net(j))
    ensures
      var l := After(OpenSession(name, mime, file, Some(saved), s0, net), file, net, n);
      Succeeds(l, if |file| == 0 then 0 else Chunks(|file|)) && l.id == Some(net(1).freshId)
  {
    hide Step;
    NobodyKnows(s0, saved, net(0));
    OpenBegins(name, mime, file, Some(saved), s0, net);
    SmoothCreate(Meanwhile(s0, net(0)), net(1), name, mime, file);
    hide GetTurn, Created, Meanwhile, Inv, AllFaithful, Smooth;
    var l := OpenSession(name, mime, file, Some(saved), s0, net);
    n := 0;
    if |file| > 0 {
      n := SmoothRun(l, file, net);
    }
  }

  /** A record of an upload that is complete is answered with the file, and nothing is sent. */
  lemma FinishedRecord(name: string, mime: string, file: Bytes, saved: Id, s0: State, net: nat -> Turn)
    requires Ready(s0, saved, file) && s0.cells[saved].file.Some? && Smooth(net(0)) && !net(0).fate.stale
    ensures
      var l := OpenSession(name, mime, file, Some(saved), s0, net);
      Succeeds(l, 0) && l.id == Some(saved) && RecordAtEnd(l) == None
  {
    OnlyTimePasses(s0, net(0).before);
    MeanwhileKeepsReady(s0, net(0), saved, file);
    ReadyCell(s0, saved, file);
  }

  /** What becomes of the record when no session can be opened. */
  lemma OpeningFails(name: string, mime: string, file: Bytes, saved: Option<Id>, s0: State, net: nat -> Turn)
    ensures
      var l := OpenSession(name, mime, file, saved, s0, net);
      var x := if saved.Some? then GetTurn(s0, saved, net(0)).x else Created(Meanwhile(s0, net(0)), net(0), name, mime, file).1;
      && (x.NetworkError? ==> l.stop == Some(Failure(true, 0)) && RecordAtEnd(l) == saved)
      && (x.UserAbort? ==> l.stop == Some(WebLoop.Cancelled) && RecordAtEnd(l) == saved)
      && (x.Got? && x.response.Plain? && saved.None? ==>
            var status := x.response.status;
            l.stop == Some(Failure(status >= 500 || status == 400 || status == 0, status)) && RecordAtEnd(l) == None)
  {
    hide GetTurn, Created;
  }
}

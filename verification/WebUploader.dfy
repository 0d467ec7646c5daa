/**
 The upload code of the web client, statement by statement.  Each method computes what the machine in WebLoop does,
 so that what is proved of the machine holds of the code.
 */
module WebUploader {
  import opened Prelude
  import opened UploadModel
  import opened UploadInvariants
  import opened UploadTheorems
  import opened Exchange
  import opened WebLoop
  import opened WebTheorems
  import opened WebProgress

  /** openUploadSession; `stop` is the error it throws. */
  method OpenUploadSession(name: string, mime: string, file: Bytes, saved: Option<Id>, s0: State, net: nat -> Turn)
    returns (stop: Option<WebLoop.Outcome>, s: State, k: nat, id: Option<Id>, offset: Option<int>, done: Option<FileInfo>,
             record: Option<Id>)
    ensures Loop(s, k, id, offset, done, 0, record, stop.None?, stop, []) == OpenSession(name, mime, file, saved, s0, net)
  {
    hide GetTurn, Created;
    stop, s, k, id, offset, done, record := None, s0, 0, None, None, None, saved;
    if saved.Some? {
      var r := GetTurn(s, saved, net(0));
      s, k := r.s, 1;
      match r.x {
        case NetworkError => stop := Some(Failure(true, 0)); return;
        case UserAbort => stop := Some(WebLoop.Cancelled); return;
        case Got(Progress(_, known, info)) => id, offset, done := saved, Some(known), info; return;
        case Got(Plain(_)) => record := None;
        case Page(_, _) => record := None;
      }
    }
    var t := net(k);
    k := k + 1;
    var (s1, x) := Created(Meanwhile(s, t), t, name, mime, file);
    s := s1;
    match x {
      case NetworkError => stop := Some(Failure(true, 0));
      case UserAbort => stop := Some(WebLoop.Cancelled);
      case Got(Plain(status)) => stop := Some(HttpError(status));
      case Got(Progress(_, start, info)) =>
        if info.None? {
          record := Some(t.freshId);
        }
        id, offset, done := Some(t.freshId), Some(start), info;
      case Page(status, isNull) =>
        if status != 201 {
          stop := Some(HttpError(status));
        } else if isNull {
          stop := Some(Broken);
        } else {
          record, offset := None, Some(0);
        }
    }
  }

  /** The inner catch block, entered with `failures` not yet counted up. */
  method AfterFailure(ghost l: Loop, err: WebLoop.Outcome, s0: State, k0: nat, id: Option<Id>, offset0: Option<int>,
                      failures0: nat, t: Turn, next: Turn)
    returns (stop: Option<WebLoop.Outcome>, s: State, k: nat, offset: Option<int>, done: Option<FileInfo>, failures: nat)
    requires Running(l) && l.s == s0 && l.k == k0 && l.id == id && l.offset == offset0 && l.failures == failures0
    ensures Retry(l, err, t, next)
         == l.(s := s, k := k, offset := offset, done := done, failures := failures, stop := stop)
  {
    hide GetTurn;
    s, k, offset, done, failures, stop := s0, k0, offset0, None, failures0, None;
    if !err.Failure? || !err.retryable {
      stop := Some(err);
      return;
    }
    failures := failures + 1;
    if failures > MAX_RETRIES {
      stop := Some(GaveUp);
      return;
    }
    if t.cancelledInPause {
      stop := Some(WebLoop.Cancelled);
      return;
    }
    var r := GetTurn(s, id, next);
    s, k := r.s, k + 1;
    match r.x {
      case NetworkError =>
      case UserAbort => stop := Some(WebLoop.Cancelled);
      case Got(Plain(status)) => stop := Some(HttpError(status));
      case Got(Progress(_, known, info)) => offset, done := Some(known), info;
      case Page(status, isNull) =>
        if status != 200 {
          stop := Some(HttpError(status));
        } else if isNull {
          stop := Some(Broken);
        } else {
          offset := None;
        }
    }
  }

  /** The error that the code in the try block throws for an answer that is neither 200 nor 409. */
  function ErrorOf(x: Xhr): Option<WebLoop.Outcome> {
    match x
    case NetworkError => Some(Failure(true, 0))
    case UserAbort => Some(WebLoop.Cancelled)
    case Got(Plain(status)) => Some(HttpError(status))
    case Got(Progress(_, _, _)) => None
    case Page(status, isNull) =>
      if status !in {200, 409} then Some(HttpError(status)) else if isNull then Some(Broken) else None
  }

  lemma NoRetry(l: Loop, err: WebLoop.Outcome, t: Turn, next: Turn)
    requires !err.Failure? || !err.retryable
    ensures Retry(l, err, t, next) == Stop(l, err)
  {
    hide GetTurn;
  }

  lemma JudgedByError(l: Loop, x: Xhr, t: Turn, next: Turn)
    requires Running(l)
    ensures
      Judge(l, x, t, next) ==
      (if ErrorOf(x).Some? then Retry(l, ErrorOf(x).value, t, next)
       else if x.Page? then Adopt(l, x.status, None, None)
       else Adopt(l, x.response.status, Some(x.response.offset), x.response.file))
  {
    hide Retry;
    if x.UserAbort? || x.Page? {
      NoRetry(l, if x.UserAbort? then WebLoop.Cancelled else Broken, t, next);
    }
  }

  /** One turn is the PUT, and then the catch block or the server's state. */
  lemma StepByError(l: Loop, file: Bytes, net: nat -> Turn)
    requires Running(l)
    ensures
      var r, t, next := Sends(l, file, net(l.k)), net(l.k), net(l.k + 1);
      var l1 := Sent(l, file, r);
      Step(l, file, net) ==
      (if ErrorOf(r.x).Some? then Retry(l1, ErrorOf(r.x).value, t, next)
       else if r.x.Page? then Adopt(l1, r.x.status, None, None)
       else Adopt(l1, r.x.response.status, Some(r.x.response.offset), r.x.response.file))
  {
    hide PutTurn, Judge, Retry;
    var r := Sends(l, file, net(l.k));
    JudgedByError(Sent(l, file, r), r.x, net(l.k), net(l.k + 1));
  }

  /** A turn that is not the last one lowers the variant of the loop. */
  lemma TurnDescends(l: Loop, file: Bytes, net: nat -> Turn, last: nat)
    requires Informed(l, file) && Counted(l, file) && Running(l)
    requires forall j: nat :: last <= j ==> !MeansPage(net(j).fate)
    ensures l.failures <= MAX_RETRIES
    ensures var m := Step(l, file, net); m.k > l.k && (Running(m) ==> l.k < last || Less(m, l, file))
  {
    hide Step, Less;
    StepIsLater(l, file, net);
    if l.k >= last && Running(Step(l, file, net)) {
      StepDescends(l, file, net);
    }
  }

  /** It succeeds on a smooth network, whenever it ends. */
  lemma SucceedsInTheEnd(name: string, mime: string, file: Bytes, s0: State, net: nat -> Turn, n: nat)
    requires Inv(s0) && AllFaithful(s0) && net(0).freshId !in s0.cells && forall j: nat :: Smooth(net(j))
    requires !Running(After(OpenSession(name, mime, file, None, s0, net), file, net, n))
    ensures Succeeds(After(OpenSession(name, mime, file, None, s0, net), file, net, n),
                     if |file| == 0 then 0 else Chunks(|file|))
  {
    hide OpenSession, After;
    var m := NewUploadSucceeds(name, mime, file, s0, net);
    var l := OpenSession(name, mime, file, None, s0, net);
    if m <= n {
      OnceEnded(l, file, net, m, n);
    } else {
      OnceEnded(l, file, net, n, m);
    }
  }

  /** What the code returns is what the machine comes to after n turns. */
  ghost predicate EndsAs(l: Loop, file: Bytes, o: WebLoop.Outcome, s: State, record: Option<Id>) {
    !Running(l) && Ended(l, file) && o == Result(l) && s == l.s && record == RecordAtEnd(l)
  }

  /**
   uploadResumable, on a network where nobody but the server answers a PUT with 200 or 409 any more from exchange `last`
   on.  It ends there; if nobody else acts it has sent at most 21 PUTs for each chunk and 22 for each answer that was not
   the server's; and if nothing goes wrong a new upload succeeds.
   */
  method UploadResumable(name: string, mime: string, file: Bytes, saved: Option<Id>, s0: State, net: nat -> Turn,
                         ghost last: nat)
    returns (o: WebLoop.Outcome, s: State, record: Option<Id>)
    requires Inv(s0) && AllFaithful(s0) && OwnRecord(saved, s0, net(0), file)
    requires forall j: nat :: last <= j ==> !MeansPage(net(j).fate)
    ensures exists n: nat ::
              var l := After(OpenSession(name, mime, file, saved, s0, net), file, net, n);
              EndsAs(l, file, o, s, record) && (Quiet(net) ==> Bounded(l, file))
    ensures saved.None? && net(0).freshId !in s0.cells && (forall j: nat :: Smooth(net(j))) ==> o.Success?
  {
    hide OpenSession, PutTurn, Informed, Counted, Bounded, Retry, Left, InSync, Step;
    ghost var l0, puts := OpenSession(name, mime, file, saved, s0, net), [];
    OpenBegins(name, mime, file, saved, s0, net);
    var stop;
    var k: nat;
    var id, offset, done;
    stop, s, k, id, offset, done, record := OpenUploadSession(name, mime, file, saved, s0, net);
    ghost var n: nat := 0;
    if stop.Some? {
      o := stop.value;
    } else {
      var failures := 0;
      while stop.None? && done.None?
        invariant After(l0, file, net, n) == Loop(s, k, id, offset, done, failures, record, true, stop, puts)
        decreases stop.None? && done.None?, if k < last then last - k else 0, Left(After(l0, file, net, n), file),
                  MAX_RETRIES + 1 - failures, if InSync(After(l0, file, net, n)) then 0 else 1
      {
        ghost var l := After(l0, file, net, n);
        AfterIsSound(l0, file, net, n);
        StepByError(l, file, net);
        TurnDescends(l, file, net, last);
        var t := net(k);
        var r := PutTurn(s, id, offset, BodyAt(file, id, offset), t);
        puts := puts + [Put(offset, BodyAt(file, id, offset), r.x)];
        s, k := r.s, k + 1;
        var err := ErrorOf(r.x);
        if err.Some? {
          stop, s, k, offset, done, failures := AfterFailure(Sent(l, file, r), err.value, s, k, id, offset, failures, t, net(k));
        } else if r.x.Page? {
          offset, done, failures := None, None, if r.x.status == 200 then 0 else failures;
        } else {
          offset, done := Some(r.x.response.offset), r.x.response.file;
          failures := if r.x.response.status == 200 then 0 else failures;
        }
        n := n + 1;
        assert After(l0, file, net, n) == Step(l, file, net);
      }
      WhatIsReturned(name, mime, file, saved, s0, net, n);
      o := if stop.Some? then stop.value else Success(id.value, done.value);
      record := if stop.Some? && KeepsRecord(stop.value) then record else None;
    }
    WhatIsReturned(name, mime, file, saved, s0, net, n);
    if Quiet(net) {
      PutsPerChunk(name, mime, file, saved, s0, net, n);
    }
    if saved.None? && net(0).freshId !in s0.cells && (forall j: nat :: Smooth(net(j))) {
      SucceedsInTheEnd(name, mime, file, s0, net, n);
      assert Succeeds(After(l0, file, net, n), if |file| == 0 then 0 else Chunks(|file|));
    }
    assert EndsAs(After(l0, file, net, n), file, o, s, record);
  }
}

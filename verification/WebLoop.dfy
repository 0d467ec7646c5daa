/**
 The upload loop of the web client as a machine: one step is one turn of the loop, run against the model of the
 server through an arbitrary network.

 `net(k)` is what happens during the k-th exchange, so a proof for every `net` covers every loss, delay,
 truncation and interference, and answers that do not come from the server at all.
 */
module WebLoop {
  import opened Prelude
  import opened UploadModel
  import opened UploadInvariants
  import opened UploadTheorems
  import opened Exchange

  /** UPLOAD_MAX_RETRIES. */
  const MAX_RETRIES: nat := 10

  datatype Outcome =
    | Success(id: Id, file: FileInfo)
    | Failure(retryable: bool, status: nat)  // status 0: no HTTP status is attached to the error
    | GaveUp                                 // too many failures in a row
    | Broken                                 // a body of null where an object is expected
    | Cancelled

  /** A PUT that has been sent, and what came of it. */
  datatype Put = Put(offset: Option<int>, body: Bytes, answer: Xhr)

  /** The variables of uploadResumable.  An id or offset the client does not have is `undefined` there. */
  datatype Loop = Loop(
    s: State,                 // the server
    k: nat,                   // exchanges so far
    id: Option<Id>,
    offset: Option<int>,
    done: Option<FileInfo>,   // session.file
    failures: nat,
    record: Option<Id>,       // the resume record, if it is of use
    inLoop: bool,             // openUploadSession has returned
    stop: Option<Outcome>,    // an error has been thrown
    puts: seq<Put>)           // history

  predicate Running(l: Loop) {
    l.stop.None? && l.done.None?
  }

  /** httpError: 5xx and 400 are worth another try; 401 is reported as not retryable. */
  function HttpError(status: nat): Outcome {
    Failure(status >= 500 || status == 400 || status == 0, status)
  }

  function Stop(l: Loop, o: Outcome): Loop {
    l.(stop := Some(o))
  }

  // ---- openUploadSession ----------------------------------------------------------------------------------------

  /** POST /api/uploads. */
  function CreateSession(l: Loop, name: string, mime: string, file: Bytes, t: Turn): Loop {
    var (s, x) := Created(Meanwhile(l.s, t), t, name, mime, file);
    var l1 := l.(s := s, k := l.k + 1);
    match x
    case NetworkError => Stop(l1, Failure(true, 0))
    case UserAbort => Stop(l1, Cancelled)
    case Got(Plain(status)) => Stop(l1, HttpError(status))
    case Got(Progress(_, offset, info)) =>
      l1.(inLoop := true, id := Some(t.freshId), offset := Some(offset), done := info,
          record := if info.None? then Some(t.freshId) else l1.record)
    case Page(status, isNull) =>
      if status != 201 then Stop(l1, HttpError(status))
      else if isNull then Stop(l1, Broken)
      else l1.(inLoop := true, id := None, offset := Some(0), record := None)
  }

  /** Pick up the recorded session, or create one and record it. */
  function OpenSession(name: string, mime: string, file: Bytes, saved: Option<Id>, s0: State, net: nat -> Turn): Loop {
    var l := Loop(s0, 0, None, None, None, 0, saved, false, None, []);
    if saved.None? then CreateSession(l, name, mime, file, net(0))
    else
      var r := GetTurn(s0, saved, net(0));
      var l1 := l.(s := r.s, k := 1);
      match r.x
      case NetworkError => Stop(l1, Failure(true, 0))
      case UserAbort => Stop(l1, Cancelled)
      case Got(Progress(_, offset, info)) => l1.(inLoop := true, id := saved, offset := Some(offset), done := info)
      case _ => CreateSession(l1.(record := None), name, mime, file, net(1))
  }

  // ---- one turn of the loop ---------------------------------------------------------------------------------------

  /** The next chunk; nothing if the client does not know where, or has no session to take the chunk size from. */
  function BodyAt(file: Bytes, id: Option<Id>, offset: Option<int>): (body: Bytes)
    ensures offset.Some? && 0 <= offset.value <= |file| ==> SliceIfAny(file, offset, body)
    ensures |body| <= CHUNK
  {
    if id.Some? && offset.Some? && 0 <= offset.value <= |file| then Chunk(file, offset.value, CHUNK) else []
  }

  /** The server's state, or what is taken for it, is adopted. */
  function Adopt(l: Loop, status: nat, offset: Option<int>, info: Option<FileInfo>): Loop {
    l.(offset := offset, done := info, failures := if status == 200 then 0 else l.failures)
  }

  /** What the loop makes of the answer to a GET. */
  function Heed(l: Loop, x: Xhr): Loop {
    match x
    case NetworkError => l
    case UserAbort => Stop(l, Cancelled)
    case Got(Plain(status)) => Stop(l, HttpError(status))
    case Got(Progress(_, offset, info)) => l.(offset := Some(offset), done := info)
    case Page(status, isNull) =>
      if status != 200 then Stop(l, HttpError(status))
      else if isNull then Stop(l, Broken)
      else l.(offset := None, done := None)
  }

  /** The catch block: give up, or wait and ask the server how far it has come. */
  function Retry(l: Loop, err: Outcome, t: Turn, next: Turn): Loop {
    if !err.Failure? || !err.retryable then Stop(l, err)
    else
      var l1 := l.(failures := l.failures + 1);
      if l1.failures > MAX_RETRIES then Stop(l1, GaveUp)
      else if t.cancelledInPause then Stop(l1, Cancelled)
      else
        var r := GetTurn(l.s, l.id, next);
        var l2 := l1.(s := r.s, k := l1.k + 1);
        Heed(l2, r.x)
  }

  /** What the loop makes of the answer to a PUT. */
  function Judge(l: Loop, x: Xhr, t: Turn, next: Turn): Loop {
    match x
    case NetworkError => Retry(l, Failure(true, 0), t, next)
    case UserAbort => Stop(l, Cancelled)
    case Got(Plain(status)) => Retry(l, HttpError(status), t, next)
    case Got(Progress(status, offset, info)) => Adopt(l, status, Some(offset), info)
    case Page(status, isNull) =>
      if status !in {200, 409} then Retry(l, HttpError(status), t, next)
      else if isNull then Stop(l, Broken)
      else Adopt(l, status, None, None)
  }

  /** The PUT of this turn. */
  function Sends(l: Loop, file: Bytes, t: Turn): Exchanged {
    PutTurn(l.s, l.id, l.offset, BodyAt(file, l.id, l.offset), t)
  }

  /** It has been sent, and answered or not. */
  function Sent(l: Loop, file: Bytes, r: Exchanged): Loop {
    l.(s := r.s, k := l.k + 1, puts := l.puts + [Put(l.offset, BodyAt(file, l.id, l.offset), r.x)])
  }

  /** One turn of the loop; nothing happens once it has ended. */
  function Step(l: Loop, file: Bytes, net: nat -> Turn): Loop {
    if !Running(l) then l else Turned(l, file, Sends(l, file, net(l.k)), net(l.k), net(l.k + 1))
  }

  function Turned(l: Loop, file: Bytes, r: Exchanged, t: Turn, next: Turn): Loop {
    Judge(Sent(l, file, r), r.x, t, next)
  }

  function After(l: Loop, file: Bytes, net: nat -> Turn, n: nat): Loop {
    if n == 0 then l else Step(After(l, file, net, n - 1), file, net)
  }

  /** What the caller gets, once the loop has ended. */
  function Result(l: Loop): Outcome
    requires !Running(l) && (l.stop.None? ==> l.id.Some?)
  {
    if l.stop.Some? then l.stop.value else Success(l.id.value, l.done.value)
  }

  /** The resume record outlives failures that a later attempt may get over. */
  predicate KeepsRecord(o: Outcome) {
    o.GaveUp? || o.Broken? || (o.Failure? && (o.retryable || o.status == 0 || o.status == 401))
  }

  /** The record after the outer catch block or the end of the function. */
  function RecordAtEnd(l: Loop): Option<Id> {
    if !l.inLoop then l.record
    else if l.stop.Some? && KeepsRecord(l.stop.value) then l.record
    else None
  }

  // ---- what every turn keeps ----------------------------------------------------------------------------------------

  /** A PUT whose failure counts as one of a row. */
  predicate Fails(x: Xhr) {
    match x
    case NetworkError => true
    case Got(Plain(status)) => status >= 500 || status == 400 || status == 0
    case Page(status, _) => status !in {200, 409} && (status >= 500 || status == 400 || status == 0)
    case _ => false
  }

  predicate Is200(x: Xhr) {
    (x.Got? && x.response.Progress? && x.response.status == 200) || (x.Page? && x.status == 200 && !x.isNull)
  }

  /** Failures since the last PUT that was answered 200. */
  function InARow(puts: seq<Put>): nat {
    if puts == [] then 0
    else
      var x := puts[|puts| - 1].answer;
      if Is200(x) then 0 else InARow(puts[..|puts| - 1]) + if Fails(x) then 1 else 0
  }

  /** Everything the client has sent to a known offset is a slice of its file. */
  ghost predicate SlicesOnly(file: Bytes, puts: seq<Put>) {
    forall i :: 0 <= i < |puts| ==> SliceIfAny(file, puts[i].offset, puts[i].body)
  }

  /** What the client knows is true: of its session, of how far it has come, and of a file it was told about. */
  ghost predicate Informed(l: Loop, file: Bytes) {
    && Inv(l.s) && AllFaithful(l.s)
    && (l.id.None? ==> l.done.None? && (l.offset.Some? ==> l.offset.value == 0))
    && (l.id.Some? && l.done.None? ==>
          Ready(l.s, l.id.value, file) && (l.offset.Some? ==> 0 <= l.offset.value <= Reached(l.s.cells[l.id.value])))
    && (l.id.Some? && l.done.Some? ==>
          l.id.value in l.s.cells && HoldsFile(l.s.cells[l.id.value], file) && l.done.value.size == |file|)
  }

  /** An error is worth another try exactly if it is 5xx, 400 or without a status. */
  predicate Classified(o: Outcome) {
    o.Failure? ==> (o.retryable <==> o.status >= 500 || o.status == 400 || o.status == 0)
  }

  /** The counter and the record are what the PUTs so far make them. */
  ghost predicate Counted(l: Loop, file: Bytes) {
    && SlicesOnly(file, l.puts)
    && l.failures == InARow(l.puts)
    && (if l.stop == Some(GaveUp) then l.failures == MAX_RETRIES + 1 else l.failures <= MAX_RETRIES)
    && (l.stop.Some? ==> !l.stop.value.Success? && l.done.None? && Classified(l.stop.value))
    && (l.inLoop && (l.puts != [] || Running(l)) ==> l.record == l.id)
    && (l.puts != [] || Running(l) || l.done.Some? ==> l.inLoop)
  }

  lemma ThisBody(l: Loop, file: Bytes)
    requires Informed(l, file) && Running(l)
    ensures SliceIfAny(file, l.offset, BodyAt(file, l.id, l.offset))
  {
    if l.id.Some? {
      ReadyCell(l.s, l.id.value, file);
    }
  }

  /** A client without a session gets nowhere and harms nobody. */
  lemma StrayTurns(s0: State, offset: Option<int>, body: Bytes, t: Turn)
    requires Inv(s0) && AllFaithful(s0)
    ensures
      var r := PutTurn(s0, None, offset, body, t);
      && Inv(r.s) && AllFaithful(r.s) && r == GetTurn(s0, None, t)
      && (r.x.Got? ==> r.x.response.Plain? && r.x.response.status !in {200, 409})
  {
    MeanwhileIsSound(s0, t);
  }

  /** Soundness is about the server and the session only. */
  lemma SameSession(l: Loop, m: Loop, file: Bytes)
    requires Informed(l, file) && m.s == l.s && m.id == l.id && m.offset == l.offset && m.done == l.done
    ensures Informed(m, file)
  {
  }

  lemma RetryIsSound(l: Loop, file: Bytes, err: Outcome, t: Turn, next: Turn)
    requires Informed(l, file) && Running(l)
    ensures Informed(Retry(l, err, t, next), file)
  {
    if err.Failure? && err.retryable && l.failures + 1 <= MAX_RETRIES && !t.cancelledInPause {
      RetryAsks(l, file, err, t, next);
    } else {
      SameSession(l, Retry(l, err, t, next), file);
    }
  }

  lemma RetryAsks(l: Loop, file: Bytes, err: Outcome, t: Turn, next: Turn)
    requires Informed(l, file) && Running(l)
    requires err.Failure? && err.retryable && l.failures + 1 <= MAX_RETRIES && !t.cancelledInPause
    ensures Informed(Retry(l, err, t, next), file)
  {
    GetIsSound(l, file, next);
    Asked(l, file, GetTurn(l.s, l.id, next), err, t, next);
  }

  lemma Asked(l: Loop, file: Bytes, r: Exchanged, err: Outcome, t: Turn, next: Turn)
    requires Running(l) && Informed(l.(s := r.s), file) && Truthful(l.(s := r.s), file, r.x, {200})
    requires err.Failure? && err.retryable && l.failures + 1 <= MAX_RETRIES && !t.cancelledInPause
    requires r == GetTurn(l.s, l.id, next)
    ensures Informed(Retry(l, err, t, next), file)
  {
    hide GetTurn, Informed, Heed;
    var m := l.(s := r.s, failures := l.failures + 1, k := l.k + 1);
    SameSession(l.(s := r.s), m, file);
    AskedSoundly(m, file, r.x);
    assert Retry(l, err, t, next) == Heed(m, r.x);
  }

  lemma AskedSoundly(l: Loop, file: Bytes, x: Xhr)
    requires Informed(l, file) && Running(l) && Truthful(l, file, x, {200})
    ensures Informed(Heed(l, x), file)
  {
  }

  lemma GetIsSound(l: Loop, file: Bytes, t: Turn)
    requires Informed(l, file) && Running(l)
    ensures
      var r := GetTurn(l.s, l.id, t);
      Informed(l.(s := r.s), file) && Truthful(l.(s := r.s), file, r.x, {200})
  {
    if l.id.Some? {
      GetTurnIs(l.s, l.id.value, file, t);
    } else {
      StrayTurns(l.s, None, [], t);
    }
  }

  lemma TurnedIsSound(l: Loop, file: Bytes, r: Exchanged, t: Turn, next: Turn)
    requires Running(l) && Informed(l.(s := r.s), file) && Truthful(l.(s := r.s), file, r.x, {200, 409})
    ensures Informed(Turned(l, file, r, t, next), file)
  {
    SameSession(l.(s := r.s), Sent(l, file, r), file);
    JudgedSoundly(Sent(l, file, r), file, r.x, t, next);
  }

  lemma StepIsSound(l: Loop, file: Bytes, net: nat -> Turn)
    requires Informed(l, file)
    ensures Informed(Step(l, file, net), file)
  {
    hide PutTurn, Turned;
    if Running(l) {
      PutIsSound(l, file, net(l.k));
      TurnedIsSound(l, file, Sends(l, file, net(l.k)), net(l.k), net(l.k + 1));
    }
  }

  /** The answer does not mislead, unless it is a page. */
  ghost predicate Truthful(l: Loop, file: Bytes, x: Xhr, good: set<nat>) {
    x.Got? ==>
      match x.response
      case Plain(status) => status !in good
      case Progress(status, offset, info) =>
        && status in good && l.id.Some? && l.id.value in l.s.cells
        && (info.None? ==> offset == Reached(l.s.cells[l.id.value]))
        && (info.Some? ==> HoldsFile(l.s.cells[l.id.value], file) && info.value.size == |file|)
  }

  lemma PutIsSound(l: Loop, file: Bytes, t: Turn)
    requires Informed(l, file) && Running(l)
    ensures
      var r := Sends(l, file, t);
      var l1 := l.(s := r.s);
      Informed(l1, file) && Truthful(l1, file, r.x, {200, 409})
  {
    ThisBody(l, file);
    if l.id.Some? {
      PutTurnIs(l.s, l.id.value, file, l.offset, BodyAt(file, l.id, l.offset), t);
    } else {
      StrayTurns(l.s, l.offset, BodyAt(file, l.id, l.offset), t);
    }
  }

  lemma JudgedSoundly(l: Loop, file: Bytes, x: Xhr, t: Turn, next: Turn)
    requires Informed(l, file) && Running(l) && Truthful(l, file, x, {200, 409})
    ensures Informed(Judge(l, x, t, next), file)
  {
    if x.NetworkError? {
      RetryIsSound(l, file, Failure(true, 0), t, next);
    } else if x.Got? && x.response.Plain? {
      RetryIsSound(l, file, HttpError(x.response.status), t, next);
    } else if x.Page? && x.status !in {200, 409} {
      RetryIsSound(l, file, HttpError(x.status), t, next);
    }
  }

  lemma RetryCounts(l: Loop, err: Outcome, t: Turn, next: Turn)
    requires l.failures <= MAX_RETRIES && l.stop.None? && !err.Success? && !err.GaveUp? && Classified(err)
    ensures
      var m := Retry(l, err, t, next);
      && m.puts == l.puts && m.id == l.id && m.inLoop == l.inLoop && m.record == l.record
      && m.failures == l.failures + (if err.Failure? && err.retryable then 1 else 0)
      && (if m.stop == Some(GaveUp) then m.failures == MAX_RETRIES + 1 else m.failures <= MAX_RETRIES)
      && (m.stop.Some? ==> !m.stop.value.Success? && m.done == l.done && Classified(m.stop.value))
  {
  }

  lemma StepIsCounted(l: Loop, file: Bytes, net: nat -> Turn)
    requires Informed(l, file) && Counted(l, file)
    ensures Counted(Step(l, file, net), file)
  {
    hide PutTurn, Turned;
    if Running(l) {
      PutIsUsual(l, file, net(l.k));
      TurnedIsCounted(l, file, Sends(l, file, net(l.k)), net(l.k), net(l.k + 1));
    }
  }

  predicate Usual(x: Xhr) {
    x.Got? && x.response.Plain? ==> x.response.status !in {200, 409}
  }

  lemma PutIsUsual(l: Loop, file: Bytes, t: Turn)
    requires Informed(l, file) && Running(l)
    ensures SliceIfAny(file, l.offset, BodyAt(file, l.id, l.offset)) && Usual(Sends(l, file, t).x)
  {
    ThisBody(l, file);
    PutIsSound(l, file, t);
  }

  lemma TurnedIsCounted(l: Loop, file: Bytes, r: Exchanged, t: Turn, next: Turn)
    requires Counted(l, file) && Running(l) && SliceIfAny(file, l.offset, BodyAt(file, l.id, l.offset)) && Usual(r.x)
    ensures Counted(Turned(l, file, r, t, next), file)
  {
    OnePutMore(file, l.puts, Put(l.offset, BodyAt(file, l.id, l.offset), r.x));
    JudgedCounts(Sent(l, file, r), r.x, t, next);
  }

  lemma OnePutMore(file: Bytes, puts: seq<Put>, put: Put)
    requires SlicesOnly(file, puts) && SliceIfAny(file, put.offset, put.body)
    ensures SlicesOnly(file, puts + [put])
    ensures InARow(puts + [put]) == (if Is200(put.answer) then 0 else InARow(puts)) + (if Fails(put.answer) then 1 else 0)
  {
    assert (puts + [put])[..|puts|] == puts;
  }

  lemma JudgedCounts(l: Loop, x: Xhr, t: Turn, next: Turn)
    requires Running(l) && l.failures <= MAX_RETRIES
    requires x.Got? && x.response.Plain? ==> x.response.status !in {200, 409}
    ensures
      var m := Judge(l, x, t, next);
      && m.puts == l.puts && m.id == l.id && m.inLoop == l.inLoop && m.record == l.record
      && m.failures == (if Is200(x) then 0 else l.failures) + (if Fails(x) then 1 else 0)
      && (if m.stop == Some(GaveUp) then m.failures == MAX_RETRIES + 1 else m.failures <= MAX_RETRIES)
      && (m.stop.Some? ==> !m.stop.value.Success? && m.done.None? && Classified(m.stop.value))
  {
    match x
    case NetworkError => RetryCounts(l, Failure(true, 0), t, next);
    case Got(Plain(status)) => RetryCounts(l, HttpError(status), t, next);
    case Page(status, isNull) =>
      if status !in {200, 409} {
        RetryCounts(l, HttpError(status), t, next);
      }
    case _ =>
  }
}

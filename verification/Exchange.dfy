/**
 One HTTP exchange between an upload client and the server, over a network that may lose the request, cut
 its body, lose the answer, or let anything else happen first: other tabs, delayed PUTs, cleanup.
 */
module Exchange {
  import opened Prelude
  import opened UploadModel
  import opened UploadInvariants
  import opened UploadTheorems

  /** What becomes of a request. */
  datatype Fate =
    | Lost                    // it never takes effect and is never answered
    | Foreign(status: nat, isNull: bool)  // someone in between answers: a proxy, a portal, or the PIN check
    | Aborted                 // the user cancels while it is under way
    | Served(stale: bool,     // the session was looked up before it left the uploads map
             openOk: bool,
             cut: Option<nat>,  // only so many bytes of the body arrive
             renameOk: bool,
             answered: bool)    // the answer reaches the client

  /** What happens during one exchange: `before` is everything others do until the request takes effect. */
  datatype Turn = Turn(before: seq<Event>, fate: Fate, freshId: Id, cancelledInPause: bool)

  /** Page: a status that means something to the clients, but the body is not the server's; `isNull` if it is JSON null. */
  datatype Xhr = NetworkError | UserAbort | Got(response: Response) | Page(status: nat, isNull: bool)

  /** The server and the client after an exchange. */
  datatype Exchanged = Exchanged(s: State, x: Xhr)

  /** The events of others, but for PUTs that do not carry a slice of their session's file. */
  function Others(s: State, es: seq<Event>): seq<Event>
    decreases |es|
  {
    if es == [] then []
    else if Honest(s, es[0]) then [es[0]] + Others(Next(s, es[0]), es[1..])
    else Others(s, es[1..])
  }

  function Meanwhile(s: State, t: Turn): State {
    Exec(s, Others(s, t.before))
  }

  lemma {:induction false} OthersAreHonest(s: State, es: seq<Event>)
    ensures HonestRun(s, Others(s, es))
    decreases |es|
  {
    if es != [] {
      if Honest(s, es[0]) {
        OthersAreHonest(Next(s, es[0]), es[1..]);
        assert Others(s, es)[1..] == Others(Next(s, es[0]), es[1..]);
      } else {
        OthersAreHonest(s, es[1..]);
      }
    }
  }

  /** No honest behaviour of the others is left out. */
  lemma {:induction false} OthersLosesNothing(s: State, es: seq<Event>)
    requires HonestRun(s, es)
    ensures Others(s, es) == es
    decreases |es|
  {
    if es != [] {
      OthersLosesNothing(Next(s, es[0]), es[1..]);
    }
  }

  /** Nothing but time passes before the request takes effect. */
  ghost predicate Idle(t: Turn) {
    forall e :: e in t.before ==> e.Tick?
  }

  lemma {:induction false} OnlyTimePasses(s: State, es: seq<Event>)
    requires forall e :: e in es ==> e.Tick?
    ensures Exec(s, Others(s, es)).cells == s.cells
    decreases |es|
  {
    if es != [] {
      assert es[0] in es && forall e :: e in es[1..] ==> e in es;
      OnlyTimePasses(Next(s, es[0]), es[1..]);
      assert Others(s, es)[1..] == Others(Next(s, es[0]), es[1..]);
    }
  }

  // ---- what an exchange does to one upload --------------------------------------------------------

  /** A request that never takes effect, or whose answer is not the server's. */
  function Unserved(fate: Fate): Xhr {
    match fate
    case Aborted => UserAbort
    case Foreign(status, isNull) => if status in {200, 201, 409} then Page(status, isNull) else Got(Plain(status))
    case _ => NetworkError
  }

  function Delivered(fate: Fate, reply: Option<Response>): Xhr
    requires fate.Served?
  {
    if reply.Some? && fate.answered then Got(reply.value) else NetworkError
  }

  /** The request goes to the files map, having found no session. */
  predicate Misses(c: Cell, fate: Fate) {
    fate.Served? && !c.listed && !(fate.stale && c.published)
  }

  /** PUT ?offset= with a body; a request that cannot get the mutex now is taken to be given up. */
  function PutCell(now: int, c: Cell, offset: Option<int>, body: Bytes, fate: Fate): Cell {
    if fate.Served? && !Misses(c, fate) && CanEnter(c) then
      var sent := if fate.cut.Some? then Min(fate.cut.value, |body|) else |body|;
      ServePut(now, c, offset, body, fate.openOk, sent, fate.cut.None?, fate.renameOk).cell
    else c
  }

  function PutXhr(now: int, c: Cell, offset: Option<int>, body: Bytes, fate: Fate): Xhr {
    if !fate.Served? then Unserved(fate)
    else if Misses(c, fate) then Delivered(fate, DoLookup(c, false).reply)
    else if CanEnter(c) then
      var sent := if fate.cut.Some? then Min(fate.cut.value, |body|) else |body|;
      Delivered(fate, ServePut(now, c, offset, body, fate.openOk, sent, fate.cut.None?, fate.renameOk).reply)
    else NetworkError
  }

  function GetXhr(c: Cell, fate: Fate): Xhr {
    if !fate.Served? then Unserved(fate)
    else Delivered(fate, if Misses(c, fate) then DoLookup(c, false).reply else DoGet(c).reply)
  }

  function WithCell(s: State, id: Id, c: Cell): State {
    s.(cells := s.cells[id := c])
  }

  /** One PUT; an id the client does not know is one the server does not know. */
  function PutTurn(s0: State, id: Option<Id>, offset: Option<int>, body: Bytes, t: Turn): Exchanged {
    var s := Meanwhile(s0, t);
    if id.None? || id.value !in s.cells then Exchanged(s, NotFound(t.fate))
    else
      var c := s.cells[id.value];
      Exchanged(WithCell(s, id.value, PutCell(s.now, c, offset, body, t.fate)), PutXhr(s.now, c, offset, body, t.fate))
  }

  /** One GET. */
  function GetTurn(s0: State, id: Option<Id>, t: Turn): Exchanged {
    var s := Meanwhile(s0, t);
    Exchanged(s, if id.None? || id.value !in s.cells then NotFound(t.fate) else GetXhr(s.cells[id.value], t.fate))
  }

  function NotFound(fate: Fate): Xhr {
    if fate.Served? then Delivered(fate, Some(Plain(404))) else Unserved(fate)
  }

  // ---- what a client may rely on ------------------------------------------------------------------

  /** The upload exists, is sound, and was made for this file. */
  ghost predicate Ready(s: State, id: Id, file: Bytes) {
    Inv(s) && AllFaithful(s) && id in s.cells && s.cells[id].content == file && s.cells[id].published
  }

  /** The server has registered this file, and holds exactly its bytes. */
  predicate HoldsFile(c: Cell, file: Bytes) {
    c.file.Some? && c.file.value.size == |file| && c.final == Some(file)
  }

  lemma ReadyCell(s: State, id: Id, file: Bytes)
    requires Ready(s, id, file)
    ensures CellInv(s.cells[id]) && Faithful(s.cells[id]) && s.cells[id].size == |file|
    ensures Reached(s.cells[id]) <= |file|
  {
    StepAdvances(s.now, s.cells[id], Get);
  }

  lemma MeanwhileKeepsReady(s: State, t: Turn, id: Id, file: Bytes)
    requires Ready(s, id, file)
    ensures Ready(Meanwhile(s, t), id, file)
    ensures Advances(s.cells[id], Meanwhile(s, t).cells[id])
  {
    OthersAreHonest(s, t.before);
    HonestRunsStayFaithful(s, Others(s, t.before));
    ExecAdvances(s, Others(s, t.before), id);
  }

  /** A PUT with an offset carries a slice of the file from there on. */
  predicate SliceIfAny(content: Bytes, offset: Option<int>, body: Bytes) {
    offset.Some? ==> IsSlice(content, offset.value, body)
  }

  lemma PutKeepsFaithful(now: int, c: Cell, offset: Option<int>, body: Bytes, openOk: bool, sent: nat, copyOk: bool,
                         renameOk: bool)
    requires CellInv(c) && CanEnter(c) && Faithful(c) && SliceIfAny(c.content, offset, body) && c.updatedAt <= now
    requires sent <= |body| && (copyOk ==> sent == |body|)
    ensures var d := ServePut(now, c, offset, body, openOk, sent, copyOk, renameOk).cell;
            CellInv(d) && Faithful(d) && Advances(c, d) && d.updatedAt <= now
  {
    if c.part.Some? && offset == Some(|c.part.value| as int) {
      AppendSlice(c.content, c.part.value, |c.part.value|, body, 0, sent);
      assert body[0..sent] == body[..sent];
    }
  }

  lemma PutKeepsReady(s: State, id: Id, file: Bytes, offset: Option<int>, body: Bytes, fate: Fate)
    requires Ready(s, id, file) && SliceIfAny(file, offset, body)
    ensures var d := PutCell(s.now, s.cells[id], offset, body, fate);
            Ready(WithCell(s, id, d), id, file) && Advances(s.cells[id], d)
  {
    var c := s.cells[id];
    ReadyCell(s, id, file);
    StepAdvances(s.now, c, Lookup(false));
    if fate.Served? && !Misses(c, fate) && CanEnter(c) {
      var sent := if fate.cut.Some? then Min(fate.cut.value, |body|) else |body|;
      PutKeepsFaithful(s.now, c, offset, body, fate.openOk, sent, fate.cut.None?, fate.renameOk);
    }
  }

  /** What the answer to a PUT tells the client, given what it knew before. */
  lemma PutAnswer(s: State, id: Id, file: Bytes, offset: Option<int>, body: Bytes, fate: Fate)
    requires Ready(s, id, file) && SliceIfAny(file, offset, body)
    requires PutXhr(s.now, s.cells[id], offset, body, fate).Got?
    ensures var c, d := s.cells[id], PutCell(s.now, s.cells[id], offset, body, fate);
            var r := PutXhr(s.now, c, offset, body, fate).response;
            r.Progress? ==>
              && (r.status == 200 || r.status == 409)
              && (r.file.Some? ==> r.status == 200 && HoldsFile(d, file) && r.file.value.size == |file|)
              && (r.file.None? ==> r.offset == Reached(d))
              && (r.status == 200 && r.file.None? ==>
                    offset == Some(Reached(c)) && Reached(d) == Reached(c) + |body| && |body| <= CHUNK && Reached(d) < |file|)
              && (r.status == 409 ==> r.file.None? && Reached(c) == Reached(d) && Some(Reached(d) as int) != offset)
    ensures PutXhr(s.now, s.cells[id], offset, body, fate).response.Plain? ==>
              PutXhr(s.now, s.cells[id], offset, body, fate).response.status !in {200, 409}
  {
    ReadyCell(s, id, file);
    PutKeepsReady(s, id, file, offset, body, fate);
    ReadyCell(WithCell(s, id, PutCell(s.now, s.cells[id], offset, body, fate)), id, file);
  }

  /** The same for a GET. */
  lemma GetAnswer(s: State, id: Id, file: Bytes, fate: Fate)
    requires Ready(s, id, file) && GetXhr(s.cells[id], fate).Got?
    ensures var c, r := s.cells[id], GetXhr(s.cells[id], fate).response;
            if r.Progress? then
              && r.status == 200
              && (r.file.Some? ==> HoldsFile(c, file) && r.file.value.size == |file|)
              && (r.file.None? ==> r.offset == Reached(c))
            else r.status != 200
  {
    ReadyCell(s, id, file);
  }

  // ---- what both clients do ------------------------------------------------------------------------

  /** What the client knows of its session. */
  datatype Session = Session(id: Id, offset: nat, file: Option<FileInfo>)

  /** The session is complete, or made for this file and known no further than it has come. */
  ghost predicate Sound(s: State, session: Session, file: Bytes) {
    && session.id in s.cells
    && if session.file.Some? then
         HoldsFile(s.cells[session.id], file) && session.file.value.size == |file|
       else
         Ready(s, session.id, file) && session.offset <= Reached(s.cells[session.id])
  }

  /** POST /api/uploads, once it takes effect. */
  function Created(s: State, t: Turn, name: string, mime: string, file: Bytes): (State, Xhr) {
    if !t.fate.Served? then (s, Unserved(t.fate))
    else if t.fate.cut.Some? then (s, Delivered(t.fate, Some(Plain(400))))
    else if !t.fate.openOk || t.freshId in s.cells then (s, Delivered(t.fate, Some(Plain(500))))
    else
      var reply :=
        if |file| > 0 then Progress(201, 0, None)
        else if t.fate.renameOk then Progress(201, 0, Some(FileInfo(name, mime, 0)))
        else Plain(500);
      (Next(s, Create(t.freshId, name, mime, file, t.fate.renameOk)), Delivered(t.fate, Some(reply)))
  }

  lemma CreatedIsSound(s: State, t: Turn, name: string, mime: string, file: Bytes)
    requires Inv(s) && AllFaithful(s)
    ensures var (s1, x) := Created(s, t, name, mime, file);
            && Inv(s1) && AllFaithful(s1)
            && (x.Got? && x.response.Progress? ==>
                  && x.response.offset == 0 && Sound(s1, Session(t.freshId, 0, x.response.file), file)
                  && (x.response.file.None? ==> Reached(s1.cells[t.freshId]) == 0))
  {
    if t.freshId !in s.cells {
      NextKeepsInv(s, Create(t.freshId, name, mime, file, t.fate.Served? && t.fate.renameOk));
    }
  }

  /** The next piece of the file: at most so many bytes from offset on. */
  function Chunk(file: Bytes, offset: nat, most: nat): (body: Bytes)
    requires offset <= |file|
    ensures IsSlice(file, offset, body)
  {
    file[offset..Min(offset + most, |file|)]
  }

  /** Everything a client has sent is a slice of its file. */
  ghost predicate AllSlices(file: Bytes, sent: seq<(nat, Bytes)>) {
    forall i :: 0 <= i < |sent| ==> IsSlice(file, sent[i].0, sent[i].1)
  }

  lemma OneMoreSlice(file: Bytes, sent: seq<(nat, Bytes)>, offset: nat, most: nat)
    requires AllSlices(file, sent) && offset <= |file|
    ensures AllSlices(file, sent + [(offset, Chunk(file, offset, most))])
  {
  }

  /** What a client knows after one PUT, whatever happened. */
  lemma PutTurnIs(s0: State, id: Id, file: Bytes, offset: Option<int>, body: Bytes, t: Turn)
    requires Ready(s0, id, file) && SliceIfAny(file, offset, body)
    ensures
      var Exchanged(s, x) := PutTurn(s0, Some(id), offset, body, t);
      && Ready(s, id, file) && Reached(s0.cells[id]) <= Reached(s.cells[id]) <= |file|
      && (x.Got? && x.response.Plain? ==> x.response.status !in {200, 409})
      && (x.Got? && x.response.Progress? ==>
            var r := x.response;
            && r.status in {200, 409}
            && (r.file.Some? ==> r.status == 200 && HoldsFile(s.cells[id], file) && r.file.value.size == |file|)
            && (r.file.None? ==> r.offset == Reached(s.cells[id]))
            && (r.file.None? && r.status == 200 ==>
                  offset == Some(r.offset - |body|) && |body| <= CHUNK && Reached(s0.cells[id]) <= r.offset - |body| && r.offset < |file|)
            && (r.status == 409 ==> r.file.None? && Some(r.offset as int) != offset))
      && (Idle(t) && x.Got? && x.response.Progress? && x.response.status == 409 ==>
            Reached(s.cells[id]) == Reached(s0.cells[id]))
      && (Idle(t) && x.Got? && x.response.Progress? && x.response.status == 200 && x.response.file.None? ==>
            Reached(s.cells[id]) == Reached(s0.cells[id]) + |body|)
  {
    MeanwhileKeepsReady(s0, t, id, file);
    var s := Meanwhile(s0, t);
    if Idle(t) {
      OnlyTimePasses(s0, t.before);
    }
    hide Meanwhile, Exec, ServePut, Misses;
    PutKeepsReady(s, id, file, offset, body, t.fate);
    if PutXhr(s.now, s.cells[id], offset, body, t.fate).Got? {
      PutAnswer(s, id, file, offset, body, t.fate);
    }
    ReadyCell(WithCell(s, id, PutCell(s.now, s.cells[id], offset, body, t.fate)), id, file);
  }

  /** The same for one GET. */
  lemma GetTurnIs(s0: State, id: Id, file: Bytes, t: Turn)
    requires Ready(s0, id, file)
    ensures
      var Exchanged(s, x) := GetTurn(s0, Some(id), t);
      && Ready(s, id, file) && Reached(s0.cells[id]) <= Reached(s.cells[id]) <= |file|
      && (Idle(t) ==> s.cells == s0.cells)
      && (x.Got? && x.response.Plain? ==> x.response.status != 200)
      && (x.Got? && x.response.Progress? ==>
            var r := x.response;
            && r.status == 200
            && (r.file.Some? ==> HoldsFile(s.cells[id], file) && r.file.value.size == |file|)
            && (r.file.None? ==> r.offset == Reached(s.cells[id])))
  {
    MeanwhileKeepsReady(s0, t, id, file);
    var s := Meanwhile(s0, t);
    if Idle(t) {
      OnlyTimePasses(s0, t.before);
    }
    ReadyCell(s, id, file);
    if GetXhr(s.cells[id], t.fate).Got? {
      GetAnswer(s, id, file, t.fate);
    }
  }

  // ---- a recorded session ------------------------------------------------------------------------------------------

  /** The record is of a session made for this file, if the server still knows it; no other gets its id. */
  ghost predicate OwnRecord(saved: Option<Id>, s0: State, t: Turn, file: Bytes) {
    saved.Some? && saved.value in Meanwhile(s0, t).cells ==> Ready(s0, saved.value, file)
  }

  lemma MeanwhileIsSound(s: State, t: Turn)
    requires Inv(s) && AllFaithful(s)
    ensures Inv(Meanwhile(s, t)) && AllFaithful(Meanwhile(s, t))
  {
    OthersAreHonest(s, t.before);
    HonestRunsStayFaithful(s, Others(s, t.before));
  }

  /** What a GET of the recorded session says, if there is such a session. */
  lemma LookUp(s0: State, saved: Id, file: Bytes, t: Turn)
    requires Inv(s0) && AllFaithful(s0) && OwnRecord(Some(saved), s0, t, file)
    ensures
      var Exchanged(s, x) := GetTurn(s0, Some(saved), t);
      && Inv(s) && AllFaithful(s)
      && (x.Got? && x.response.Progress? ==>
            && Ready(s, saved, file)
            && (x.response.file.Some? ==> HoldsFile(s.cells[saved], file) && x.response.file.value.size == |file|)
            && (x.response.file.None? ==> x.response.offset == Reached(s.cells[saved])))
  {
    MeanwhileIsSound(s0, t);
    if saved in Meanwhile(s0, t).cells {
      GetTurnIs(s0, saved, file, t);
    }
  }

  // ---- when nothing goes wrong -----------------------------------------------------------------------------------

  /** Nothing but time passes, and the server does what it is asked for and is heard. */
  ghost predicate Smooth(t: Turn) {
    Idle(t) && t.fate.Served? && t.fate.openOk && t.fate.cut.None? && t.fate.renameOk && t.fate.answered
  }

  /** The upload can go on, and nobody is inside its mutex. */
  ghost predicate Underway(s: State, id: Id, file: Bytes) {
    Ready(s, id, file) && s.cells[id].lock.Free? && Open(s.cells[id])
  }

  /** A PUT at the right offset adds its body, and at the end completes the upload; any other is corrected. */
  lemma SmoothPut(s0: State, id: Id, file: Bytes, offset: Option<int>, body: Bytes, t: Turn)
    requires Underway(s0, id, file) && Smooth(t) && SliceIfAny(file, offset, body) && |body| <= CHUNK
    ensures
      var Exchanged(s, x) := PutTurn(s0, Some(id), offset, body, t);
      var p := Reached(s0.cells[id]);
      if offset != Some(p) then Underway(s, id, file) && Reached(s.cells[id]) == p && x == Got(Progress(409, p, None))
      else if p + |body| < |file| then
        Underway(s, id, file) && Reached(s.cells[id]) == p + |body| && x == Got(Progress(200, p + |body|, None))
      else id in s.cells && HoldsFile(s.cells[id], file) && x.Got? && x.response.Progress? && x.response.status == 200 && x.response.file.Some?
  {
    OnlyTimePasses(s0, t.before);
    MeanwhileKeepsReady(s0, t, id, file);
    var s, c := Meanwhile(s0, t), s0.cells[id];
    assert s.cells[id] == c;
    PutKeepsReady(s, id, file, offset, body, t.fate);
    assert body[..|body|] == body;
    ReadyCell(s, id, file);
    ReadyCell(WithCell(s, id, PutCell(s.now, c, offset, body, t.fate)), id, file);
  }

  lemma SmoothCreate(s0: State, t: Turn, name: string, mime: string, file: Bytes)
    requires Inv(s0) && AllFaithful(s0) && Smooth(t) && t.freshId !in s0.cells
    ensures
      var (s, x) := Created(Meanwhile(s0, t), t, name, mime, file);
      && t.freshId in s.cells && x.Got? && x.response.Progress? && x.response.status == 201
      && (x.response.file.None? <==> |file| > 0)
      && (|file| > 0 ==> Underway(s, t.freshId, file) && Reached(s.cells[t.freshId]) == 0 && x.response.offset == 0)
  {
    MeanwhileIsSound(s0, t);
    OnlyTimePasses(s0, t.before);
    CreatedIsSound(Meanwhile(s0, t), t, name, mime, file);
  }

  // ---- the exchanges of the Dart client ----------------------------------------------------------------------------

  /** One PUT of a client that knows an offset. */
  method PutChunk(s0: State, id: Id, file: Bytes, offset: nat, most: nat, t: Turn) returns (s: State, x: Xhr)
    requires Ready(s0, id, file) && offset <= Reached(s0.cells[id]) && offset <= |file| && 0 < most <= CHUNK
    ensures Exchanged(s, x) == PutTurn(s0, Some(id), Some(offset), Chunk(file, offset, most), t)
    ensures Ready(s, id, file) && Reached(s0.cells[id]) <= Reached(s.cells[id]) <= |file|
    ensures x.Got? && x.response.Progress? ==>
              var r := x.response;
              && (r.file.Some? ==> HoldsFile(s.cells[id], file) && r.file.value.size == |file|)
              && (r.file.None? ==> r.offset == Reached(s.cells[id]) > offset)
  {
    PutTurnIs(s0, id, file, Some(offset), Chunk(file, offset, most), t);
    var r := PutTurn(s0, Some(id), Some(offset), Chunk(file, offset, most), t);
    s, x := r.s, r.x;
  }

  /** One GET. */
  method GetState(s0: State, id: Id, file: Bytes, t: Turn) returns (s: State, x: Xhr)
    requires Ready(s0, id, file)
    ensures Exchanged(s, x) == GetTurn(s0, Some(id), t)
    ensures Ready(s, id, file) && Reached(s0.cells[id]) <= Reached(s.cells[id]) <= |file|
    ensures x.Got? && x.response.Progress? ==>
              var r := x.response;
              && (r.file.Some? ==> HoldsFile(s.cells[id], file) && r.file.value.size == |file|)
              && (r.file.None? ==> r.offset == Reached(s.cells[id]))
  {
    GetTurnIs(s0, id, file, t);
    var r := GetTurn(s0, Some(id), t);
    s, x := r.s, r.x;
  }
}

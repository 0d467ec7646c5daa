/** The promises of the upload protocol, for every run. */
module UploadTheorems {
  import opened Prelude
  import opened UploadModel
  import opened UploadInvariants

  // ---- acknowledged offsets are monotone ------------------------------------------------------

  /** The state before the i-th event of a run from the empty server. */
  function At(start: int, es: seq<Event>, i: nat): State
    requires i <= |es|
  {
    Exec(Empty(start), es[..i])
  }

  lemma AtInv(start: int, es: seq<Event>, i: nat)
    requires i <= |es|
    ensures Inv(At(start, es, i))
  {
    ExecKeepsInv(Empty(start), es[..i]);
  }

  lemma AtLater(start: int, es: seq<Event>, i: nat, j: nat)
    requires i <= j <= |es|
    ensures At(start, es, j) == Exec(At(start, es, i), es[i..j])
  {
    assert es[..j] == es[..i] + es[i..j];
    ExecConcat(Empty(start), es[..i], es[i..j]);
  }

  lemma AtNext(start: int, es: seq<Event>, i: nat)
    requires i < |es|
    ensures At(start, es, i + 1) == Next(At(start, es, i), es[i])
  {
    assert es[..i + 1] == es[..i] + [es[i]];
    ExecSnoc(Empty(start), es[..i], es[i]);
  }

  /** The offset the i-th event reports for id: in a 200, a 409 or the answer to a GET. */
  function Reported(start: int, es: seq<Event>, i: nat, id: Id): Option<nat>
    requires i < |es|
  {
    var r := Reply(At(start, es, i), es[i]);
    if es[i].On? && es[i].id == id && r.Some? && r.value.Progress? then Some(r.value.offset) else None
  }

  lemma AcknowledgedOffsetsAreMonotone(start: int, es: seq<Event>, i: nat, j: nat, id: Id)
    requires i < j < |es|
    requires Reported(start, es, i, id).Some? && Reported(start, es, j, id).Some?
    ensures Reported(start, es, i, id).value <= Reported(start, es, j, id).value
  {
    var si, sj := At(start, es, i), At(start, es, j);
    AtInv(start, es, i);
    AtInv(start, es, j);
    ReportedOffset(si.now, si.cells[id], es[i].op);
    ReportedOffset(sj.now, sj.cells[id], es[j].op);
    AtNext(start, es, i);
    AtInv(start, es, i + 1);
    AtLater(start, es, i + 1, j);
    ExecAdvances(At(start, es, i + 1), es[i + 1..j], id);
  }

  // ---- integrity --------------------------------------------------------------------------------

  predicate IsSlice(content: Bytes, offset: int, body: Bytes) {
    0 <= offset && offset + |body| <= |content| && body == content[offset..offset + |body|]
  }

  /** Every PUT carries a slice of the file its session was created for. */
  predicate Honest(s: State, e: Event) {
    e.On? && e.op.PutLock? && e.op.offset.Some? && e.id in s.cells ==>
      IsSlice(s.cells[e.id].content, e.op.offset.value, e.op.body)
  }

  predicate HonestRun(s: State, es: seq<Event>)
    decreases |es|
  {
    es == [] || (Honest(s, es[0]) && HonestRun(Next(s, es[0]), es[1..]))
  }

  /** Whatever is stored is what the client means to upload, as far as it goes. */
  predicate Faithful(c: Cell) {
    && (c.part.Some? ==> c.part.value <= c.content)
    && (c.final.Some? ==> c.final.value == c.content)
    && (c.completed.Some? ==> c.completed.value == c.content)
    && (c.lock.Writing? ==> IsSlice(c.content, c.lock.current, c.lock.body))
  }

  lemma AppendSlice(content: Bytes, part: Bytes, current: nat, body: Bytes, written: nat, n: nat)
    requires part <= content && |part| == current + written
    requires IsSlice(content, current, body) && written + n <= |body|
    ensures part + body[written..written + n] <= content
  {
    forall k | written <= k < written + n
      ensures body[k] == content[current + k]
    {
    }
    assert part + body[written..written + n] == content[..|part| + n];
  }

  lemma StepKeepsFaithful(now: int, c: Cell, op: Op)
    requires CellInv(c) && Faithful(c)
    requires op.PutLock? && op.offset.Some? ==> IsSlice(c.content, op.offset.value, op.body)
    ensures Faithful(Do(now, c, op).cell)
  {
    if op.PutData? && c.lock.Writing? {
      var Writing(current, body, written) := c.lock;
      if written + op.count <= Min(|body|, Limit(c.size, current) + 1) {
        AppendSlice(c.content, c.part.value, current, body, written, op.count);
      }
    }
  }

  ghost predicate AllFaithful(s: State) {
    forall id :: id in s.cells ==> Faithful(s.cells[id])
  }

  lemma {:induction false} HonestRunsStayFaithful(s: State, es: seq<Event>)
    requires Inv(s) && AllFaithful(s) && HonestRun(s, es)
    ensures Inv(Exec(s, es)) && AllFaithful(Exec(s, es))
    decreases |es|
  {
    if es != [] {
      var e := es[0];
      NextKeepsInv(s, e);
      if e.On? && e.id in s.cells {
        StepKeepsFaithful(s.now, s.cells[e.id], e.op);
      }
      HonestRunsStayFaithful(Next(s, e), es[1..]);
    }
  }

  /**
   End-to-end integrity: as long as every PUT carries a slice of the session's file, then under any loss,
   delay, duplication, reordering or truncation of requests the `.part` bytes are a prefix of that file,
   also in the middle of a chunk, and a registered file equals it.
   */
  lemma EndToEndIntegrity(start: int, es: seq<Event>, id: Id)
    requires HonestRun(Empty(start), es) && id in Exec(Empty(start), es).cells
    ensures var c := Exec(Empty(start), es).cells[id];
            && (c.part.Some? ==> c.part.value <= c.content)
            && (c.file.Some? ==> c.final == Some(c.content) && c.file.value.size == |c.content|)
  {
    HonestRunsStayFaithful(Empty(start), es);
    assert CellInv(Exec(Empty(start), es).cells[id]);
  }

  // ---- retention --------------------------------------------------------------------------------

  /** Cleanup computes its cutoff from the clock before it visits anything. */
  predicate Timely(s: State, e: Event, retention: int) {
    e.On? ==>
      && (e.op.Purge? ==> e.op.cutoff <= s.now - retention)
      && (e.op.ExpireFile? ==> e.op.cutoff <= s.now - retention)
  }

  lemma {:induction false} WritingTouchesTheSession(s: State, es: seq<Event>, id: Id, t: int)
    requires Inv(s) && id in s.cells && t <= s.now
    requires s.cells[id].lock.Writing? || t <= s.cells[id].updatedAt
    ensures id in Exec(s, es).cells
    ensures Exec(s, es).cells[id].lock.Writing? || t <= Exec(s, es).cells[id].updatedAt
    decreases |es|
  {
    if es != [] {
      NextKeepsInv(s, es[0]);
      NextCell(s, es[0], id);
      if es[0].On? && es[0].id == id {
        StepAdvances(s.now, s.cells[id], es[0].op);
      }
      WritingTouchesTheSession(Next(s, es[0]), es[1..], id, t);
    }
  }

  /**
   If a cleanup visit drops a session, then the cutoff of that pass is later than every moment at which
   the session was created or touched or a chunk was being written.  So a pass that began before the chunk ended
   leaves the session alone, and a dropped session has been idle for longer than the retention.
   */
  lemma PurgedSessionsWereIdle(start: int, es: seq<Event>, i: nat, j: nat, id: Id, retention: int)
    requires i <= j < |es| && es[j].On? && es[j].id == id && es[j].op.Purge?
    requires Timely(At(start, es, j), es[j], retention)
    requires id in At(start, es, i).cells
    requires At(start, es, i).cells[id].lock.Writing? || At(start, es, i).now <= At(start, es, i).cells[id].updatedAt
    requires id in At(start, es, j).cells && At(start, es, j).cells[id].listed
    requires !Next(At(start, es, j), es[j]).cells[id].listed
    ensures At(start, es, i).now < es[j].op.cutoff
    ensures At(start, es, j).now - At(start, es, i).now > retention
  {
    AtInv(start, es, i);
    AtLater(start, es, i, j);
    WritingTouchesTheSession(At(start, es, i), es[i..j], id, At(start, es, i).now);
  }

  /** A cleanup visit takes away exactly what is older than its cutoff, with its bytes, and nothing else. */
  lemma CleanupTakesTheOld(now: int, c: Cell, cutoff: int)
    requires CellInv(c) && c.lock.Free?
    ensures
      var d := RunOps(now, c, [Purge(cutoff), Remove]);
      && (d.listed <==> c.listed && c.updatedAt >= cutoff)
      && d.part == (if c.listed && c.updatedAt < cutoff then None else c.part)
      && d == c.(listed := d.listed, part := d.part)
    ensures
      var d := RunOps(now, c, [ExpireFile(cutoff), UnlinkFile]);
      && d.file == (if c.file.Some? && c.file.value.createdAt < cutoff then None else c.file)
      && d.final == (if c.completed.Some? && d.file.None? then None else c.final)
      && d == c.(file := d.file, final := d.final)
    ensures Answers(now, c, [Purge(cutoff), Remove] ) == [] && Answers(now, c, [ExpireFile(cutoff), UnlinkFile]) == []
  {
    RunTwo(now, c, Purge(cutoff), Remove);
    RunTwo(now, c, ExpireFile(cutoff), UnlinkFile);
  }

  /** A DELETE that finds a session takes it off the map and its `.part` away; it leaves a finished upload as it is. */
  lemma DeleteTakesThePart(now: int, c: Cell)
    requires CellInv(c) && CanEnter(c)
    ensures
      var d := RunOps(now, c, [Delete, Remove]);
      && d == c.(listed := false, part := None) && Gone(d) == !Done(c) && Answers(now, c, [Delete, Remove]) == [Plain(204)]
      && (Done(c) ==> d == c)
  {
    RunTwo(now, c, Delete, Remove);
  }

  /**
   What a request is told that finds no session: a file is told about to everybody but a DELETE, and all others,
   the DELETE of a registered file among them, get 404; nothing changes.
   */
  lemma WhoFindsNoSession(s: State, id: Id, isDelete: bool)
    requires Inv(s) && id in s.cells && !s.cells[id].listed
    ensures
      var c, e := s.cells[id], On(id, Lookup(isDelete));
      && Next(s, e) == s
      && (Reply(s, e) == Some(Plain(404)) <==> c.file.None? || isDelete)
      && (c.file.Some? && !isDelete ==>
            Reply(s, e) == Some(Progress(200, c.size, Some(FileInfo(c.file.value.name, c.file.value.mime, c.size)))))
  {
    assert CellInv(s.cells[id]);
    assert s.cells[id := s.cells[id]] == s.cells;
  }

  lemma FileAppears(s: State, e: Event, id: Id)
    requires Inv(s) && (id in s.cells ==> s.cells[id].file.None?)
    requires id in Next(s, e).cells && Next(s, e).cells[id].file.Some?
    ensures Closed(Next(s, e).cells[id]) && Next(s, e).cells[id].file.value.createdAt == s.now
  {
    if id in s.cells {
      NextCell(s, e, id);
      assert CellInv(s.cells[id]);
      RegisteringCloses(s.now, s.cells[id], if e.On? && e.id == id then e.op else Get);
    }
  }

  /** Only registerFile, the last step of a PUT under the mutex, makes a files entry. */
  lemma RegisteringCloses(now: int, c: Cell, op: Op)
    requires CellInv(c) && c.file.None?
    ensures
      var d := Do(now, c, op).cell;
      d.file.Some? ==> Closed(d) && d.file.value.createdAt == now
  {
  }

  /** A file that cleanup takes off the files map was registered longer ago than the retention. */
  lemma ExpiredFilesWereOld(start: int, es: seq<Event>, i: nat, j: nat, id: Id, retention: int)
    requires i < j < |es|
    requires Timely(At(start, es, j), es[j], retention)
    requires id in At(start, es, i).cells ==> At(start, es, i).cells[id].file.None?
    requires id in At(start, es, i + 1).cells && At(start, es, i + 1).cells[id].file.Some?
    requires id in At(start, es, j).cells && At(start, es, j).cells[id].file.Some?
    requires Next(At(start, es, j), es[j]).cells[id].file.None?
    ensures At(start, es, j).now - At(start, es, i).now > retention
  {
    var before, after, last := At(start, es, i), At(start, es, i + 1), At(start, es, j);
    AtInv(start, es, i);
    AtNext(start, es, i);
    AtInv(start, es, i + 1);
    FileAppears(before, es[i], id);
    AtLater(start, es, i + 1, j);
    StaleRequestsAreInert(after, es[i + 1..j], id);
    assert last.cells[id].file == after.cells[id].file;
    OnlyExpiryUnregisters(last, es[j], id);
  }

  lemma OnlyExpiryUnregisters(s: State, e: Event, id: Id)
    requires id in s.cells && s.cells[id].file.Some? && Next(s, e).cells[id].file.None?
    ensures e.On? && e.id == id && e.op.ExpireFile? && s.cells[id].file.value.createdAt < e.op.cutoff
  {
  }

  // ---- one PUT under the mutex -------------------------------------------------------------------

  /**
   A PUT that gets the mutex, up to finishUpload.  Of the body, `sent` bytes arrive; copyOk says that the
   copy ended without an error.
   */
  function ServeChunk(now: int, c: Cell, offset: Option<int>, body: Bytes, openOk: bool, sent: nat, copyOk: bool): Outcome
    requires sent <= |body| && (copyOk ==> sent == |body|)
  {
    if c.part.None? then Answer(c, Plain(404))
    else
      var current := |c.part.value|;
      var limit := Limit(c.size, current);
      var c1 := c.(updatedAt := now, part := Some(c.part.value + body[..sent]));
      if offset != Some(current as int) then Answer(c, Progress(409, current, None))
      else if !openOk then Answer(c, Plain(500))
      else if sent > limit then Answer(c.(updatedAt := now), Plain(413))
      else if !copyOk then Answer(c1, Plain(400))
      else if current + sent < c.size then Answer(c1, Progress(200, current + sent, None))
      else Silent(c1.(lock := Finishing))
  }

  /** finishUpload and the answer that follows it. */
  function ServeFinish(now: int, c: Cell, renameOk: bool): Outcome {
    if !renameOk then Answer(c.(lock := Free), Plain(500))
    else
      var r := FileRecord(c.name, c.mime, c.size, now);
      Answer(c.(part := None, listed := false, final := c.part, completed := c.part, file := Some(r), lock := Free),
             Progress(200, c.size, Some(Info(r))))
  }

  /** What a PUT that gets the mutex does as a whole. */
  function ServePut(now: int, c: Cell, offset: Option<int>, body: Bytes, openOk: bool, sent: nat, copyOk: bool,
                    renameOk: bool): Outcome
    requires sent <= |body| && (copyOk ==> sent == |body|)
  {
    var o := ServeChunk(now, c, offset, body, openOk, sent, copyOk);
    if o.reply.Some? then o else ServeFinish(now, o.cell, renameOk)
  }

  function ChunkOps(c: Cell, offset: Option<int>, body: Bytes, openOk: bool, sent: nat, copyOk: bool): seq<Op>
    requires c.part.Some? ==> |c.part.value| <= c.size
  {
    var written := if c.part.Some? then Min(sent, Limit(c.size, |c.part.value|) + 1) else 0;
    [PutLock(offset, body, openOk), PutData(written), PutEnd(copyOk)]
  }

  function FinishOps(renameOk: bool): seq<Op> {
    [FinishRename(renameOk), FinishDelist, FinishRegister]
  }

  /** The operations of one PUT; those that do not come up are no-ops. */
  function PutOps(c: Cell, offset: Option<int>, body: Bytes, openOk: bool, sent: nat, copyOk: bool, renameOk: bool): seq<Op>
    requires c.part.Some? ==> |c.part.value| <= c.size
  {
    ChunkOps(c, offset, body, openOk, sent, copyOk) + FinishOps(renameOk)
  }

  function Told(reply: Option<Response>): seq<Response> {
    if reply.Some? then [reply.value] else []
  }

  function RunOps(now: int, c: Cell, ops: seq<Op>): Cell
    decreases |ops|
  {
    if ops == [] then c else RunOps(now, Do(now, c, ops[0]).cell, ops[1..])
  }

  function Answers(now: int, c: Cell, ops: seq<Op>): seq<Response>
    decreases |ops|
  {
    if ops == [] then [] else Told(Do(now, c, ops[0]).reply) + Answers(now, Do(now, c, ops[0]).cell, ops[1..])
  }

  lemma {:induction false} RunConcat(now: int, c: Cell, a: seq<Op>, b: seq<Op>)
    ensures RunOps(now, c, a + b) == RunOps(now, RunOps(now, c, a), b)
    ensures Answers(now, c, a + b) == Answers(now, c, a) + Answers(now, RunOps(now, c, a), b)
    decreases |a|
  {
    if a == [] {
      assert a + b == b;
    } else {
      assert (a + b)[1..] == a[1..] + b;
      RunConcat(now, Do(now, c, a[0]).cell, a[1..], b);
    }
  }

  lemma RunThree(now: int, c: Cell, p: Op, q: Op, r: Op)
    ensures var o1 := Do(now, c, p);
            var o2 := Do(now, o1.cell, q);
            var o3 := Do(now, o2.cell, r);
            && RunOps(now, c, [p, q, r]) == o3.cell
            && Answers(now, c, [p, q, r]) == Told(o1.reply) + Told(o2.reply) + Told(o3.reply)
  {
    var o1 := Do(now, c, p);
    var o2 := Do(now, o1.cell, q);
    assert [p, q, r][1..] == [q, r] && [q, r][1..] == [r] && [r][1..] == [];
    assert RunOps(now, o1.cell, [q, r]) == RunOps(now, o2.cell, [r]) == Do(now, o2.cell, r).cell;
    assert Answers(now, o2.cell, [r]) == Told(Do(now, o2.cell, r).reply);
    assert Answers(now, o1.cell, [q, r]) == Told(o2.reply) + Told(Do(now, o2.cell, r).reply);
  }

  lemma RunTwo(now: int, c: Cell, p: Op, q: Op)
    ensures RunOps(now, c, [p, q]) == Do(now, Do(now, c, p).cell, q).cell
    ensures Answers(now, c, [p, q]) == Told(Do(now, c, p).reply) + Told(Do(now, Do(now, c, p).cell, q).reply)
  {
    assert [p, q][1..] == [q] && [q][1..] == [];
    assert RunOps(now, Do(now, c, p).cell, [q]) == Do(now, Do(now, c, p).cell, q).cell;
    assert Answers(now, Do(now, c, p).cell, [q]) == Told(Do(now, Do(now, c, p).cell, q).reply);
  }

  lemma ChunkAsSteps(now: int, c: Cell, offset: Option<int>, body: Bytes, openOk: bool, sent: nat, copyOk: bool)
    requires CellInv(c) && CanEnter(c)
    requires sent <= |body| && (copyOk ==> sent == |body|)
    ensures var o := ServeChunk(now, c, offset, body, openOk, sent, copyOk);
            var ops := ChunkOps(c, offset, body, openOk, sent, copyOk);
            RunOps(now, c, ops) == o.cell && Answers(now, c, ops) == Told(o.reply)
  {
    var ops := ChunkOps(c, offset, body, openOk, sent, copyOk);
    RunThree(now, c, ops[0], ops[1], ops[2]);
    var c1 := Do(now, c, ops[0]).cell;
    if c1.lock.Writing? {
      var p, w := c.part.value, ops[1].count;
      assert Do(now, c1, ops[1]).cell == c1.(part := Some(p + body[0..w]), lock := Writing(|p|, body, w));
      assert (p + body[0..w])[..|p|] == p;
      assert w == sent ==> body[0..w] == body[..sent];
    }
  }

  lemma FinishAsSteps(now: int, c: Cell, renameOk: bool)
    requires c.lock.Free? || (c.lock.Finishing? && c.listed)
    ensures RunOps(now, c, FinishOps(renameOk)) == if c.lock.Free? then c else ServeFinish(now, c, renameOk).cell
    ensures Answers(now, c, FinishOps(renameOk)) == if c.lock.Free? then [] else Told(ServeFinish(now, c, renameOk).reply)
  {
    RunThree(now, c, FinishRename(renameOk), FinishDelist, FinishRegister);
  }

  /** Nothing is lost by treating a PUT as one step: run through the mutex, its operations do just that. */
  lemma PutAsSteps(now: int, c: Cell, offset: Option<int>, body: Bytes, openOk: bool, sent: nat, copyOk: bool, renameOk: bool)
    requires CellInv(c) && CanEnter(c)
    requires sent <= |body| && (copyOk ==> sent == |body|)
    ensures var o := ServePut(now, c, offset, body, openOk, sent, copyOk, renameOk);
            var ops := PutOps(c, offset, body, openOk, sent, copyOk, renameOk);
            o.reply.Some? && RunOps(now, c, ops) == o.cell && Answers(now, c, ops) == [o.reply.value]
  {
    hide RunOps, Answers, FinishOps, ChunkOps, Do;
    var o := ServeChunk(now, c, offset, body, openOk, sent, copyOk);
    ChunkAsSteps(now, c, offset, body, openOk, sent, copyOk);
    RunConcat(now, c, ChunkOps(c, offset, body, openOk, sent, copyOk), FinishOps(renameOk));
    FinishAsSteps(now, o.cell, renameOk);
  }

  function OnAll(id: Id, ops: seq<Op>): seq<Event> {
    seq(|ops|, i requires 0 <= i < |ops| => On(id, ops[i]))
  }

  /** Operations on one upload are events of the whole server. */
  lemma {:induction false} RunOpsIsExec(s: State, id: Id, ops: seq<Op>)
    requires id in s.cells
    ensures Exec(s, OnAll(id, ops)) == s.(cells := s.cells[id := RunOps(s.now, s.cells[id], ops)])
    decreases |ops|
  {
    if ops == [] {
      assert s.cells[id := s.cells[id]] == s.cells;
    } else {
      var s1 := Next(s, On(id, ops[0]));
      RunOpsIsExec(s1, id, ops[1..]);
      assert OnAll(id, ops)[1..] == OnAll(id, ops[1..]);
      assert s1.cells[id := RunOps(s.now, s1.cells[id], ops[1..])] == s.cells[id := RunOps(s.now, s.cells[id], ops)];
    }
  }

  // ---- one chunk amid everything else ---------------------------------------------------------------

  /** One handler keeps the mutex for writing through the whole run. */
  predicate Held(s: State, es: seq<Event>, id: Id)
    decreases |es|
  {
    && id in s.cells && s.cells[id].lock.Writing?
    && (es == [] || Held(Next(s, es[0]), es[1..], id))
  }

  lemma {:induction false} HeldChunk(s: State, es: seq<Event>, id: Id, before: Bytes)
    requires Inv(s) && Held(s, es, id)
    requires s.cells[id].part == Some(before + s.cells[id].lock.body[..s.cells[id].lock.written])
    requires s.cells[id].lock.current == |before|
    ensures Inv(Exec(s, es)) && id in Exec(s, es).cells
    ensures var c, d := s.cells[id], Exec(s, es).cells[id];
            && d.lock.Writing? && d.lock.body == c.lock.body && d.lock.current == |before| && d.size == c.size
            && d.lock.written <= |d.lock.body|
            && d.part == Some(before + d.lock.body[..d.lock.written])
    decreases |es|
  {
    if es != [] {
      NextKeepsInv(s, es[0]);
      if es[0].On? && es[0].id == id {
        HeldStep(s.now, s.cells[id], es[0].op, before);
      }
      HeldChunk(Next(s, es[0]), es[1..], id, before);
    }
  }

  lemma HeldStep(now: int, c: Cell, op: Op, before: Bytes)
    requires CellInv(c) && c.lock.Writing? && c.lock.current == |before|
    requires c.part == Some(before + c.lock.body[..c.lock.written])
    ensures
      var d := Do(now, c, op).cell;
      d.lock.Writing? ==>
        && d.lock.body == c.lock.body && d.lock.current == |before| && d.size == c.size
        && d.lock.written <= |d.lock.body| && d.part == Some(before + d.lock.body[..d.lock.written])
  {
    var d := Do(now, c, op).cell;
    if op.PutData? && c != d {
      var w, n := c.lock.written, op.count;
      assert c.lock.body[..w] + c.lock.body[w..w + n] == c.lock.body[..w + n];
      assert c.part.value + c.lock.body[w..w + n] == before + c.lock.body[..w + n];
    }
  }

  /** A PUT that gets the mutex is turned away for one of three reasons, or starts to copy its body. */
  lemma PutStarts(now: int, c: Cell, offset: Option<int>, body: Bytes, openOk: bool)
    requires CellInv(c) && CanEnter(c)
    ensures
      var o := Do(now, c, PutLock(offset, body, openOk));
      if c.part.None? then o == Outcome(c, Some(Plain(404)))
      else
        var before := c.part.value;
        if offset != Some(|before|) then o == Outcome(c, Some(Progress(409, |before|, None)))
        else if !openOk then o == Outcome(c, Some(Plain(500)))
        else o == Outcome(c.(lock := Writing(|before|, body, 0)), None)
  {
  }

  /** More than a chunk may carry, or more than the declared size has room for. */
  predicate TooMuch(size: nat, before: nat, count: nat) {
    count > 8388608 || before + count > size
  }

  /** While it copies, bytes of the body are appended in order; the last one taken is the first that is too much. */
  lemma BytesArrive(now: int, c: Cell, count: nat)
    requires CellInv(c) && c.lock.Writing? && count > 0
    ensures
      var Writing(before, body, written) := c.lock;
      var o := Do(now, c, PutData(count));
      if written + count <= |body| && !TooMuch(c.size, before, written + count - 1) then
        && o.reply.None? && o.cell.part == Some(c.part.value + body[written..written + count])
        && o.cell == c.(part := o.cell.part, lock := Writing(before, body, written + count))
      else o == Outcome(c, None)
  {
  }

  /**
   Whatever happens between the moment a PUT starts to copy its body and the moment the copy ends, after `written`
   bytes: it is answered 413 exactly if that is too much, and then the `.part` is as it was; it is answered 400
   exactly if it was interrupted within the limit, and in every case but the first the prefix that arrived is kept.
   A complete copy is the whole body; it is answered with the new offset, or finishes the upload.
   */
  lemma ChunkEffect(s: State, id: Id, offset: Option<int>, body: Bytes, es: seq<Event>, before: Bytes, written: nat,
                    copyOk: bool)
    requires Inv(s) && id in s.cells && CanEnter(s.cells[id]) && s.cells[id].part == Some(before)
    requires
      var s1 := Next(s, On(id, PutLock(offset, body, true)));
      && Held(s1, es, id) && id in Exec(s1, es).cells
      && var l := Exec(s1, es).cells[id].lock;
         l.Writing? && l.written == written
    requires copyOk ==> written == |body| || TooMuch(s.cells[id].size, |before|, written)
    ensures offset == Some(|before|) && written <= |body|
    ensures
      var c, s2, end := s.cells[id], Exec(Next(s, On(id, PutLock(offset, body, true))), es), On(id, PutEnd(copyOk));
      var d, r, tooMuch := Next(s2, end).cells[id], Reply(s2, end), TooMuch(c.size, |before|, written);
      && (r == Some(Plain(413)) <==> tooMuch)
      && (r == Some(Plain(400)) <==> !tooMuch && !copyOk)
      && d.part == Some(if tooMuch then before else before + body[..written])
      && d.updatedAt == s2.now && (r.Some? ==> d.lock.Free?)
      && (!tooMuch && copyOk ==>
            && d.part == Some(before + body)
            && if |before| + |body| == c.size then r.None? && d.lock.Finishing?
               else r == Some(Progress(200, |before| + |body|, None)))
  {
    hide Do, Next, Exec, CellInv;
    var start, end := On(id, PutLock(offset, body, true)), On(id, PutEnd(copyOk));
    var s1 := Next(s, start);
    PutStarts(s.now, s.cells[id], offset, body, true);
    NextCell(s, start, id);
    assert before + body[..0] == before;
    NextKeepsInv(s, start);
    HeldChunk(s1, es, id, before);
    ChunkEnds(Exec(s1, es).now, Exec(s1, es).cells[id], before, copyOk);
    NextCell(Exec(s1, es), end, id);
  }

  /** The end of the copy. */
  lemma ChunkEnds(now: int, c: Cell, before: Bytes, copyOk: bool)
    requires CellInv(c) && c.lock.Writing? && c.lock.current == |before|
    requires c.lock.written <= |c.lock.body| && c.part == Some(before + c.lock.body[..c.lock.written])
    requires copyOk ==> c.lock.written == |c.lock.body| || TooMuch(c.size, |before|, c.lock.written)
    ensures
      var body, written := c.lock.body, c.lock.written;
      var o, tooMuch := Do(now, c, PutEnd(copyOk)), TooMuch(c.size, |before|, written);
      && (o.reply == Some(Plain(413)) <==> tooMuch)
      && (o.reply == Some(Plain(400)) <==> !tooMuch && !copyOk)
      && o.cell.part == Some(if tooMuch then before else before + body[..written])
      && o.cell.updatedAt == now && (o.reply.Some? ==> o.cell.lock.Free?)
      && (!tooMuch && copyOk ==>
            && o.cell.part == Some(before + body)
            && if |before| + |body| == c.size then o.reply.None? && o.cell.lock.Finishing?
               else o.reply == Some(Progress(200, |before| + |body|, None)))
  {
    assert c.part.value[..|before|] == before;
    assert c.lock.body[..|c.lock.body|] == c.lock.body;
  }

  // ---- completion --------------------------------------------------------------------------------------

  /**
   A PUT at the right offset whose `.part` opens, as one step: `sent` bytes arrive.  The answer and what is left are
   told by how many there are, whether the copy ended well and whether the file could be renamed.
   */
  lemma PutAnswers(now: int, c: Cell, body: Bytes, sent: nat, copyOk: bool, renameOk: bool)
    requires CellInv(c) && CanEnter(c) && c.part.Some? && sent <= |body| && (copyOk ==> sent == |body|)
    ensures
      var before := c.part.value;
      var ops := PutOps(c, Some(|before|), body, true, sent, copyOk, renameOk);
      var d, rs, tooMuch := RunOps(now, c, ops), Answers(now, c, ops), TooMuch(c.size, |before|, sent);
      && (rs == [Plain(413)] <==> tooMuch)
      && (rs == [Plain(400)] <==> !tooMuch && !copyOk)
      && (rs == [Plain(500)] <==> !tooMuch && copyOk && |before| + sent == c.size && !renameOk)
      && d.updatedAt == now && d.lock.Free?
      && if !tooMuch && copyOk && |before| + sent == c.size && renameOk then
           && Done(d) && d.final == Some(before + body)
           && rs == [Progress(200, c.size, Some(FileInfo(c.name, c.mime, c.size)))]
         else
           && Open(d) && d.part == Some(if tooMuch then before else before + body[..sent])
           && (!tooMuch && copyOk && |before| + sent < c.size ==> rs == [Progress(200, |before| + sent, None)])
  {
    PutAsSteps(now, c, Some(|c.part.value|), body, true, sent, copyOk, renameOk);
    assert body[..|body|] == body;
  }

  /** A PUT answered 400 or 500 leaves the upload open with every byte that arrived. */
  lemma FailuresKeepTheUpload(now: int, c: Cell, offset: Option<int>, body: Bytes, openOk: bool, sent: nat, copyOk: bool, renameOk: bool)
    requires CellInv(c) && CanEnter(c) && sent <= |body| && (copyOk ==> sent == |body|)
    ensures
      var ops := PutOps(c, offset, body, openOk, sent, copyOk, renameOk);
      var d, rs := RunOps(now, c, ops), Answers(now, c, ops);
      (rs == [Plain(400)] || rs == [Plain(500)] <==>
         && c.part.Some? && offset == Some(|c.part.value|)
         && (!openOk ||
             (!TooMuch(c.size, |c.part.value|, sent) && (!copyOk || (|c.part.value| + sent == c.size && !renameOk)))))
      && (rs == [Plain(400)] || rs == [Plain(500)] ==>
            CellInv(d) && CanEnter(d) && Open(d) && d.part == Some(c.part.value + if openOk then body[..sent] else []))
  {
    PutAsSteps(now, c, offset, body, openOk, sent, copyOk, renameOk);
    if c.part.Some? {
      assert c.part.value + [] == c.part.value;
    }
  }

  /**
   A `.part` that reached the full size without being registered is finished by an empty PUT at that size,
   if and only if the rename succeeds; otherwise nothing is lost and the client may try again.
   */
  lemma CompletionIsRecoverable(now: int, c: Cell, renameOk: bool)
    requires CellInv(c) && c.lock.Free? && Open(c) && |c.part.value| == c.size
    ensures var ops := PutOps(c, Some(c.size), [], true, 0, true, renameOk);
            var d, rs := RunOps(now, c, ops), Answers(now, c, ops);
            && (Done(d) <==> renameOk)
            && (renameOk ==> d.final == c.part && rs == [Progress(200, c.size, Some(FileInfo(c.name, c.mime, c.size)))])
            && (!renameOk ==> CanEnter(d) && Open(d) && d.part == c.part && rs == [Plain(500)])
  {
    PutAsSteps(now, c, Some(c.size), [], true, 0, true, renameOk);
    assert c.part.value + [] == c.part.value;
  }

  /** After completion and until the file expires, every request but DELETE that looks the id up gets the same file. */
  lemma CompletionIsIdempotent(s: State, es: seq<Event>, id: Id)
    requires Inv(s) && id in s.cells && s.cells[id].file.Some?
    requires forall e :: e in es ==> !ExpiresFile(e, id)
    ensures var c := s.cells[id];
            && Reply(Exec(s, es), On(id, Lookup(false))) == Some(Progress(200, c.size, Some(Info(c.file.value))))
            && Exec(s, es).cells[id].final == c.final
  {
    assert CellInv(s.cells[id]);
    StaleRequestsAreInert(s, es, id);
  }

  /**
   So whether a request after completion gets the file depends on when it looked the session up and on nothing
   else: one that still holds the session from before waits for the mutex, finds no `.part` and is told 404.
   */
  lemma StaleSessionsMissTheFile(s: State, es: seq<Event>, id: Id, e: Event)
    requires Inv(s) && id in s.cells && s.cells[id].file.Some?
    requires forall e :: e in es ==> !ExpiresFile(e, id)
    requires e.On? && e.id == id && (e.op.Get? || e.op.PutLock? || e.op == Lookup(false))
    requires Reply(Exec(s, es), e).Some?
    ensures Reply(Exec(s, es), e) == Some(Plain(404)) <==> !e.op.Lookup?
    ensures Next(Exec(s, es), e) == Exec(s, es)
  {
    assert CellInv(s.cells[id]);
    StaleRequestsAreInert(s, es, id);
    var t := Exec(s, es);
    assert t.cells[id := t.cells[id]] == t.cells;
  }
}

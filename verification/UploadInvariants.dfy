/** What every step of the upload server keeps, one cell at a time and over whole runs. */
module UploadInvariants {
  import opened Prelude
  import opened UploadModel

  // ---- lifecycle ----------------------------------------------------------------------------

  /** Resumable: listed, a `.part` no longer than the declared size, no final file. */
  predicate Open(c: Cell) {
    && c.published && c.listed
    && c.part.Some? && |c.part.value| <= c.size
    && c.file.None? && c.final.None? && c.completed.None?
  }

  /** Complete: registered, a final file of exactly the declared size, no `.part`. */
  predicate Done(c: Cell) {
    && !c.listed && c.part.None?
    && c.final.Some? && |c.final.value| == c.size && c.completed == c.final
    && c.file.Some? && c.file.value.size == c.size
  }

  /** Cancelled, purged or expired: unreachable; an expired final file may still await os.Remove. */
  predicate Gone(c: Cell) {
    && !c.listed && c.part.None? && c.file.None?
    && (c.final.Some? ==> c.completed == c.final)
    && (c.completed.Some? ==> |c.completed.value| == c.size)
  }

  /** An empty upload whose rename failed inside the POST: no client ever learns its id. */
  predicate Stranded(c: Cell) {
    c.part == Some([]) && c.file.None? && c.final.None? && c.completed.None?
  }

  /** Finished or abandoned, whoever may still be inside the mutex. */
  predicate Closed(c: Cell) {
    (c.lock.Free? || c.lock.Removing?) && (Done(c) || Gone(c))
  }

  predicate CellInv(c: Cell) {
    && |c.content| == c.size
    && (c.published ==> c.size > 0)
    && match c.lock
       case Free =>
         if c.published then Open(c) || Done(c) || Gone(c)
         else c.size == 0 && !c.listed && (Done(c) || Gone(c) || Stranded(c))
       case Writing(current, body, written) =>
         && c.published && c.listed && c.part.Some?
         && c.file.None? && c.final.None? && c.completed.None?
         && current <= c.size && |c.part.value| == current + written
         && written <= Min(|body|, Limit(c.size, current) + 1)
       case Finishing => Open(c) && |c.part.value| == c.size
       case Renamed =>
         && c.published && c.listed && c.part.None? && c.file.None? && c.completed.None?
         && c.final.Some? && |c.final.value| == c.size
       case Delisted =>
         && c.published && !c.listed && c.part.None? && c.file.None? && c.completed.None?
         && c.final.Some? && |c.final.value| == c.size
       case Removing(_) =>
         && c.published && !c.listed
         && (Done(c) || Gone(c) || (c.part.Some? && c.file.None? && c.final.None? && c.completed.None?))
  }

  lemma StepKeepsCellInv(now: int, c: Cell, op: Op)
    requires CellInv(c)
    ensures CellInv(Do(now, c, op).cell)
  {
  }

  ghost predicate Inv(s: State) {
    forall id :: id in s.cells ==> CellInv(s.cells[id]) && s.cells[id].updatedAt <= s.now
  }

  lemma NextKeepsInv(s: State, e: Event)
    requires Inv(s)
    ensures Inv(Next(s, e))
  {
    if e.On? && e.id in s.cells {
      StepKeepsCellInv(s.now, s.cells[e.id], e.op);
      StepAdvances(s.now, s.cells[e.id], e.op);
    }
  }

  lemma {:induction false} ExecKeepsInv(s: State, es: seq<Event>)
    requires Inv(s)
    ensures Inv(Exec(s, es))
    decreases |es|
  {
    if es != [] {
      NextKeepsInv(s, es[0]);
      ExecKeepsInv(Next(s, es[0]), es[1..]);
    }
  }

  function Empty(now: int): State {
    State(now, map[])
  }

  /** In every run, whenever a session mutex is free the upload is open, complete or gone, and only one of them. */
  lemma Lifecycle(start: int, es: seq<Event>, id: Id)
    requires id in Exec(Empty(start), es).cells
    ensures var c := Exec(Empty(start), es).cells[id];
            c.published && c.lock.Free? ==>
              && (Open(c) || Done(c) || Gone(c))
              && !(Open(c) && Done(c)) && !(Open(c) && Gone(c)) && !(Done(c) && Gone(c))
  {
    ExecKeepsInv(Empty(start), es);
  }

  // ---- one cell along a run -----------------------------------------------------------------

  /** The cell of an existing id after an event is the same cell or the result of one operation on it. */
  lemma NextCell(s: State, e: Event, id: Id)
    requires id in s.cells
    ensures id in Next(s, e).cells
    ensures s.now <= Next(s, e).now
    ensures Next(s, e).cells[id] ==
            if e.On? && e.id == id then Do(s.now, s.cells[id], e.op).cell else s.cells[id]
  {
  }

  // ---- stale sessions -----------------------------------------------------------------------

  predicate ExpiresFile(e: Event, id: Id) {
    e.On? && e.id == id && e.op.ExpireFile?
  }

  /** What may still change once an upload is closed: its files entry and its file may expire. */
  predicate Frozen(c: Cell, d: Cell) {
    && Closed(d) && d.part.None? && !d.listed && d.completed == c.completed
    && (d.file == c.file || d.file.None?)
    && (d.final == c.final || (d.final.None? && d.file.None? && c.completed.Some?))
  }

  lemma ClosedStep(now: int, c: Cell, op: Op)
    requires CellInv(c) && Closed(c)
    ensures Frozen(c, Do(now, c, op).cell)
    ensures !op.ExpireFile? ==> Do(now, c, op).cell.file == c.file
  {
  }

  /**
   A request that looked the session up before the upload was finished, cancelled or purged can never
   write, recreate or delete its data, however late it gets the mutex; only expiry touches the file.
   */
  lemma {:induction false} StaleRequestsAreInert(s: State, es: seq<Event>, id: Id)
    requires Inv(s) && id in s.cells && Closed(s.cells[id])
    ensures id in Exec(s, es).cells && Frozen(s.cells[id], Exec(s, es).cells[id])
    ensures s.cells[id].file.Some? && (forall e :: e in es ==> !ExpiresFile(e, id)) ==>
              Exec(s, es).cells[id].file == s.cells[id].file && Exec(s, es).cells[id].final == s.cells[id].final
    decreases |es|
  {
    if es != [] {
      NextKeepsInv(s, es[0]);
      if es[0].On? && es[0].id == id {
        ClosedStep(s.now, s.cells[id], es[0].op);
      }
      StaleRequestsAreInert(Next(s, es[0]), es[1..], id);
      assert forall e :: e in es[1..] ==> e in es;
      assert es[0] in es;
    }
  }

  // ---- acknowledged offsets -----------------------------------------------------------------

  /** How far the upload has come, in terms no unfinished chunk can take back. */
  function Reached(c: Cell): nat {
    if c.lock.Writing? then c.lock.current
    else if c.part.Some? && c.listed then |c.part.value|
    else c.size
  }

  /** d is the same upload as c, no less far on. */
  predicate Advances(c: Cell, d: Cell) {
    && d.name == c.name && d.mime == c.mime && d.size == c.size
    && d.content == c.content && d.published == c.published
    && Reached(c) <= Reached(d) <= c.size
    && c.updatedAt <= d.updatedAt
  }

  lemma StepAdvances(now: int, c: Cell, op: Op)
    requires CellInv(c) && c.updatedAt <= now
    ensures Advances(c, Do(now, c, op).cell)
    ensures Do(now, c, op).cell.updatedAt <= now
  {
  }

  /** Every offset in an answer lies between what was reached before and after the answering step. */
  lemma ReportedOffset(now: int, c: Cell, op: Op)
    requires CellInv(c)
    requires Do(now, c, op).reply.Some? && Do(now, c, op).reply.value.Progress?
    ensures Reached(c) <= Do(now, c, op).reply.value.offset
    ensures Do(now, c, op).reply.value.offset <= Reached(Do(now, c, op).cell)
  {
  }

  lemma {:induction false} ExecAdvances(s: State, es: seq<Event>, id: Id)
    requires Inv(s) && id in s.cells
    ensures Inv(Exec(s, es)) && id in Exec(s, es).cells && Advances(s.cells[id], Exec(s, es).cells[id])
    ensures s.now <= Exec(s, es).now
    decreases |es|
  {
    if es != [] {
      NextKeepsInv(s, es[0]);
      NextCell(s, es[0], id);
      if es[0].On? && es[0].id == id {
        StepAdvances(s.now, s.cells[id], es[0].op);
      }
      ExecAdvances(Next(s, es[0]), es[1..], id);
    }
  }
}

/**
 The resumable-upload server as a state machine.

 Everything the server keeps about one upload id lives in a Cell: the session object, its entry in
 the uploads map, its entry in the files map, the `.part` file, the final file and the state of the
 session mutex.  An operation is one step between two points where another goroutine can interfere;
 the section a handler runs under the mutex is therefore several operations.

 A request loads the session pointer before it locks the session, and may wait for any time in
 between.  So from the moment the session is published (stored in the uploads map) every PUT, GET,
 DELETE and cleanup visit may reach the mutex at any later time, whatever the uploads map says then.

 `Do` is total: an operation that cannot happen now leaves the cell alone and answers nothing.  A
 list of events is therefore a run, and a statement about every list is one about every run: lost,
 delayed, duplicated, reordered and truncated requests included.
 */
module UploadModel {
  import opened Prelude

  type Id = string

  /** UploadChunkSize, 8 << 20. */
  const CHUNK: nat := 8388608

  datatype FileRecord = FileRecord(name: string, mime: string, size: nat, createdAt: int)

  /** What a client is told about a finished file; the file id is the upload id. */
  datatype FileInfo = FileInfo(name: string, mime: string, size: nat)

  datatype Response =
    | Plain(status: nat)
    | Progress(status: nat, offset: nat, file: Option<FileInfo>)

  /** The session mutex and, while it is held, how far its holder has come. */
  datatype Lock =
    | Free
    | Writing(current: nat, body: Bytes, written: nat)  // copying the request body to the `.part` file
    | Finishing                                         // the size is reached; os.Rename is next
    | Renamed                                           // uploads.Delete is next
    | Delisted                                          // registerFile is next
    | Removing(byRequest: bool)                         // uploads.Delete is done; os.Remove is next

  datatype Cell = Cell(
    name: string,
    mime: string,
    size: nat,
    content: Bytes,            // history: the file the creator of the session means to upload
    updatedAt: int,
    published: bool,           // history: the session has been stored in the uploads map
    listed: bool,              // the uploads map has the session now
    file: Option<FileRecord>,  // the files map entry
    part: Option<Bytes>,
    final: Option<Bytes>,
    lock: Lock,
    completed: Option<Bytes>)  // history: the bytes of the final file when it was registered

  datatype Op =
    | PutLock(offset: Option<int>, body: Bytes, openOk: bool)
    | PutData(count: nat)
    | PutEnd(copyOk: bool)
    | FinishRename(renameOk: bool)
    | FinishDelist
    | FinishRegister
    | Get
    | Delete
    | Purge(cutoff: int)
    | Remove
    | Lookup(isDelete: bool)
    | ExpireFile(cutoff: int)
    | UnlinkFile

  datatype Outcome = Outcome(cell: Cell, reply: Option<Response>)

  /** How many bytes a chunk at `current` may add. */
  function Limit(size: nat, current: nat): int {
    Min(CHUNK, size - current)
  }

  function Info(r: FileRecord): FileInfo {
    FileInfo(r.name, r.mime, r.size)
  }

  function Silent(c: Cell): Outcome {
    Outcome(c, None)
  }

  function Answer(c: Cell, r: Response): Outcome {
    Outcome(c, Some(r))
  }

  /** The handler may enter the mutex: it holds a session pointer and nobody else is inside. */
  predicate CanEnter(c: Cell) {
    c.published && c.lock.Free?
  }

  function DoPutLock(c: Cell, offset: Option<int>, body: Bytes, openOk: bool): Outcome {
    if !CanEnter(c) then Silent(c)
    else if c.part.None? then Answer(c, Plain(404))
    else if offset != Some(|c.part.value| as int) then Answer(c, Progress(409, |c.part.value|, None))
    else if !openOk then Answer(c, Plain(500))
    else Silent(c.(lock := Writing(|c.part.value|, body, 0)))
  }

  /** io.Copy moves some more bytes of the body; the reader ends one byte past the limit. */
  function DoPutData(c: Cell, n: nat): Outcome {
    match c.lock
    case Writing(current, body, written) =>
      if c.part.Some? && written + n <= Min(|body|, Limit(c.size, current) + 1) then
        Silent(c.(part := Some(c.part.value + body[written..written + n]),
                  lock := Writing(current, body, written + n)))
      else Silent(c)
    case _ => Silent(c)
  }

  /** io.Copy returns: without error at the end of the body or of the limited reader, or with one. */
  function DoPutEnd(now: int, c: Cell, copyOk: bool): Outcome {
    match c.lock
    case Writing(current, body, written) =>
      var limit := Limit(c.size, current);
      if c.part.None? || current > |c.part.value| || (copyOk && written != Min(|body|, limit + 1)) then Silent(c)
      else
        var c1 := c.(updatedAt := now, lock := Free);
        if written > limit then Answer(c1.(part := Some(c.part.value[..current])), Plain(413))
        else if !copyOk then Answer(c1, Plain(400))
        else if current + written == c.size then Silent(c1.(lock := Finishing))
        else Answer(c1, Progress(200, current + written, None))
    case _ => Silent(c)
  }

  function DoFinishRename(c: Cell, renameOk: bool): Outcome {
    if !c.lock.Finishing? then Silent(c)
    else if renameOk then Silent(c.(part := None, final := c.part, lock := Renamed))
    else Answer(c.(lock := Free), Plain(500))
  }

  function DoFinishRegister(now: int, c: Cell): Outcome {
    if !c.lock.Delisted? then Silent(c)
    else
      var r := FileRecord(c.name, c.mime, c.size, now);
      Answer(c.(file := Some(r), completed := c.final, lock := Free), Progress(200, c.size, Some(Info(r))))
  }

  function DoGet(c: Cell): Outcome {
    if !CanEnter(c) then Silent(c)
    else if c.part.None? then Answer(c, Plain(404))
    else Answer(c, Progress(200, |c.part.value|, None))
  }

  /** A request that finds no uploads entry is answered from the files map. */
  function DoLookup(c: Cell, isDelete: bool): Outcome {
    if c.listed then Silent(c)
    else if c.file.Some? && !isDelete then Answer(c, Progress(200, c.file.value.size, Some(Info(c.file.value))))
    else Answer(c, Plain(404))
  }

  function Do(now: int, c: Cell, op: Op): Outcome {
    match op
    case PutLock(offset, body, openOk) => DoPutLock(c, offset, body, openOk)
    case PutData(n) => DoPutData(c, n)
    case PutEnd(copyOk) => DoPutEnd(now, c, copyOk)
    case FinishRename(ok) => DoFinishRename(c, ok)
    case FinishDelist => Silent(if c.lock.Renamed? then c.(listed := false, lock := Delisted) else c)
    case FinishRegister => DoFinishRegister(now, c)
    case Get => DoGet(c)
    case Delete => Silent(if CanEnter(c) then c.(listed := false, lock := Removing(true)) else c)
    case Purge(cutoff) =>
      Silent(if CanEnter(c) && c.updatedAt < cutoff then c.(listed := false, lock := Removing(false)) else c)
    case Remove =>
      if !c.lock.Removing? then Silent(c)
      else Outcome(c.(part := None, lock := Free), if c.lock.byRequest then Some(Plain(204)) else None)
    case Lookup(isDelete) => DoLookup(c, isDelete)
    case ExpireFile(cutoff) =>
      Silent(if c.file.Some? && c.file.value.createdAt < cutoff then c.(file := None) else c)
    case UnlinkFile => Silent(if c.file.None? && c.completed.Some? then c.(final := None) else c)
  }

  // ---- the whole server -------------------------------------------------------------------

  datatype State = State(now: int, cells: map<Id, Cell>)

  datatype Event =
    | Tick(elapsed: nat)
    | Create(id: Id, name: string, mime: string, content: Bytes, renameOk: bool)
    | On(id: Id, op: Op)

  /** POST /api/uploads with a fresh id.  An empty file is finished at once and never published. */
  function NewCell(now: int, name: string, mime: string, content: Bytes, renameOk: bool): Cell {
    var c := Cell(name, mime, |content|, content, now, |content| > 0, |content| > 0, None, Some([]), None, Free, None);
    if |content| > 0 || !renameOk then c
    else c.(part := None, final := Some([]), file := Some(FileRecord(name, mime, 0, now)), completed := Some([]))
  }

  function Next(s: State, e: Event): State {
    match e
    case Tick(d) => s.(now := s.now + d)
    case Create(id, name, mime, content, renameOk) =>
      if id in s.cells then s else s.(cells := s.cells[id := NewCell(s.now, name, mime, content, renameOk)])
    case On(id, op) =>
      if id in s.cells then s.(cells := s.cells[id := Do(s.now, s.cells[id], op).cell]) else s
  }

  /** The answer an event gives, if any. */
  function Reply(s: State, e: Event): Option<Response> {
    match e
    case On(id, op) => if id in s.cells then Do(s.now, s.cells[id], op).reply else Some(Plain(404))
    case _ => None
  }

  function Exec(s: State, es: seq<Event>): State
    decreases |es|
  {
    if es == [] then s else Exec(Next(s, es[0]), es[1..])
  }

  lemma {:induction false} ExecConcat(s: State, a: seq<Event>, b: seq<Event>)
    ensures Exec(s, a + b) == Exec(Exec(s, a), b)
    decreases |a|
  {
    if a == [] {
      assert a + b == b;
    } else {
      assert (a + b)[0] == a[0] && (a + b)[1..] == a[1..] + b;
      ExecConcat(Next(s, a[0]), a[1..], b);
    }
  }

  lemma ExecSnoc(s: State, es: seq<Event>, e: Event)
    ensures Exec(s, es + [e]) == Next(Exec(s, es), e)
  {
    ExecConcat(s, es, [e]);
    assert Exec(Exec(s, es), [e]) == Exec(Next(Exec(s, es), e), []);
  }
}

/**
 The handlers of the upload server, each run without interruption, proved to do to the maps, the session
 objects and the disk what the operations of UploadModel do to one cell.
 */
module UploadServer {
  import opened Prelude
  import opened UploadModel
  import opened UploadInvariants
  import opened UploadTheorems

  /** The upload directory, by the only two names the server gives a file: `<id>.part` and `<id>`. */
  datatype Path = PartPath(id: Id) | FinalPath(id: Id)

  datatype Verb = GET | PUT | DELETE | OTHER

  function Find<K, V>(m: map<K, V>, k: K): Option<V> {
    if k in m then Some(m[k]) else None
  }

  /** Every entry of one map is an entry of the other. */
  ghost predicate SameEntries<K, V>(m: map<K, V>, was: map<K, V>) {
    forall k :: k in m ==> k in was && m[k] == was[k]
  }

  /** What each path holds, told by its two kinds. */
  lemma SameFiles(was: map<Path, Bytes>, disk: map<Path, Bytes>, parts: set<Id>, finals: set<Id>)
    requires forall id :: Find(disk, PartPath(id)) == if id in parts then None else Find(was, PartPath(id))
    requires forall id :: Find(disk, FinalPath(id)) == if id in finals then None else Find(was, FinalPath(id))
    ensures forall p :: p in disk <==> p in was && !(p.PartPath? && p.id in parts) && !(p.FinalPath? && p.id in finals)
    ensures SameEntries(disk, was)
  {
    forall p
      ensures Find(disk, p) == if (p.PartPath? && p.id in parts) || (p.FinalPath? && p.id in finals) then None else Find(was, p)
    {
      match p
      case PartPath(id) =>
      case FinalPath(id) =>
    }
    forall p
      ensures p in disk <==> p in was && !(p.PartPath? && p.id in parts) && !(p.FinalPath? && p.id in finals)
      ensures p in disk ==> disk[p] == was[p]
    {
      assert Find(disk, p).Some? <==> p in disk;
    }
  }

  /** The fields of one session object. */
  datatype Session = Session(name: string, mime: string, size: nat, content: Bytes, updatedAt: int)

  /** Everything the server holds under one id at one moment. */
  datatype Entry = Entry(
    session: Option<Session>,  // the session object made for the id, whoever still holds it
    listed: bool,
    file: Option<FileRecord>,
    part: Option<Bytes>,
    final: Option<Bytes>,
    completed: Option<Bytes>)

  const BLANK := Entry(None, false, None, None, None, None)

  function CellIn(e: Entry): Cell
    requires e.session.Some?
  {
    var s := e.session.value;
    Cell(s.name, s.mime, s.size, s.content, s.updatedAt, s.size > 0, e.listed, e.file, e.part, e.final, Free, e.completed)
  }

  /** The same once its `.part` has been renamed, delisted and registered. */
  function Finished(now: int, e: Entry): Entry
    requires e.session.Some?
  {
    var s := e.session.value;
    e.(listed := false, part := None, final := e.part, completed := e.part,
       file := Some(FileRecord(s.name, s.mime, s.size, now)))
  }

  /** The same after a cleanup visit, if there was one. */
  function PurgedIf(visited: bool, cutoff: int, e: Entry): Entry {
    if visited && e.session.Some? && e.session.value.updatedAt < cutoff then e.(listed := false, part := None) else e
  }

  lemma NotVisited(cutoff: int)
    ensures forall e :: PurgedIf(false, cutoff, e) == e
  {
  }

  /** A visit to a listed session is the two cleanup steps; on any other cell those steps do nothing. */
  lemma PurgeAsSteps(now: int, cutoff: int, e: Entry)
    requires Settled(now, e)
    ensures Settled(now, PurgedIf(e.listed, cutoff, e))
    ensures e.session.Some? ==> CellIn(PurgedIf(e.listed, cutoff, e)) == RunOps(now, CellIn(e), [Purge(cutoff), Remove])
  {
    if e.session.Some? {
      RunTwo(now, CellIn(e), Purge(cutoff), Remove);
    }
  }

  /** The same once cleanup has taken an old file away, if it got to it. */
  function ExpiredIf(visited: bool, cutoff: int, e: Entry): Entry {
    if visited && e.file.Some? && e.file.value.createdAt < cutoff then e.(file := None, final := None) else e
  }

  lemma ExpireAsSteps(now: int, cutoff: int, e: Entry)
    requires Settled(now, e)
    ensures Settled(now, ExpiredIf(e.file.Some?, cutoff, e))
    ensures e.session.Some? ==>
              CellIn(ExpiredIf(e.file.Some?, cutoff, e)) == RunOps(now, CellIn(e), [ExpireFile(cutoff), UnlinkFile])
  {
    if e.session.Some? {
      RunTwo(now, CellIn(e), ExpireFile(cutoff), UnlinkFile);
    }
  }

  /** The same after one cleanup pass. */
  function Cleaned(cutoff: int, e: Entry): Entry {
    PurgedIf(e.listed, cutoff, ExpiredIf(e.file.Some?, cutoff, e))
  }

  lemma CleanupKeepsSettled(now: int, cutoff: int, e: Entry)
    requires Settled(now, e)
    ensures Settled(now, Cleaned(cutoff, e))
  {
  }

  /** One cleanup pass runs the same four operations on every upload. */
  lemma CleanupAsSteps(now: int, cutoff: int, e: Entry)
    requires Settled(now, e)
    ensures e.session.Some? ==>
              CellIn(Cleaned(cutoff, e)) ==
              RunOps(now, CellIn(e), [ExpireFile(cutoff), UnlinkFile] + [Purge(cutoff), Remove])
  {
    ExpireAsSteps(now, cutoff, e);
    PurgeAsSteps(now, cutoff, ExpiredIf(e.file.Some?, cutoff, e));
    if e.session.Some? {
      RunConcat(now, CellIn(e), [ExpireFile(cutoff), UnlinkFile], [Purge(cutoff), Remove]);
    }
  }

  lemma DeleteAsSteps(now: int, e: Entry)
    requires Settled(now, e) && e.session.Some? && e.session.value.size > 0
    ensures var d := e.(listed := false, part := None);
            && Settled(now, d) && CellIn(d) == RunOps(now, CellIn(e), [Delete, Remove])
            && Answers(now, CellIn(e), [Delete, Remove]) == [Plain(204)]
  {
    RunTwo(now, CellIn(e), Delete, Remove);
  }

  /** No handler is under way; in particular no expired file waits for os.Remove. */
  predicate Settled(now: int, e: Entry) {
    if e.session.None? then e == BLANK
    else
      SettledCell(now, CellIn(e))
  }

  /** A finished session is still held by requests that loaded it earlier; only updatedAt ever changes. */
  class UploadSession {
    const id: Id
    const name: string
    const mime: string
    const size: nat
    var updatedAt: int

    constructor (id: Id, name: string, mime: string, size: nat, now: int)
      ensures this.id == id && this.name == name && this.mime == mime && this.size == size && updatedAt == now
    {
      this.id, this.name, this.mime, this.size, updatedAt := id, name, mime, size, now;
    }
  }

  ghost function Fields(s: UploadSession, content: Bytes): Session
    reads s
  {
    Session(s.name, s.mime, s.size, content, s.updatedAt)
  }

  class Server {
    const maxUploadBytes: nat
    var now: int
    var uploads: map<Id, UploadSession>
    var files: map<Id, FileRecord>
    var disk: map<Path, Bytes>
    ghost var heap: map<Id, UploadSession>  // every session object ever made
    ghost var contents: map<Id, Bytes>      // the file each session was made for
    ghost var completed: map<Id, Bytes>     // what the final file held when it was registered

    ghost predicate Shape()
      reads this, heap.Values
    {
      && heap.Keys == contents.Keys
      && (forall id :: id in heap ==> heap[id].id == id)
      && (forall id :: id in uploads ==> id in heap && uploads[id] == heap[id])
    }

    ghost function At(id: Id): Entry
      requires heap.Keys == contents.Keys
      reads this, heap.Values
    {
      Entry(if id in heap then Some(Fields(heap[id], contents[id])) else None,
            id in uploads, Find(files, id), Find(disk, PartPath(id)), Find(disk, FinalPath(id)), Find(completed, id))
    }

    /** The cell of an id some session was made for. */
    ghost function CellAt(id: Id): Cell
      requires heap.Keys == contents.Keys && id in heap
      reads this, heap.Values
    {
      CellIn(At(id))
    }

    ghost predicate Valid()
      reads this, heap.Values
    {
      Shape() && forall id :: Settled(now, At(id))
    }

    constructor (maxUploadBytes: nat, now: int)
      ensures Valid() && heap == map[] && this.now == now && this.maxUploadBytes == maxUploadBytes
    {
      this.maxUploadBytes, this.now := maxUploadBytes, now;
      uploads, files, disk := map[], map[], map[];
      heap, contents, completed := map[], map[], map[];
    }

    method RegisterFile(id: Id, name: string, mime: string, size: nat) returns (file: FileInfo)
      modifies this`files
      ensures files == old(files)[id := FileRecord(name, mime, size, now)]
      ensures file == FileInfo(name, mime, size)
    {
      files := files[id := FileRecord(name, mime, size, now)];
      file := FileInfo(name, mime, size);
    }

    /** finishUpload: os.Rename, uploads.Delete, registerFile. */
    method FinishUpload(sess: UploadSession, renameOk: bool) returns (file: Option<FileInfo>)
      requires Shape() && sess.id in heap && heap[sess.id] == sess && PartPath(sess.id) in disk
      modifies this`uploads, this`files, this`disk, this`completed
      ensures Shape() && forall id :: id != sess.id ==> At(id) == old(At(id))
      ensures file == if renameOk then Some(FileInfo(sess.name, sess.mime, sess.size)) else None
      ensures At(sess.id) == if renameOk then Finished(now, old(At(sess.id))) else old(At(sess.id))
      ensures
        if renameOk then
          && disk == (old(disk) - {PartPath(sess.id)})[FinalPath(sess.id) := old(disk)[PartPath(sess.id)]]
          && uploads == old(uploads) - {sess.id}
          && files == old(files)[sess.id := FileRecord(sess.name, sess.mime, sess.size, now)]
        else
          disk == old(disk) && uploads == old(uploads) && files == old(files)
    {
      if !renameOk {
        return None;
      }
      var part, final := PartPath(sess.id), FinalPath(sess.id);
      disk := (disk - {part})[final := disk[part]];
      uploads := uploads - {sess.id};
      var info := RegisterFile(sess.id, sess.name, sess.mime, sess.size);
      completed := completed[sess.id := disk[final]];
      return Some(info);
    }

    /** io.Copy into the `.part` file, one buffer of 32 KiB at a time. */
    method CopyBody(path: Path, data: Bytes) returns (written: nat)
      requires path in disk
      modifies this`disk
      ensures written == |data| && disk == old(disk)[path := old(disk)[path] + data]
    {
      written := 0;
      ghost var before := disk[path];
      assert before + data[..0] == before;
      while written < |data|
        invariant written <= |data|
        invariant disk == old(disk)[path := before + data[..written]]
      {
        var n := Min(32768, |data| - written);
        assert before + data[..written] + data[written..written + n] == before + data[..written + n];
        disk := disk[path := disk[path] + data[written..written + n]];
        written := written + n;
      }
      assert data[..written] == data;
    }

    /** POST /api/uploads.  The id is fresh; name and mime are already cleaned up. */
    method HandleUploadCreate(id: Id, name: string, mime: string, size: int, ghost content: Bytes, createOk: bool,
                              renameOk: bool)
      returns (r: Response)
      requires Valid() && id !in heap && (0 <= size ==> |content| == size)
      modifies this
      ensures Valid() && now == old(now) && forall j :: j != id ==> At(j) == old(At(j))
      ensures id in heap <==> 0 <= size <= maxUploadBytes && createOk
      ensures id in heap ==> CellAt(id) == NewCell(now, name, mime, content, renameOk)
      ensures r.Progress? ==>
                && id in heap && heap[id].name == name && heap[id].mime == mime && heap[id].size == size && heap[id].updatedAt == now
                && (if size > 0 then uploads == old(uploads)[id := heap[id]] && files == old(files)
                    else uploads == old(uploads) && files == old(files)[id := FileRecord(name, mime, 0, now)])
                && disk == old(disk)[if size > 0 then PartPath(id) else FinalPath(id) := []]
      ensures !r.Progress? ==> uploads == old(uploads) && files == old(files)
      ensures r == if size < 0 then Plain(400)
                   else if size > maxUploadBytes then Plain(413)
                   else if !createOk || (size == 0 && !renameOk) then Plain(500)
                   else Progress(201, 0, if size == 0 then Some(FileInfo(name, mime, 0)) else None)
    {
      if size < 0 {
        return Plain(400);
      }
      if size > maxUploadBytes {
        return Plain(413);
      }
      if !createOk {
        return Plain(500);
      }
      assert Settled(now, At(id));
      r := CreateSession(id, name, mime, size, content, renameOk);
      NewCellIsSettled(now, name, mime, content, renameOk);
      assert Settled(now, At(id));
    }

    /** The part of handleUploadCreate that leaves something behind. */
    method CreateSession(id: Id, name: string, mime: string, size: nat, ghost content: Bytes, renameOk: bool)
      returns (r: Response)
      requires Shape() && At(id) == BLANK && |content| == size
      modifies this`uploads, this`files, this`disk, this`heap, this`contents, this`completed
      ensures Shape()
      ensures forall j :: j != id ==> At(j) == old(At(j))
      ensures id in heap && CellAt(id) == NewCell(now, name, mime, content, renameOk)
      ensures heap[id].name == name && heap[id].mime == mime && heap[id].size == size && heap[id].updatedAt == now
      ensures uploads == if size > 0 then old(uploads)[id := heap[id]] else old(uploads)
      ensures files == if size == 0 && renameOk then old(files)[id := FileRecord(name, mime, 0, now)] else old(files)
      ensures disk == old(disk)[if size > 0 || !renameOk then PartPath(id) else FinalPath(id) := []]
      ensures r == if size == 0 && !renameOk then Plain(500)
                   else Progress(201, 0, if size == 0 then Some(FileInfo(name, mime, 0)) else None)
    {
      hide Shape;
      var sess := OpenPart(id, name, mime, size, content);
      if size == 0 {
        assert content == [];
        var file := FinishUpload(sess, renameOk);
        r := if file.None? then Plain(500) else Progress(201, 0, file);
      } else {
        StoreSession(sess);
        r := Progress(201, 0, None);
      }
    }

    /** uploads.Store. */
    method StoreSession(sess: UploadSession)
      requires Shape() && sess.id in heap && heap[sess.id] == sess
      modifies this`uploads
      ensures Shape() && forall j :: j != sess.id ==> At(j) == old(At(j))
      ensures uploads == old(uploads)[sess.id := sess] && At(sess.id) == old(At(sess.id)).(listed := true)
    {
      uploads := uploads[sess.id := sess];
    }

    /** The session object and its empty `.part` file. */
    method OpenPart(id: Id, name: string, mime: string, size: nat, ghost content: Bytes) returns (sess: UploadSession)
      requires Shape() && At(id) == BLANK && |content| == size
      modifies this`disk, this`heap, this`contents
      ensures disk == old(disk)[PartPath(id) := []] && sess.updatedAt == now
      ensures Shape() && forall j :: j != id ==> At(j) == old(At(j))
      ensures sess.id == id && sess.name == name && sess.mime == mime && sess.size == size
      ensures id in heap && heap[id] == sess && PartPath(id) in disk
      ensures At(id) == BLANK.(session := Some(Session(name, mime, size, content, now)), part := Some([]))
    {
      sess := new UploadSession(id, name, mime, size, now);
      disk := disk[PartPath(id) := []];
      heap, contents := heap[id := sess], contents[id := content];
    }

    /** PUT with a session pointer that may be stale by now. */
    method PutChunk(sess: UploadSession, offset: Option<int>, body: Bytes, openOk: bool, sent: nat, copyOk: bool,
                    renameOk: bool)
      returns (r: Response)
      requires Valid() && sess.id in heap && heap[sess.id] == sess && sess.size > 0
      requires sent <= |body| && (copyOk ==> sent == |body|)
      modifies this`uploads, this`files, this`disk, this`completed, sess
      ensures Valid()
      ensures heap == old(heap) && forall id :: id != sess.id ==> At(id) == old(At(id))
      ensures var o := ServePut(now, old(CellAt(sess.id)), offset, body, openOk, sent, copyOk, renameOk);
              o.reply == Some(r) && CellAt(sess.id) == o.cell
      ensures
        var part := PartPath(sess.id);
        if part !in old(disk) then r == Plain(404) && disk == old(disk) && uploads == old(uploads) && files == old(files)
        else
          var before := old(disk)[part];
          if offset != Some(|before|) then
            r == Progress(409, |before|, None) && disk == old(disk) && uploads == old(uploads) && files == old(files)
          else if !openOk then r == Plain(500) && disk == old(disk) && uploads == old(uploads) && files == old(files)
          else
            && sess.updatedAt == now
            && if TooMuch(sess.size, |before|, sent) then
                 r == Plain(413) && disk == old(disk) && uploads == old(uploads) && files == old(files)
               else
                 var after := before + body[..sent];
                 if copyOk && |after| == sess.size && renameOk then
                   && r == Progress(200, sess.size, Some(FileInfo(sess.name, sess.mime, sess.size)))
                   && disk == (old(disk) - {part})[FinalPath(sess.id) := after]
                   && uploads == old(uploads) - {sess.id}
                   && files == old(files)[sess.id := FileRecord(sess.name, sess.mime, sess.size, now)]
                 else
                   && disk == old(disk)[part := after] && uploads == old(uploads) && files == old(files)
                   && r == if !copyOk then Plain(400) else if |after| == sess.size then Plain(500)
                           else Progress(200, |after|, None)
    {
      PutKeepsSettled(now, At(sess.id), offset, body, openOk, sent, copyOk, renameOk);
      r := PutLocked(sess, offset, body, openOk, sent, copyOk, renameOk);
      assert Settled(now, At(sess.id));
    }

    /** The body of putChunk, under the mutex. */
    method PutLocked(sess: UploadSession, offset: Option<int>, body: Bytes, openOk: bool, sent: nat, copyOk: bool,
                     renameOk: bool)
      returns (r: Response)
      requires Shape() && sess.id in heap && heap[sess.id] == sess && sess.size > 0
      requires PartPath(sess.id) in disk ==> |disk[PartPath(sess.id)]| <= sess.size
      requires sent <= |body| && (copyOk ==> sent == |body|)
      modifies this`uploads, this`files, this`disk, this`completed, sess
      ensures Shape() && forall id :: id != sess.id ==> At(id) == old(At(id))
      ensures var o := ServePut(now, old(CellAt(sess.id)), offset, body, openOk, sent, copyOk, renameOk);
              o.reply == Some(r) && CellAt(sess.id) == o.cell
      ensures
        var part := PartPath(sess.id);
        if part !in old(disk) then r == Plain(404) && disk == old(disk) && uploads == old(uploads) && files == old(files)
        else
          var before := old(disk)[part];
          if offset != Some(|before|) then
            r == Progress(409, |before|, None) && disk == old(disk) && uploads == old(uploads) && files == old(files)
          else if !openOk then r == Plain(500) && disk == old(disk) && uploads == old(uploads) && files == old(files)
          else
            && sess.updatedAt == now
            && if TooMuch(sess.size, |before|, sent) then
                 r == Plain(413) && disk == old(disk) && uploads == old(uploads) && files == old(files)
               else
                 var after := before + body[..sent];
                 if copyOk && |after| == sess.size && renameOk then
                   && r == Progress(200, sess.size, Some(FileInfo(sess.name, sess.mime, sess.size)))
                   && disk == (old(disk) - {part})[FinalPath(sess.id) := after]
                   && uploads == old(uploads) - {sess.id}
                   && files == old(files)[sess.id := FileRecord(sess.name, sess.mime, sess.size, now)]
                 else
                   && disk == old(disk)[part := after] && uploads == old(uploads) && files == old(files)
                   && r == if !copyOk then Plain(400) else if |after| == sess.size then Plain(500)
                           else Progress(200, |after|, None)
    {
      hide Shape;
      var path := PartPath(sess.id);
      if path !in disk {
        return Plain(404);
      }
      var current := |disk[path]|;
      if offset != Some(current as int) {
        return Progress(409, current, None);
      }
      var limit := Min(CHUNK, sess.size - current);
      if !openOk {
        return Plain(500);
      }
      var data := body[..Min(sent, limit + 1)];
      var failure := WriteChunk(sess, data, limit, copyOk);
      if failure.Some? {
        return failure.value;
      }
      assert data == body[..sent];
      if current + |data| == sess.size {
        var file := FinishUpload(sess, renameOk);
        return if file.None? then Plain(500) else Progress(200, sess.size, file);
      }
      return Progress(200, current + |data|, None);
    }

    /** The lookup every session request starts with, and the answer to a request that finds no session. */
    method LoadSession(id: Id, verb: Verb) returns (sess: Option<UploadSession>, r: Option<Response>)
      requires Valid()
      ensures sess == Find(uploads, id)
      ensures id in heap ==> r == DoLookup(CellAt(id), verb.DELETE?).reply
      ensures r == if id in uploads then None
                   else if id in files && verb != DELETE then
                     var f := files[id];
                     Some(Progress(200, f.size, Some(FileInfo(f.name, f.mime, f.size))))
                   else Some(Plain(404))
    {
      assert Settled(now, At(id));
      if id in uploads {
        return Some(uploads[id]), None;
      }
      if id in files && !verb.DELETE? {
        var f := files[id];
        return None, Some(Progress(200, f.size, Some(FileInfo(f.name, f.mime, f.size))));
      }
      return None, Some(Plain(404));
    }

    /** uploads.Delete and os.Remove, for a DELETE and for a cleanup visit. */
    method Discard(id: Id)
      requires Shape()
      modifies this`uploads, this`disk
      ensures Shape() && forall j :: j != id ==> At(j) == old(At(j))
      ensures At(id) == old(At(id)).(listed := false, part := None)
      ensures uploads == old(uploads) - {id} && disk == old(disk) - {PartPath(id)}
    {
      uploads := uploads - {id};
      disk := disk - {PartPath(id)};
    }

    /** DELETE with a session pointer that may be stale by now. */
    method HandleDelete(sess: UploadSession) returns (r: Response)
      requires Valid() && sess.id in heap && heap[sess.id] == sess && sess.size > 0
      modifies this`uploads, this`disk
      ensures Valid() && forall id :: id != sess.id ==> At(id) == old(At(id))
      ensures CellAt(sess.id) == RunOps(now, old(CellAt(sess.id)), [Delete, Remove])
      ensures [r] == Answers(now, old(CellAt(sess.id)), [Delete, Remove])
      ensures r == Plain(204) && uploads == old(uploads) - {sess.id} && disk == old(disk) - {PartPath(sess.id)}
    {
      assert Settled(now, At(sess.id));
      DeleteAsSteps(now, At(sess.id));
      Discard(sess.id);
      r := Plain(204);
      assert Settled(now, At(sess.id));
    }

    /** GET with a session pointer that may be stale by now. */
    method HandleGet(sess: UploadSession) returns (r: Response)
      requires Valid() && sess.id in heap && heap[sess.id] == sess && sess.size > 0
      ensures Some(r) == DoGet(CellAt(sess.id)).reply
      ensures r == if PartPath(sess.id) in disk then Progress(200, |disk[PartPath(sess.id)]|, None) else Plain(404)
    {
      var path := PartPath(sess.id);
      r := if path in disk then Progress(200, |disk[path]|, None) else Plain(404);
    }

    /** One visit, under the mutex of the session. */
    method VisitSession(id: Id, cutoff: int)
      requires Shape() && id in uploads
      modifies this`uploads, this`disk
      ensures Shape() && forall j :: j != id && j in old(uploads) ==> j in uploads
      ensures forall j :: At(j) == PurgedIf(j == id, cutoff, old(At(j)))
    {
      if uploads[id].updatedAt < cutoff {
        Discard(id);
      }
    }

    /** purgeStaleUploads. */
    method VisitSessions(cutoff: int)
      requires Shape()
      modifies this`uploads, this`disk
      ensures Shape() && forall id :: At(id) == PurgedIf(old(At(id)).listed, cutoff, old(At(id)))
      ensures forall id :: id in uploads <==> id in old(uploads) && old(uploads[id].updatedAt) >= cutoff
      ensures forall p :: p in disk <==> p in old(disk) && !(p.PartPath? && p.id in old(uploads) && p.id !in uploads)
      ensures SameEntries(uploads, old(uploads)) && SameEntries(disk, old(disk))
    {
      RangeSessions(cutoff);
      forall id
        ensures id in uploads <==> id in old(uploads) && old(uploads[id].updatedAt) >= cutoff
        ensures Find(disk, FinalPath(id)) == old(Find(disk, FinalPath(id)))
        ensures Find(disk, PartPath(id)) == if id in old(uploads) && id !in uploads then None else old(Find(disk, PartPath(id)))
      {
        assert At(id) == PurgedIf(old(At(id)).listed, cutoff, old(At(id)));
      }
      SameFiles(old(disk), disk, old(uploads).Keys - uploads.Keys, {});
    }

    /** Its Range loop: every session listed when it starts is visited once. */
    method RangeSessions(cutoff: int)
      requires Shape()
      modifies this`uploads, this`disk
      ensures Shape() && forall id :: At(id) == PurgedIf(old(At(id)).listed, cutoff, old(At(id)))
    {
      NotVisited(cutoff);
      hide PurgedIf;
      var rest := uploads.Keys;
      ghost var all := rest;
      while rest != {}
        invariant Shape() && rest <= all && forall id :: id in rest ==> id in uploads
        invariant forall id :: At(id) == PurgedIf(id in all - rest, cutoff, old(At(id)))
      {
        var id :| id in rest;
        rest := rest - {id};
        VisitSession(id, cutoff);
      }
    }

    /** The part of purgeExpiredFiles that is about the files map. */
    method VisitFiles(cutoff: int)
      requires Shape()
      modifies this`files, this`disk
      ensures Shape() && forall id :: At(id) == ExpiredIf(old(At(id)).file.Some?, cutoff, old(At(id)))
      ensures forall id :: id in files <==> id in old(files) && old(files)[id].createdAt >= cutoff
      ensures forall p :: p in disk <==> p in old(disk) && !(p.FinalPath? && p.id in old(files) && p.id !in files)
      ensures SameEntries(files, old(files)) && SameEntries(disk, old(disk))
    {
      RangeFiles(cutoff);
      forall id
        ensures Find(files, id) ==
                if id in old(files) && old(files)[id].createdAt < cutoff then None else old(Find(files, id))
        ensures Find(disk, PartPath(id)) == old(Find(disk, PartPath(id)))
        ensures Find(disk, FinalPath(id)) == if id in old(files) && id !in files then None else old(Find(disk, FinalPath(id)))
      {
        assert At(id) == ExpiredIf(old(At(id)).file.Some?, cutoff, old(At(id)));
      }
      SameFiles(old(disk), disk, {}, old(files).Keys - files.Keys);
    }

    /** Its Range loop. */
    method RangeFiles(cutoff: int)
      requires Shape()
      modifies this`files, this`disk
      ensures Shape() && forall id :: At(id) == ExpiredIf(old(At(id)).file.Some?, cutoff, old(At(id)))
    {
      var rest := files.Keys;
      ghost var all := rest;
      while rest != {}
        invariant Shape() && rest <= files.Keys && rest <= all
        invariant forall id :: At(id) == ExpiredIf(id in all && id !in rest, cutoff, old(At(id)))
      {
        var id :| id in rest;
        rest := rest - {id};
        VisitFile(id, cutoff);
      }
    }

    /** One entry of the files map. */
    method VisitFile(id: Id, cutoff: int)
      requires Shape() && id in files
      modifies this`files, this`disk
      ensures Shape() && files.Keys >= old(files).Keys - {id}
      ensures At(id) == ExpiredIf(true, cutoff, old(At(id)))
      ensures forall j :: j != id ==> At(j) == old(At(j))
    {
      if files[id].createdAt < cutoff {
        files := files - {id};
        disk := disk - {FinalPath(id)};
      }
    }

    /** purgeExpiredFiles, with purgeStaleUploads at its end; CleanupAsSteps says what Cleaned stands for. */
    method PurgeExpiredFiles(ttl: int)
      requires Valid()
      modifies this`uploads, this`files, this`disk
      ensures Valid()
      ensures forall id :: At(id) == Cleaned(now - ttl, old(At(id)))
      ensures forall id :: id in uploads <==> id in old(uploads) && old(uploads[id].updatedAt) >= now - ttl
      ensures forall id :: id in files <==> id in old(files) && old(files)[id].createdAt >= now - ttl
      ensures forall id :: PartPath(id) in disk <==> PartPath(id) in old(disk) && (id in old(uploads) ==> id in uploads)
      ensures forall id :: FinalPath(id) in disk <==> FinalPath(id) in old(disk) && (id in old(files) ==> id in files)
      ensures SameEntries(uploads, old(uploads)) && SameEntries(files, old(files)) && SameEntries(disk, old(disk))
    {
      var cutoff := now - ttl;
      VisitFiles(cutoff);
      VisitSessions(cutoff);
      assert forall id :: At(id) == Cleaned(cutoff, old(At(id)));
      forall id
        ensures Settled(now, At(id))
      {
        assert old(Settled(now, At(id)));
        CleanupKeepsSettled(now, cutoff, old(At(id)));
      }
    }

    /** Append what arrived; take it back if it is more than the limit. */
    method WriteChunk(sess: UploadSession, data: Bytes, limit: nat, copyOk: bool) returns (failure: Option<Response>)
      requires Shape() && sess.id in heap && heap[sess.id] == sess && PartPath(sess.id) in disk
      modifies this`disk, sess
      ensures Shape() && forall id :: id != sess.id ==> At(id) == old(At(id))
      ensures PartPath(sess.id) in disk
      ensures var e := old(At(sess.id));
              var s := e.session.value;
              At(sess.id) == e.(session := Some(s.(updatedAt := now)),
                                part := Some(if |data| > limit then e.part.value else e.part.value + data))
      ensures disk == if |data| > limit then old(disk) else old(disk)[PartPath(sess.id) := old(disk)[PartPath(sess.id)] + data]
      ensures sess.updatedAt == now
      ensures failure == if |data| > limit then Some(Plain(413)) else if !copyOk then Some(Plain(400)) else None
    {
      var path := PartPath(sess.id);
      var current := |disk[path]|;
      var written := CopyBody(path, data);
      sess.updatedAt := now;
      if written > limit {
        assert disk[path][..current] == old(disk)[path];
        disk := disk[path := disk[path][..current]];
        assert disk == old(disk);
        return Some(Plain(413));
      }
      return if copyOk then None else Some(Plain(400));
    }
  }

  predicate SettledCell(now: int, c: Cell) {
    CellInv(c) && c.updatedAt <= now && (c.file.None? && c.completed.Some? ==> c.final.None?)
  }

  lemma PutKeepsSettled(now: int, e: Entry, offset: Option<int>, body: Bytes, openOk: bool, sent: nat, copyOk: bool,
                        renameOk: bool)
    requires Settled(now, e) && e.session.Some? && e.session.value.size > 0
    requires sent <= |body| && (copyOk ==> sent == |body|)
    ensures e.part.Some? ==> |e.part.value| <= e.session.value.size
    ensures SettledCell(now, ServePut(now, CellIn(e), offset, body, openOk, sent, copyOk, renameOk).cell)
  {
    var c := CellIn(e);
    if c.part.Some? {
      assert ServeChunk(now, c, offset, body, openOk, sent, copyOk).cell.file == c.file;
    }
  }

  lemma NewCellIsSettled(now: int, name: string, mime: string, content: Bytes, renameOk: bool)
    ensures SettledCell(now, NewCell(now, name, mime, content, renameOk))
  {
  }
}

/**
 The upload loop of the Dart client: Room.resumeUpload run against the model of the server, with anything
 the user and the platform can do in between happening at its await points.
 */
module DartUploader {
  import opened Prelude
  import opened UploadModel
  import opened UploadInvariants
  import opened UploadTheorems
  import opened Exchange
  import D = DartJob

  /** The most one PUT of this client carries. */
  const SLICE: nat := 1048576

  /** What may happen while resumeUpload waits. */
  datatype Happening =
    | FilePicked(job: Job)
    | CancelTapped
    | WriteDone
    | ConnectionLost
    | Reconnected
    | RoomDisposed

  datatype Ending =
    | NotStarted
    | Posted(info: FileInfo)
    | Paused           // an exception: offline, an HTTP error, a lost answer; the job stays
    | Superseded       // the generation has moved on
    | Stalled          // the server's offset did not move for the fourth time in a row

  class Job {
    const tag: D.Tag
    const name: string
    const mime: string
    const file: Bytes
    var uploadId: Option<Id>

    constructor (tag: D.Tag, name: string, mime: string, file: Bytes)
      ensures this.tag == tag && this.name == name && this.mime == mime && this.file == file && uploadId == None
    {
      this.tag, this.name, this.mime, this.file, uploadId := tag, name, mime, file, None;
    }
  }

  /** What a happening is to the job: an event of its model, or nothing. */
  function EventOf(h: Happening): seq<D.Event> {
    match h
    case FilePicked(job) => [D.Pick(job.tag)]
    case CancelTapped => [D.Cancel]
    case WriteDone => [D.Durable]
    case RoomDisposed => [D.Dispose]
    case _ => []
  }

  function Events(hs: seq<Happening>): seq<D.Event> {
    if hs == [] then [] else EventOf(hs[0]) + Events(hs[1..])
  }

  /** Nothing that the transfer looks at changes. */
  predicate Undisturbed(hs: seq<Happening>) {
    forall h :: h in hs ==> h.FilePicked? || h.WriteDone?
  }

  /** How many PUTs so much of a file takes; one if there is nothing left but to complete it. */
  function Slices(size: nat): nat {
    if size == 0 then 1 else (size + SLICE - 1) / SLICE
  }

  /** The client knows exactly how far the upload has come, and it can go on. */
  ghost predicate CaughtUp(s: State, session: Session, file: Bytes) {
    Underway(s, session.id, file) && session.offset == Reached(s.cells[session.id]) <= |file|
  }

  lemma SmoothSlice(s0: State, id: Id, offset: nat, file: Bytes, t: Turn)
    requires CaughtUp(s0, Session(id, offset, None), file) && Smooth(t)
    ensures
      var Exchanged(s, x) := PutTurn(s0, Some(id), Some(offset), Chunk(file, offset, SLICE), t);
      && x.Got? && x.response.Progress?
      && (if x.response.file.Some? then Slices(|file| - offset) == 1
          else
            && CaughtUp(s, Session(id, x.response.offset, None), file)
            && 1 + Slices(|file| - x.response.offset) == Slices(|file| - offset))
  {
    SmoothPut(s0, id, file, Some(offset), Chunk(file, offset, SLICE), t);
    var r := PutTurn(s0, Some(id), Some(offset), Chunk(file, offset, SLICE), t);
    if offset + SLICE < |file| {
      assert Slices(|file| - offset) == 1 + Slices(|file| - offset - SLICE);
    }
  }

  lemma FileIsHeld(s: State, session: Session, file: Bytes)
    requires session.file.Some? ==> Sound(s, session, file)
    ensures session.file.Some? ==>
              session.id in s.cells && HoldsFile(s.cells[session.id], file) && session.file.value.size == |file|
  {
  }

  lemma NothingSent(file: Bytes)
    ensures AllSlices(file, [])
  {
  }

  lemma EventsInTurn(log: seq<D.Event>, hs: seq<Happening>)
    ensures log + Events(hs) == if hs == [] then log else log + EventOf(hs[0]) + Events(hs[1..])
  {
  }

  class Room {
    var pendingUpload: Option<Job>
    var uploading: bool
    var transferGeneration: nat
    var connected: bool
    var client: nat                       // which LanClient is in use
    var stored: Option<D.Tag>             // secure storage, and the writes on their way to it
    var writes: seq<Option<D.Tag>>
    ghost var transfer: Option<D.Transfer>
    var picked: set<D.Tag>
    ghost var saved: set<D.Tag>
    ghost var cancelled: set<D.Tag>
    ghost var posts: seq<D.Tag>
    ghost var log: seq<D.Event>

    function PendingTag(): Option<D.Tag>
      reads this
    {
      if pendingUpload.Some? then Some(pendingUpload.value.tag) else None
    }

    ghost function Model(): D.State
      reads this
    {
      D.State(PendingTag(), transferGeneration, transfer, stored, writes, picked, saved, cancelled, posts)
    }

    /** All that has happened to the job so far is a run of its model. */
    ghost predicate Valid()
      reads this
    {
      Model() == D.Exec(D.START, log) && (uploading <==> transfer.Some?)
    }

    constructor ()
      ensures Valid() && log == [] && !uploading && pendingUpload == None
    {
      pendingUpload, uploading, transferGeneration, connected, client := None, false, 0, false, 0;
      stored, writes, picked, saved, cancelled, posts, transfer, log := None, [], {}, {}, {}, [], None, [];
    }

    /** pendingUpload := job; _saveUpload(). */
    method SetPending(job: Option<Job>)
      modifies this`pendingUpload, this`writes
      ensures pendingUpload == job
      ensures writes == old(writes) + [PendingTag()]
    {
      pendingUpload := job;
      writes := writes + [PendingTag()];
    }

    /** pickFile once the picker has answered. */
    method FileIsPicked(job: Job)
      requires Valid()
      modifies this`pendingUpload, this`writes, this`picked, this`log
      ensures Valid() && log == old(log) + [D.Pick(job.tag)]
      ensures if old(pendingUpload).None? && job.tag !in old(picked) then
                pendingUpload == Some(job) && writes == old(writes) + [Some(job.tag)]
              else (pendingUpload == old(pendingUpload) && writes == old(writes))
    {
      D.ExecOne(D.START, log, D.Pick(job.tag));
      if pendingUpload.None? && job.tag !in picked {
        picked := picked + {job.tag};
        SetPending(Some(job));
      }
      log := log + [D.Pick(job.tag)];
    }

    /** cancelUpload up to its first await; what follows only talks to the server and deletes the local file. */
    method CancelUpload()
      requires Valid()
      modifies this`pendingUpload, this`writes, this`cancelled, this`transferGeneration, this`log
      ensures Valid() && log == old(log) + [D.Cancel]
      ensures PendingTag() == None
      ensures if old(pendingUpload).Some? then
                transferGeneration == old(transferGeneration) + 1 && writes == old(writes) + [None]
              else (transferGeneration == old(transferGeneration) && writes == old(writes))
    {
      D.ExecOne(D.START, log, D.Cancel);
      if pendingUpload.Some? {
        cancelled := cancelled + {pendingUpload.value.tag};
        transferGeneration := transferGeneration + 1;
        SetPending(None);
      }
      log := log + [D.Cancel];
    }

    method WriteTakesEffect()
      requires Valid()
      modifies this`stored, this`writes, this`saved, this`log
      ensures Valid() && log == old(log) + [D.Durable]
      ensures if old(writes) != [] then stored == old(writes)[0] && writes == old(writes)[1..]
              else (stored == old(stored) && writes == [])
    {
      D.ExecOne(D.START, log, D.Durable);
      if writes != [] {
        saved := saved + D.Tags(writes[0]);
        stored, writes := writes[0], writes[1..];
      }
      log := log + [D.Durable];
    }

    method Dispose()
      requires Valid()
      modifies this`transferGeneration, this`log
      ensures Valid() && log == old(log) + [D.Dispose]
      ensures transferGeneration == old(transferGeneration) + 1
    {
      D.ExecOne(D.START, log, D.Dispose);
      transferGeneration := transferGeneration + 1;
      log := log + [D.Dispose];
    }

    /** Whatever happens while resumeUpload waits. */
    method Await(hs: seq<Happening>)
      requires Valid()
      modifies this`pendingUpload, this`transferGeneration, this`connected, this`client, this`stored, this`writes,
               this`picked, this`saved, this`cancelled, this`log
      ensures Valid() && log == old(log) + Events(hs)
      ensures Undisturbed(hs) ==>
                transferGeneration == old(transferGeneration) && connected == old(connected) && client == old(client)
    {
      EventsInTurn(log, hs);
      if hs != [] {
        assert Undisturbed(hs) ==> hs[0] in hs && Undisturbed(hs[1..]);
        Happen(hs[0]);
        Await(hs[1..]);
      }
    }

    method Happen(h: Happening)
      requires Valid()
      modifies this`pendingUpload, this`transferGeneration, this`connected, this`client, this`stored, this`writes,
               this`picked, this`saved, this`cancelled, this`log
      ensures Valid() && log == old(log) + EventOf(h)
      ensures h.FilePicked? || h.WriteDone? ==>
                transferGeneration == old(transferGeneration) && connected == old(connected) && client == old(client)
    {
      match h {
        case FilePicked(job) => FileIsPicked(job);
        case CancelTapped => CancelUpload();
        case WriteDone => WriteTakesEffect();
        case ConnectionLost => connected := false;
        case Reconnected => connected, client := true, client + 1;
        case RoomDisposed => Dispose();
      }
    }

    /** The synchronous start of resumeUpload. */
    method Begin() returns (job: Job, generation: nat)
      requires Valid() && !uploading && pendingUpload.Some?
      modifies this`uploading, this`transferGeneration, this`transfer, this`log
      ensures Valid() && uploading && job == old(pendingUpload).value && log == old(log) + [D.Resume]
      ensures transfer == Some(D.Transfer(job.tag, generation, false)) && generation == transferGeneration
      ensures generation == old(transferGeneration) + 1
    {
      D.ExecOne(D.START, log, D.Resume);
      job := pendingUpload.value;
      uploading := true;
      transferGeneration := transferGeneration + 1;
      generation := transferGeneration;
      transfer := Some(D.Transfer(job.tag, generation, false));
      log := log + [D.Resume];
    }

    /** The save between the session and the loop. */
    method SaveJob(generation: nat)
      requires Valid() && transfer.Some? && transfer.value.generation == generation == transferGeneration
      requires !transfer.value.closing
      modifies this`writes, this`log
      ensures Valid() && log == old(log) + [D.Save]
      ensures writes == old(writes) + [PendingTag()]
    {
      D.ExecOne(D.START, log, D.Save);
      writes := writes + [PendingTag()];
      log := log + [D.Save];
    }

    /** Between the last check of the generation and the next await: send the message and drop the job. */
    method HandOff(job: Job, socketOpen: bool) returns (sent: bool)
      requires Valid() && transfer == Some(D.Transfer(job.tag, transferGeneration, false))
      modifies this`pendingUpload, this`writes, this`posts, this`transfer, this`log
      ensures Valid() && log == old(log) + [D.HandOff(socketOpen)] && sent == socketOpen
      ensures posts == old(posts) + if sent then [job.tag] else []
      ensures if sent then pendingUpload.None? && writes == old(writes) + [None]
              else (transfer == old(transfer) && pendingUpload == old(pendingUpload) && writes == old(writes))
      ensures transferGeneration == old(transferGeneration)
    {
      D.ExecOne(D.START, log, D.HandOff(socketOpen));
      log := log + [D.HandOff(socketOpen)];
      if socketOpen {
        posts := posts + [job.tag];
        transfer := Some(transfer.value.(closing := true));
        SetPending(None);
      }
      sent := socketOpen;
    }

    /** What follows the loop, up to the finally block. */
    method Conclude(job: Job, generation: nat, info: Option<FileInfo>, socketOpen: bool, hs: seq<Happening>)
      returns (end: Ending)
      requires Valid() && transfer == Some(D.Transfer(job.tag, generation, false))
      modifies this`pendingUpload, this`transferGeneration, this`connected, this`client, this`stored, this`writes,
               this`picked, this`saved, this`cancelled, this`posts, this`transfer, this`log
      ensures Valid()
      ensures end == Superseded || end == Paused || (info.Some? && end == Posted(info.value))
      ensures posts == old(posts) + if end.Posted? then [job.tag] else []
      ensures end.Paused? ==> transfer == old(transfer) && generation == transferGeneration
      ensures end.Posted? <==> generation == old(transferGeneration) && info.Some? && socketOpen
    {
      if generation != transferGeneration {
        return Superseded;
      }
      if info.None? {
        return Paused;
      }
      var posted := HandOff(job, socketOpen);
      if !posted {
        return Paused;
      }
      Await(hs);
      return Posted(info.value);
    }

    /** The finally block. */
    method End()
      requires Valid()
      modifies this`uploading, this`transfer, this`log
      ensures Valid() && !uploading && log == old(log) + [D.Finish]
    {
      D.ExecOne(D.START, log, D.Finish);
      uploading, transfer := false, None;
      log := log + [D.Finish];
    }

    /** The first part of resumeUpload, with what it comes to on a smooth network. */
    method FetchSmoothly(job: Job, s0: State, get: Turn, create: Turn) returns (state: Option<Session>, s: State)
      requires Inv(s0) && AllFaithful(s0) && OwnRecord(job.uploadId, s0, get, job.file)
      modifies job
      ensures state.Some? ==> Sound(s, state.value, job.file) && job.uploadId == Some(state.value.id)
      ensures
        var id := old(job.uploadId);
        Smooth(get) && id.Some? && Underway(s0, id.value, job.file) ==>
          && Reached(s0.cells[id.value]) <= |job.file|
          && state == Some(Session(id.value, Reached(s0.cells[id.value]), None)) && CaughtUp(s, state.value, job.file)
      ensures
        var id := old(job.uploadId);
        Smooth(get) && Smooth(create) && (id.Some? ==> id.value !in s0.cells) && create.freshId !in s0.cells ==>
          && state.Some? && (state.value.file.None? <==> |job.file| > 0)
          && (state.value.file.None? ==> state.value.offset == 0 && CaughtUp(s, state.value, job.file))
    {
      hide Created, CaughtUp, Inv, AllFaithful, Sound, GetTurn, Smooth;
      ghost var id := job.uploadId;
      state, s := FetchState(job, s0, get, create);
      if Smooth(get) && id.Some? && Underway(s0, id.value, job.file) {
        FindsItsSession(s0, id.value, job, get);
      }
      if Smooth(get) && Smooth(create) && (id.Some? ==> id.value !in s0.cells) && create.freshId !in s0.cells {
        GetsASession(s0, id, job, get, create);
      }
    }

    /** The first part of resumeUpload: pick the session up, or make one if there is none or it is gone. */
    method FetchState(job: Job, s0: State, get: Turn, create: Turn) returns (state: Option<Session>, s: State)
      requires Inv(s0) && AllFaithful(s0) && OwnRecord(job.uploadId, s0, get, job.file)
      modifies job
      ensures state.Some? ==> Sound(s, state.value, job.file) && job.uploadId == Some(state.value.id)
      ensures
        var id := old(job.uploadId);
        var x := if id.Some? then GetTurn(s0, id, get).x else Xhr.Got(Plain(404));
        if x.Got? && x.response.Progress? then
          && state == Some(Session(id.value, x.response.offset, x.response.file)) && job.uploadId == id
          && s == GetTurn(s0, id, get).s
        else if x != Xhr.Got(Plain(404)) then
          state.None? && job.uploadId == id && s == GetTurn(s0, id, get).s
        else
          var t := if id.Some? then GetTurn(s0, id, get).s else s0;
          var (s1, y) := Created(Meanwhile(t, create), create, job.name, job.mime, job.file);
          && s == s1
          && if y.Got? && y.response.Progress? then
               state == Some(Session(create.freshId, y.response.offset, y.response.file)) && job.uploadId == Some(create.freshId)
             else
               state.None? && job.uploadId == id
    {
      s, state := s0, None;
      if job.uploadId.Some? {
        LookUp(s, job.uploadId.value, job.file, get);
        var r := GetTurn(s, job.uploadId, get);
        s := r.s;
        if r.x.Got? && r.x.response.Progress? {
          return Some(Session(job.uploadId.value, r.x.response.offset, r.x.response.file)), s;
        }
        if r.x != Xhr.Got(Plain(404)) {
          return;
        }
      }
      MeanwhileIsSound(s, create);
      CreatedIsSound(Meanwhile(s, create), create, job.name, job.mime, job.file);
      var (s1, x) := Created(Meanwhile(s, create), create, job.name, job.mime, job.file);
      s := s1;
      if x.Got? && x.response.Progress? {
        job.uploadId := Some(create.freshId);
        state := Some(Session(create.freshId, x.response.offset, x.response.file));
      }
    }

    /** On a smooth network a new job gets a session, and so does one whose session is gone. */
    lemma GetsASession(s0: State, id: Option<Id>, job: Job, get: Turn, create: Turn)
      requires Inv(s0) && AllFaithful(s0) && Smooth(get) && Smooth(create)
      requires id.Some? ==> id.value !in s0.cells
      requires create.freshId !in s0.cells
      ensures id.Some? ==> GetTurn(s0, id, get).x == Xhr.Got(Plain(404))
      ensures
        var t := if id.Some? then GetTurn(s0, id, get).s else s0;
        var (s, y) := Created(Meanwhile(t, create), create, job.name, job.mime, job.file);
        && y.Got? && y.response.Progress? && (y.response.file.None? <==> |job.file| > 0)
        && (y.response.file.None? ==>
              y.response.offset == 0 && CaughtUp(s, Session(create.freshId, 0, None), job.file))
    {
      var t := if id.Some? then GetTurn(s0, id, get).s else s0;
      if id.Some? {
        OnlyTimePasses(s0, get.before);
        MeanwhileIsSound(s0, get);
      }
      SmoothCreate(t, create, job.name, job.mime, job.file);
    }

    /** On a smooth network a session that can go on is found as it is. */
    lemma FindsItsSession(s0: State, id: Id, job: Job, get: Turn)
      requires Underway(s0, id, job.file) && Smooth(get)
      ensures
        var r, p := GetTurn(s0, Some(id), get), Reached(s0.cells[id]);
        r.x == Xhr.Got(Progress(200, p, None)) && CaughtUp(r.s, Session(id, p, None), job.file)
    {
      OnlyTimePasses(s0, get.before);
      MeanwhileKeepsReady(s0, get, id, job.file);
      ReadyCell(s0, id, job.file);
    }

    /** Nothing keeps the loop from going on to the end. */
    ghost predicate Unhindered(start: Session, s0: State, file: Bytes, generation: nat, activeClient: nat, net: nat -> Turn,
                               happens: nat -> seq<Happening>, first: nat)
      reads this
    {
      && (start.file.None? ==> CaughtUp(s0, start, file))
      && generation == transferGeneration && connected && activeClient == client
      && forall j: nat :: first <= j ==> Smooth(net(j)) && Undisturbed(happens(j))
    }

    /** The loop of resumeUpload; `first` exchanges have gone before. */
    method SendFile(job: Job, start: Session, s0: State, generation: nat, activeClient: nat, net: nat -> Turn,
                    happens: nat -> seq<Happening>, first: nat)
      returns (info: Option<FileInfo>, stalled: bool, s: State, ghost sent: seq<(nat, Bytes)>)
      requires Valid() && Sound(s0, start, job.file)
      modifies this`pendingUpload, this`transferGeneration, this`connected, this`client, this`stored, this`writes,
               this`picked, this`saved, this`cancelled, this`log
      ensures Valid() && !stalled && AllSlices(job.file, sent)
      ensures info.Some? ==> Sound(s, start.(file := info), job.file)
      ensures old(Unhindered(start, s0, job.file, generation, activeClient, net, happens, first)) ==>
                && info.Some? && generation == transferGeneration
                && |sent| == if start.file.Some? then 0 else Slices(|job.file| - start.offset)
    {
      hide PutTurn, Underway, Slices, Ready, HoldsFile, Smooth, Reached;
      ghost var smooth := Unhindered(start, s0, job.file, generation, activeClient, net, happens, first);
      var id, offset, k, conflicts := start.id, start.offset, first, 0;
      info, s, sent, stalled := start.file, s0, [], false;
      while info.None?
        invariant Valid() && AllSlices(job.file, sent)
        invariant Sound(s, Session(id, offset, info), job.file)
        invariant conflicts == 0 && !stalled && first <= k
        invariant smooth ==> generation == transferGeneration && connected && activeClient == client
        invariant smooth && info.None? ==>
                    && CaughtUp(s, Session(id, offset, None), job.file)
                    && |sent| + Slices(|job.file| - offset) == Slices(|job.file| - start.offset)
        invariant smooth && info.Some? ==> |sent| == if start.file.Some? then 0 else Slices(|job.file| - start.offset)
        decreases info.None?, |job.file| - offset
      {
        ReadyCell(s, id, job.file);
        if generation != transferGeneration || !connected || activeClient != client {
          return None, false, s, sent;
        }
        OneMoreSlice(job.file, sent, offset, SLICE);
        sent := sent + [(offset, Chunk(job.file, offset, SLICE))];
        if smooth {
          SmoothSlice(s, id, offset, job.file, net(k));
        }
        var x;
        s, x := PutChunk(s, id, job.file, offset, SLICE, net(k));
        Await(happens(k));
        k := k + 1;
        if !x.Got? || !x.response.Progress? {
          return None, false, s, sent;
        }
        var next := x.response.offset;
        info := x.response.file;
        if next == offset && info.None? {
          conflicts := conflicts + 1;
          if conflicts > 3 {
            return None, true, s, sent;
          }
        } else {
          conflicts := 0;
        }
        offset := next;
      }
    }

    /** The second part: save the job, send the file and hand the message off. */
    method Proceed(job: Job, generation: nat, activeClient: nat, start: Session, s0: State, net: nat -> Turn,
                   happens: nat -> seq<Happening>, socketOpen: bool, afterwards: seq<Happening>)
      returns (end: Ending, s: State, ghost sent: seq<(nat, Bytes)>)
      requires Valid() && Sound(s0, start, job.file)
      requires transfer == Some(D.Transfer(job.tag, generation, false)) && generation == transferGeneration
      modifies this`pendingUpload, this`transferGeneration, this`connected, this`client, this`stored, this`writes,
               this`picked, this`saved, this`cancelled, this`posts, this`transfer, this`log
      ensures Valid() && AllSlices(job.file, sent) && !end.Stalled? && !end.NotStarted?
      ensures posts == old(posts) + if end.Posted? then [job.tag] else []
      ensures end.Paused? ==> transfer == old(transfer) && generation == transferGeneration
      ensures end.Posted? ==>
                start.id in s.cells && HoldsFile(s.cells[start.id], job.file) && end.info.size == |job.file|
      ensures old(Unhindered(start, s0, job.file, generation, activeClient, net, happens, 1)) && socketOpen ==>
                end.Posted? && |sent| == if start.file.Some? then 0 else Slices(|job.file| - start.offset)
    {
      hide CaughtUp, Slices, Smooth, Undisturbed, HoldsFile, AllSlices, Valid, Sound;
      SaveJob(generation);
      Await(happens(1));
      var info, stalled;
      info, stalled, s, sent := SendFile(job, start, s0, generation, activeClient, net, happens, 2);
      FileIsHeld(s, start.(file := info), job.file);
      end := Conclude(job, generation, info, socketOpen, afterwards);
    }

    /** The try block of resumeUpload. */
    method Transfer(job: Job, generation: nat, s0: State, net: nat -> Turn, happens: nat -> seq<Happening>,
                    socketOpen: bool, afterwards: seq<Happening>)
      returns (end: Ending, s: State, ghost sent: seq<(nat, Bytes)>)
      requires Valid() && Inv(s0) && AllFaithful(s0) && OwnRecord(job.uploadId, s0, net(0), job.file)
      requires uploading && connected && transfer == Some(D.Transfer(job.tag, generation, false))
      requires generation == transferGeneration
      modifies this, job
      ensures Valid() && uploading && AllSlices(job.file, sent) && !end.Stalled? && !end.NotStarted?
      ensures posts == old(posts) + if end.Posted? then [job.tag] else []
      ensures end.Paused? ==> transfer == old(transfer) && generation == transferGeneration
      ensures end.Posted? ==>
                && job.uploadId.Some? && job.uploadId.value in s.cells
                && HoldsFile(s.cells[job.uploadId.value], job.file) && end.info.size == |job.file|
      ensures socketOpen && (forall j: nat :: Smooth(net(j)) && Undisturbed(happens(j))) ==>
                var id, size := old(job.uploadId), |job.file|;
                && ((id.Some? ==> id.value !in s0.cells) && net(1).freshId !in s0.cells ==>
                      end.Posted? && |sent| == if size == 0 then 0 else Slices(size))
                && (id.Some? && Underway(s0, id.value, job.file) ==>
                      end.Posted? && job.uploadId == id && Reached(s0.cells[id.value]) <= size
                      && |sent| == Slices(size - Reached(s0.cells[id.value])))
    {
      hide CaughtUp, Slices, OwnRecord, Smooth, Undisturbed, HoldsFile, Ready, Inv, AllFaithful, AllSlices, Valid, Sound;
      sent := [];
      NothingSent(job.file);
      var activeClient := client;
      var state;
      state, s := FetchSmoothly(job, s0, net(0), net(1));
      Await(happens(0));
      if generation != transferGeneration {
        return Superseded, s, sent;
      }
      if state.None? {
        return Paused, s, sent;
      }
      end, s, sent := Proceed(job, generation, activeClient, state.value, s, net, happens, socketOpen, afterwards);
    }

    /**
     resumeUpload.  `net` is what happens to the exchanges with the server, `happens` what happens in the room at
     the await points up to the hand-off, and `afterwards` at those that follow it.  It ends, never because the
     server seems stalled; what it does to the job is a run of the job's model; and it posts a message only for a
     file that the server holds completely.
     */
    method ResumeUpload(s0: State, net: nat -> Turn, happens: nat -> seq<Happening>, socketOpen: bool,
                        afterwards: seq<Happening>)
      returns (end: Ending, s: State, ghost sent: seq<(nat, Bytes)>)
      requires Valid() && Inv(s0) && AllFaithful(s0)
      requires pendingUpload.Some? ==> OwnRecord(pendingUpload.value.uploadId, s0, net(0), pendingUpload.value.file)
      modifies this, if pendingUpload.Some? then {pendingUpload.value} else {}
      ensures Valid() && (end.NotStarted? || !uploading)
      ensures !end.Stalled?
      ensures end.Paused? ==> PendingTag() == old(PendingTag())
      ensures !end.Posted? ==> posts == old(posts)
      ensures end.Posted? ==>
                && old(pendingUpload).Some?
                && var job := old(pendingUpload).value;
                   && posts == old(posts) + [job.tag]
                   && job.uploadId.Some? && job.uploadId.value in s.cells
                   && HoldsFile(s.cells[job.uploadId.value], job.file) && end.info.size == |job.file|
      ensures old(pendingUpload).Some? ==> AllSlices(old(pendingUpload).value.file, sent)
      ensures
        && !old(uploading) && old(connected) && old(pendingUpload).Some? && socketOpen
        && (forall j: nat :: Smooth(net(j)) && Undisturbed(happens(j))) ==>
          var job, id := old(pendingUpload).value, old(pendingUpload.value.uploadId);
          && ((id.Some? ==> id.value !in s0.cells) && net(1).freshId !in s0.cells ==>
                end.Posted? && |sent| == if |job.file| == 0 then 0 else Slices(|job.file|))
          && (id.Some? && Underway(s0, id.value, job.file) ==>
                end.Posted? && job.uploadId == id && Reached(s0.cells[id.value]) <= |job.file|
                && |sent| == Slices(|job.file| - Reached(s0.cells[id.value])))
    {
      s, sent := s0, [];
      if uploading || !connected || pendingUpload.None? {
        return NotStarted, s, sent;
      }
      var job, generation := Begin();
      end, s, sent := Transfer(job, generation, s0, net, happens, socketOpen, afterwards);
      CurrentJob();
      End();
    }

    /** As long as the generation has not moved on, the job of the transfer is the pending one. */
    lemma CurrentJob()
      requires Valid()
      ensures transfer.Some? && !transfer.value.closing && transfer.value.generation == transferGeneration ==>
                PendingTag() == Some(transfer.value.tag)
    {
      D.ExecKeepsInv(D.START, log);
    }
  }
}

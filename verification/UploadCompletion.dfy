/** Which requests are told about a finished file. */
module UploadCompletion {
  import opened Prelude
  import opened UploadModel
  import opened UploadInvariants
  import opened UploadTheorems

  /** In this run the session leaves the uploads map at step d and the file is registered at step r; it does not expire. */
  ghost predicate Completes(start: int, es: seq<Event>, id: Id, d: nat, r: nat) {
    && d < r < |es|
    && id in At(start, es, d).cells && At(start, es, d).cells[id].lock.Renamed? && es[d] == On(id, FinishDelist)
    && id in At(start, es, r).cells && At(start, es, r).cells[id].lock.Delisted? && es[r] == On(id, FinishRegister)
    && forall k :: r < k < |es| ==> !ExpiresFile(es[k], id)
  }

  predicate IsGetOrPut(e: Event, id: Id) {
    e.On? && e.id == id && (e.op.Get? || e.op.PutLock?)
  }

  /** The answer to a GET or PUT that looks the id up before step k and, if it finds the session, has the mutex at m. */
  function Answered(start: int, es: seq<Event>, id: Id, k: nat, m: nat): Option<Response>
    requires k <= |es| && id in At(start, es, k).cells
    requires At(start, es, k).cells[id].listed ==> m < |es|
  {
    if At(start, es, k).cells[id].listed then Reply(At(start, es, m), es[m])
    else Reply(At(start, es, k), On(id, Lookup(false)))
  }

  lemma {:induction false} UnlistedStays(s: State, es: seq<Event>, id: Id)
    requires Inv(s) && id in s.cells && !s.cells[id].listed
    ensures id in Exec(s, es).cells && !Exec(s, es).cells[id].listed
    decreases |es|
  {
    if es != [] {
      NextKeepsInv(s, es[0]);
      NextCell(s, es[0], id);
      if es[0].On? && es[0].id == id {
        UnlistedStep(s.now, s.cells[id], es[0].op);
      }
      UnlistedStays(Next(s, es[0]), es[1..], id);
    }
  }

  lemma UnlistedStep(now: int, c: Cell, op: Op)
    requires !c.listed
    ensures !Do(now, c, op).cell.listed
  {
  }

  lemma {:induction false} DelistedOrClosed(s: State, es: seq<Event>, id: Id)
    requires Inv(s) && id in s.cells && (s.cells[id].lock.Delisted? || Closed(s.cells[id]))
    ensures id in Exec(s, es).cells && (Exec(s, es).cells[id].lock.Delisted? || Closed(Exec(s, es).cells[id]))
    decreases |es|
  {
    if es != [] {
      NextKeepsInv(s, es[0]);
      NextCell(s, es[0], id);
      if es[0].On? && es[0].id == id {
        DelistedStep(s.now, s.cells[id], es[0].op);
      }
      DelistedOrClosed(Next(s, es[0]), es[1..], id);
    }
  }

  lemma DelistedStep(now: int, c: Cell, op: Op)
    requires CellInv(c) && (c.lock.Delisted? || Closed(c))
    ensures Do(now, c, op).cell.lock.Delisted? || Closed(Do(now, c, op).cell)
  {
  }

  /** Up to the removal of the session every lookup finds it. */
  lemma ListedBefore(start: int, es: seq<Event>, id: Id, d: nat, k: nat)
    requires k <= d < |es| && id in At(start, es, k).cells
    requires id in At(start, es, d).cells && At(start, es, d).cells[id].lock.Renamed?
    ensures At(start, es, k).cells[id].listed
  {
    AtInv(start, es, k);
    AtInv(start, es, d);
    AtLater(start, es, k, d);
    assert CellInv(At(start, es, d).cells[id]);
    if !At(start, es, k).cells[id].listed {
      UnlistedStays(At(start, es, k), es[k..d], id);
    }
  }

  /** From its removal to the registration the upload is in neither map, and its mutex is held. */
  lemma InNeitherMap(start: int, es: seq<Event>, id: Id, d: nat, r: nat, k: nat)
    requires Completes(start, es, id, d, r) && d < k <= r
    ensures id in At(start, es, k).cells && At(start, es, k).cells[id].lock.Delisted?
    ensures !At(start, es, k).cells[id].listed && At(start, es, k).cells[id].file.None?
  {
    AtInv(start, es, d);
    AtNext(start, es, d);
    AtInv(start, es, d + 1);
    AtLater(start, es, d + 1, k);
    DelistedOrClosed(At(start, es, d + 1), es[d + 1..k], id);
    AtInv(start, es, k);
    AtLater(start, es, k, r);
    var s := At(start, es, k);
    if !s.cells[id].lock.Delisted? {
      StaleRequestsAreInert(s, es[k..r], id);
    }
    assert CellInv(s.cells[id]);
  }

  /** From the registration on the file is known. */
  lemma Registered(start: int, es: seq<Event>, id: Id, d: nat, r: nat)
    requires Completes(start, es, id, d, r)
    ensures Inv(At(start, es, r + 1)) && id in At(start, es, r + 1).cells && At(start, es, r + 1).cells[id].file.Some?
  {
    AtNext(start, es, r);
    AtInv(start, es, r + 1);
  }

  lemma NoExpiry(start: int, es: seq<Event>, id: Id, d: nat, r: nat, k: nat)
    requires Completes(start, es, id, d, r) && r < k <= |es|
    ensures forall e :: e in es[r + 1..k] ==> !ExpiresFile(e, id)
  {
    forall e | e in es[r + 1..k]
      ensures !ExpiresFile(e, id)
    {
      var j :| r < j < k && es[j] == e;
    }
  }

  /**
   Over the whole run of an upload that completes: a GET or PUT that found the session and has its mutex after the
   session has left the uploads map, or that found no session, is told about the file if and only if it looked the id
   up after the registration; it is told 404 if and only if it looked the id up before.
   */
  lemma WhoGetsTheFile(start: int, es: seq<Event>, id: Id, d: nat, r: nat, k: nat, m: nat)
    requires Completes(start, es, id, d, r) && k <= |es| && id in At(start, es, k).cells
    requires At(start, es, k).cells[id].listed ==> k <= m < |es| && d < m && IsGetOrPut(es[m], id)
    requires Answered(start, es, id, k, m).Some?
    ensures id in At(start, es, r + 1).cells && At(start, es, r + 1).cells[id].file.Some?
    ensures
      var a, c := Answered(start, es, id, k, m), At(start, es, r + 1).cells[id];
      && (a == Some(Progress(200, c.size, Some(Info(c.file.value)))) <==> r < k)
      && (a == Some(Plain(404)) <==> k <= r)
  {
    Registered(start, es, id, d, r);
    var s := At(start, es, r + 1);
    if r < k {
      NoExpiry(start, es, id, d, r, k);
      AtLater(start, es, r + 1, k);
      CompletionIsIdempotent(s, es[r + 1..k], id);
      assert CellInv(s.cells[id]);
      UnlistedStays(s, es[r + 1..k], id);
    } else if d < k {
      InNeitherMap(start, es, id, d, r, k);
    } else {
      ListedBefore(start, es, id, d, k);
      if m <= r {
        InNeitherMap(start, es, id, d, r, m);
      } else {
        NoExpiry(start, es, id, d, r, m);
        AtLater(start, es, r + 1, m);
        StaleSessionsMissTheFile(s, es[r + 1..m], id, es[m]);
      }
    }
  }

  // ---- it happens -------------------------------------------------------------------------------------------

  const FIRST: Id := "0"

  /** The upload of one byte, up to the rename and the removal of the session. */
  function OneByte(): seq<Event> {
    [Create(FIRST, "a", "b", [0], true)] +
    OnAll(FIRST, [PutLock(Some(0), [0], true), PutData(1), PutEnd(true)]) +
    OnAll(FIRST, [FinishRename(true), FinishDelist])
  }

  lemma OneByteRuns(now: int)
    ensures
      var s := Exec(Empty(now), OneByte());
      && FIRST in s.cells && s.now == now
      && var c := s.cells[FIRST];
         c.lock.Delisted? && !c.listed && c.part.None? && c.file.None? && c.final == Some([0]) && c.published && c.size == 1
  {
    var c := NewCell(now, "a", "b", [0], true);
    var s := Empty(now).(cells := map[FIRST := c]);
    var create := Create(FIRST, "a", "b", [0], true);
    assert Exec(Empty(now), [create]) == Exec(Next(Empty(now), create), []) == s;
    var chunk, finish := [PutLock(Some(0), [0], true), PutData(1), PutEnd(true)], [FinishRename(true), FinishDelist];
    ExecConcat(Empty(now), [create], OnAll(FIRST, chunk));
    ExecConcat(Empty(now), [create] + OnAll(FIRST, chunk), OnAll(FIRST, finish));
    OneByteChunk(now, c);
    RunOpsIsExec(s, FIRST, chunk);
    var t := Exec(s, OnAll(FIRST, chunk));
    assert t.cells[FIRST] == c.(part := Some([0]), lock := Finishing);
    RunOpsIsExec(t, FIRST, finish);
    Finishes(now, t.cells[FIRST]);
  }

  lemma OneByteChunk(now: int, c: Cell)
    requires c.part == Some([]) && c.size == 1 && c.published && c.lock.Free? && c.updatedAt == now
    requires CellInv(c)
    ensures RunOps(now, c, [PutLock(Some(0), [0], true), PutData(1), PutEnd(true)]) ==
            c.(part := Some([0]), lock := Finishing)
  {
    var body: Bytes := [0];
    assert ChunkOps(c, Some(0), body, true, 1, true) == [PutLock(Some(0), [0], true), PutData(1), PutEnd(true)];
    ChunkAsSteps(now, c, Some(0), body, true, 1, true);
    assert [] + body[..1] == body;
  }

  lemma Finishes(now: int, c: Cell)
    requires c.lock.Finishing?
    ensures RunOps(now, c, [FinishRename(true), FinishDelist]) ==
            c.(part := None, final := c.part, listed := false, lock := Delisted)
  {
    var ops := [FinishRename(true), FinishDelist];
    assert ops[1..] == [FinishDelist] && ops[1..][1..] == [];
    var c1 := Do(now, c, FinishRename(true)).cell;
    assert RunOps(now, c1, ops[1..]) == Do(now, c1, FinishDelist).cell;
  }

  /** A lookup in between finds neither the session nor the file, although all bytes are there. */
  lemma LookupInTheWindow(now: int)
    ensures
      var s := Exec(Empty(now), OneByte());
      && Reply(s, On(FIRST, Lookup(false))) == Some(Plain(404))
      && FIRST in s.cells && s.cells[FIRST].final == Some([0])
      && FIRST in Next(s, On(FIRST, FinishRegister)).cells && Next(s, On(FIRST, FinishRegister)).cells[FIRST].file.Some?
  {
    OneByteRuns(now);
  }

  /** A GET that looked the id up before the upload was complete gets the mutex afterwards and is told 404. */
  lemma LateGetMissesTheFile(now: int)
    ensures
      var before := [Create(FIRST, "a", "b", [0], true)];
      var s := Exec(Empty(now), OneByte() + [On(FIRST, FinishRegister)]);
      && before <= OneByte() && Reply(Exec(Empty(now), before), On(FIRST, Lookup(false))) == None
      && FIRST in s.cells && s.cells[FIRST].file.Some? && s.cells[FIRST].final == Some([0])
      && Reply(s, On(FIRST, Get)) == Some(Plain(404))
  {
    OneByteRuns(now);
    ExecSnoc(Empty(now), OneByte(), On(FIRST, FinishRegister));
    var create := Create(FIRST, "a", "b", [0], true);
    assert Exec(Empty(now), [create]) == Exec(Next(Empty(now), create), []);
  }
}

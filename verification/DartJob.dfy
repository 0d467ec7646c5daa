/**
 The upload job of the Dart client between memory, secure storage and the chat, at the granularity of its
 await points: what runs between two awaits is one event, and any event may come next.

 Writes to secure storage are asynchronous and take effect in the order in which they were issued.  A crash
 loses the memory and the writes that have not taken effect; the next start loads what is stored.
 */
module DartJob {
  import opened Prelude

  /** A picked file; picking the same file again makes another job. */
  type Tag = nat

  /** The one resumeUpload under way.  After the hand-off it only closes and deletes its file. */
  datatype Transfer = Transfer(tag: Tag, generation: nat, closing: bool)

  datatype State = State(
    pending: Option<Tag>,           // pendingUpload
    generation: nat,                // _transferGeneration
    transfer: Option<Transfer>,     // Some while `uploading`
    stored: Option<Tag>,            // what secure storage holds
    writes: seq<Option<Tag>>,       // writes issued and not yet in effect, oldest first
    picked: set<Tag>,               // history: every job there has been
    saved: set<Tag>,                // history: every job that has been in storage
    cancelled: set<Tag>,            // history
    posts: seq<Tag>)                // history: file messages handed to an open socket

  datatype Event =
    | Pick(tag: Tag)                // pickFile, once the picker has answered
    | Resume                        // resumeUpload up to its first await
    | Save                          // resumeUpload has a session and saves the job
    | HandOff(open: bool)           // resumeUpload has the complete file; send works if the socket is open
    | Finish                        // resumeUpload ends, for whatever reason
    | Cancel                        // cancelUpload up to its first await
    | Dispose
    | Durable                       // the oldest write takes effect
    | Crash                         // the process dies and is started again

  const START := State(None, 0, None, None, [], {}, {}, {}, [])

  /** pendingUpload := job; _saveUpload(). */
  function SetPending(s: State, job: Option<Tag>): State {
    s.(pending := job, writes := s.writes + [job])
  }

  /** The transfer under way has not been overtaken by a cancel. */
  predicate Current(s: State) {
    s.transfer.Some? && !s.transfer.value.closing && s.transfer.value.generation == s.generation
  }

  function Next(s: State, e: Event): State {
    match e
    case Pick(tag) =>
      if s.pending.Some? || tag in s.picked then s else SetPending(s.(picked := s.picked + {tag}), Some(tag))
    case Resume =>
      if s.transfer.Some? || s.pending.None? then s
      else s.(generation := s.generation + 1, transfer := Some(Transfer(s.pending.value, s.generation + 1, false)))
    case Save => if Current(s) then SetPending(s, s.pending) else s
    case HandOff(open) =>
      if !Current(s) || !open then s
      else
        var t := s.transfer.value;
        SetPending(s.(posts := s.posts + [t.tag], transfer := Some(t.(closing := true))), None)
    case Finish => s.(transfer := None)
    case Cancel =>
      if s.pending.None? then s
      else SetPending(s.(generation := s.generation + 1, cancelled := s.cancelled + {s.pending.value}), None)
    case Dispose => s.(generation := s.generation + 1)
    case Durable =>
      if s.writes == [] then s
      else s.(stored := s.writes[0], writes := s.writes[1..], saved := s.saved + Tags(s.writes[0]))
    case Crash => s.(pending := s.stored, generation := 0, transfer := None, writes := [])
  }

  function Tags(job: Option<Tag>): set<Tag> {
    if job.Some? then {job.value} else {}
  }

  function Exec(s: State, es: seq<Event>): State
    decreases |es|
  {
    if es == [] then s else Exec(Next(s, es[0]), es[1..])
  }

  lemma {:induction false} ExecConcat(s: State, a: seq<Event>, b: seq<Event>)
    ensures Exec(s, a + b) == Exec(Exec(s, a), b)
    decreases |a|
  {
    if a == [] {
      assert a + b == b;
    } else {
      assert (a + b)[0] == a[0] && (a + b)[1..] == a[1..] + b;
      ExecConcat(Next(s, a[0]), a[1..], b);
    }
  }

  lemma ExecOne(s: State, es: seq<Event>, e: Event)
    ensures Exec(s, es + [e]) == Next(Exec(s, es), e)
  {
    ExecConcat(s, es, [e]);
    assert Exec(Exec(s, es), [e]) == Exec(Next(Exec(s, es), e), []);
  }

  /** What storage holds, then what it will hold after each write under way. */
  function Storage(s: State): seq<Option<Tag>> {
    [s.stored] + s.writes
  }

  /** The job was posted or cancelled. */
  predicate Settled(s: State, tag: Tag) {
    tag in s.posts || tag in s.cancelled
  }

  ghost predicate Inv(s: State) {
    var q := Storage(s);
    && q[|q| - 1] == s.pending
    && (forall i :: 0 <= i < |q| && q[i].Some? ==> q[i].value in s.picked)
    && (forall i, j :: 0 <= i < j < |q| && q[i].Some? && q[i] != q[j] ==> Settled(s, q[i].value))
    && (forall tag :: tag in s.saved && !Settled(s, tag) ==> s.stored == Some(tag))
    && (Current(s) ==> s.pending == Some(s.transfer.value.tag))
    && (s.transfer.Some? ==> s.transfer.value.generation <= s.generation)
  }

  lemma QueueGrows(s: State, s1: State, job: Option<Tag>)
    requires Inv(s) && s1.stored == s.stored && s1.writes == s.writes + [job]
    ensures Storage(s1) == Storage(s) + [job]
  {
  }

  lemma SetPendingKeepsInv(s: State, s0: State, job: Option<Tag>)
    requires Inv(s)
    requires s0.stored == s.stored && s0.writes == s.writes && s0.saved == s.saved
    requires s.picked <= s0.picked && s.cancelled <= s0.cancelled && s.posts <= s0.posts
    requires job.Some? ==> job.value in s0.picked
    requires s.pending.Some? && s.pending != job ==> Settled(s0, s.pending.value)
    requires Current(s0) ==> job == Some(s0.transfer.value.tag)
    requires s0.transfer.Some? ==> s0.transfer.value.generation <= s0.generation
    ensures Inv(SetPending(s0, job))
  {
    var s1 := SetPending(s0, job);
    QueueGrows(s, s1, job);
    var q, r := Storage(s), Storage(s1);
    forall i, j | 0 <= i < j < |r| && r[i].Some? && r[i] != r[j]
      ensures Settled(s1, r[i].value)
    {
      if j == |q| && i < |q| - 1 && q[i] != s.pending {
        assert q[i] != q[|q| - 1];
      }
    }
  }

  lemma DurableKeepsInv(s: State)
    requires Inv(s) && s.writes != []
    ensures Inv(Next(s, Durable))
  {
    var s1 := Next(s, Durable);
    var q, r := Storage(s), Storage(s1);
    assert q[0] == s.stored && q[1] == s1.stored;
    assert r == q[1..];
    forall i, j | 0 <= i < j < |r| && r[i].Some? && r[i] != r[j]
      ensures Settled(s1, r[i].value)
    {
      assert r[i] == q[i + 1] && r[j] == q[j + 1];
    }
    forall tag | tag in s1.saved && !Settled(s1, tag)
      ensures s1.stored == Some(tag)
    {
      if tag in s.saved {
        assert q[0] == Some(tag);
        assert q[0] != q[1] ==> Settled(s, tag);
      }
    }
  }

  lemma NextKeepsInv(s: State, e: Event)
    requires Inv(s)
    ensures Inv(Next(s, e))
  {
    match e
    case Pick(tag) =>
      if s.pending.None? && tag !in s.picked {
        SetPendingKeepsInv(s, s.(picked := s.picked + {tag}), Some(tag));
      }
    case Save =>
      if Current(s) {
        assert Storage(s)[|Storage(s)| - 1] == s.pending;
        SetPendingKeepsInv(s, s, s.pending);
      }
    case HandOff(open) =>
      if Current(s) && open {
        var t := s.transfer.value;
        SetPendingKeepsInv(s, s.(posts := s.posts + [t.tag], transfer := Some(t.(closing := true))), None);
      }
    case Cancel =>
      if s.pending.Some? {
        assert Storage(s)[|Storage(s)| - 1] == s.pending;
        var s0 := s.(generation := s.generation + 1, cancelled := s.cancelled + {s.pending.value});
        SetPendingKeepsInv(s, s0, None);
      }
    case Durable =>
      if s.writes != [] {
        DurableKeepsInv(s);
      }
    case Crash =>
      assert Storage(Next(s, e)) == [s.stored];
      assert Storage(s)[0] == s.stored;
    case Resume | Finish | Dispose =>
      assert Storage(Next(s, e)) == Storage(s);
  }

  lemma {:induction false} ExecKeepsInv(s: State, es: seq<Event>)
    requires Inv(s)
    ensures Inv(Exec(s, es))
    decreases |es|
  {
    if es != [] {
      NextKeepsInv(s, es[0]);
      ExecKeepsInv(Next(s, es[0]), es[1..]);
    }
  }
}

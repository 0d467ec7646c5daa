/** What becomes of the upload jobs of the Dart client, over every run. */
module DartTheorems {
  import opened Prelude
  import opened DartJob

  /**
   A job that has once been saved survives every interleaving and every crash, in memory and in storage,
   until its file message has been handed to an open socket or the user has cancelled it.
   */
  lemma SavedJobsSurvive(es: seq<Event>, tag: Tag)
    requires var s := Exec(START, es); tag in s.saved && !Settled(s, tag)
    ensures var s := Exec(START, es); s.stored == Some(tag) && s.pending == Some(tag)
  {
    ExecKeepsInv(START, es);
    var q := Storage(Exec(START, es));
    assert q[0] == Some(tag);
    assert q[|q| - 1] == Exec(START, es).pending;
  }

  lemma {:induction false} WritesTakeEffect(s: State, n: nat)
    requires n <= |s.writes|
    ensures Storage(Exec(s, seq(n, _ => Durable))) == Storage(s)[n..]
    ensures Exec(s, seq(n, _ => Durable)).pending == s.pending
    decreases n
  {
    var es := seq(n, _ => Durable);
    if n > 0 {
      WritesTakeEffect(Next(s, Durable), n - 1);
      assert es[0] == Durable && es[1..] == seq(n - 1, _ => Durable);
      assert Storage(Next(s, Durable)) == Storage(s)[1..];
      assert Storage(s)[1..][n - 1..] == Storage(s)[n..];
    }
  }

  /** Once the writes under way have taken effect, a crash loses nothing: the next start finds the job of before. */
  lemma StoredJobsOutliveCrashes(es: seq<Event>)
    ensures
      var s := Exec(START, es);
      var t := Exec(s, seq(|s.writes|, _ => Durable));
      t.stored == s.pending && Next(t, Crash).pending == s.pending
  {
    ExecKeepsInv(START, es);
    var s := Exec(START, es);
    WritesTakeEffect(s, |s.writes|);
    var t := Exec(s, seq(|s.writes|, _ => Durable));
    assert Storage(s)[|s.writes|..] == [s.pending];
    assert Storage(t)[0] == t.stored;
  }

  /** Memory lets go of a job only when it is posted or cancelled, or when the process dies before it is saved. */
  lemma DroppedOnlyWhenSettled(es: seq<Event>, e: Event, tag: Tag)
    requires Exec(START, es).pending == Some(tag) && Next(Exec(START, es), e).pending != Some(tag)
    ensures Settled(Next(Exec(START, es), e), tag) || (e.Crash? && tag !in Exec(START, es).saved)
  {
    ExecKeepsInv(START, es);
    var s := Exec(START, es);
    if e.HandOff? {
      assert s.transfer.value.tag in Next(s, e).posts;
    }
  }

  /** Every hand-off posts the job in memory and no other. */
  lemma PostsThePendingJob(es: seq<Event>, e: Event)
    requires Next(Exec(START, es), e).posts != Exec(START, es).posts
    ensures var s := Exec(START, es);
            e.HandOff? && s.pending.Some? && Next(s, e).posts == s.posts + [s.pending.value]
  {
    ExecKeepsInv(START, es);
  }

  lemma NotPostedNow(s: State, e: Event, tag: Tag)
    requires Inv(s) && tag in s.picked && s.pending != Some(tag) && !e.Crash?
    ensures
      var t := Next(s, e);
      tag in t.picked && t.pending != Some(tag) && multiset(t.posts)[tag] == multiset(s.posts)[tag]
  {
  }

  /** Without a crash, a job that was picked earlier and has left memory is not posted any more. */
  lemma {:induction false} NotPostedInThisLife(s: State, more: seq<Event>, tag: Tag)
    requires Inv(s) && tag in s.picked && s.pending != Some(tag)
    requires forall e :: e in more ==> !e.Crash?
    ensures multiset(Exec(s, more).posts)[tag] == multiset(s.posts)[tag]
    decreases |more|
  {
    hide Next, Inv;
    if more != [] {
      NextKeepsInv(s, more[0]);
      NotPostedNow(s, more[0], tag);
      assert more[0] in more && forall e :: e in more[1..] ==> e in more;
      NotPostedInThisLife(Next(s, more[0]), more[1..], tag);
    }
  }

  /** A job cancelled in this life of the process is not posted in it, whatever the transfer under way still does. */
  lemma CancelledIsNotPostedInThisLife(before: seq<Event>, more: seq<Event>, tag: Tag)
    requires Exec(START, before).pending == Some(tag)
    requires forall e :: e in more ==> !e.Crash?
    ensures
      var s := Exec(START, before);
      multiset(Exec(START, before + [Cancel] + more).posts)[tag] == multiset(s.posts)[tag]
  {
    var s := Exec(START, before);
    ExecKeepsInv(START, before);
    NextKeepsInv(s, Cancel);
    ExecConcat(START, before + [Cancel], more);
    ExecOne(START, before, Cancel);
    assert Storage(s)[|Storage(s)| - 1] == s.pending;
    NotPostedInThisLife(Next(s, Cancel), more, tag);
  }

  // ---- a settled job may come back ------------------------------------------------------------------

  /** Nothing holds the job any more and nothing is going to. */
  ghost predicate Buried(s: State, tag: Tag) {
    Inv(s) && tag in s.picked && s.pending != Some(tag) && Some(tag) !in Storage(s)
  }

  /** Storage only ever comes to hold what is in memory. */
  lemma StorageIsFed(s: State, e: Event)
    ensures forall x :: x in Storage(Next(s, e)) ==> x in Storage(s) || x == Next(s, e).pending
  {
    var q := Storage(s);
    assert s.stored == q[0] && forall i :: 0 <= i < |s.writes| ==> s.writes[i] == q[i + 1];
    if e.Durable? && s.writes != [] {
      assert Storage(Next(s, e)) == q[1..];
    }
  }

  lemma BuriedInMemory(s: State, e: Event, tag: Tag)
    requires Buried(s, tag)
    ensures var t := Next(s, e); tag in t.picked && t.pending != Some(tag) && multiset(t.posts)[tag] == multiset(s.posts)[tag]
  {
    assert Storage(s)[0] == s.stored;
    if e.HandOff? && Current(s) {
      assert s.transfer.value.tag != tag;
    }
  }

  lemma BuriedStaysBuried(s: State, e: Event, tag: Tag)
    requires Buried(s, tag)
    ensures Buried(Next(s, e), tag)
    ensures multiset(Next(s, e).posts)[tag] == multiset(s.posts)[tag]
  {
    hide Next, Storage, Inv;
    NextKeepsInv(s, e);
    StorageIsFed(s, e);
    BuriedInMemory(s, e, tag);
  }

  lemma {:induction false} BuriedForever(s: State, es: seq<Event>, tag: Tag)
    requires Buried(s, tag)
    ensures multiset(Exec(s, es).posts)[tag] == multiset(s.posts)[tag]
    decreases |es|
  {
    if es != [] {
      BuriedStaysBuried(s, es[0], tag);
      BuriedForever(Next(s, es[0]), es[1..], tag);
    }
  }

  /** n writes take effect, the process dies, and the user resumes what is stored. */
  function Revival(n: nat): seq<Event> {
    seq(n, _ => Durable) + [Crash, Resume, HandOff(true)]
  }

  lemma {:induction false} RevivalPosts(s: State, n: nat, tag: Tag)
    requires n < |Storage(s)| && Storage(s)[n] == Some(tag)
    ensures Exec(s, Revival(n)).posts == s.posts + [tag]
    decreases n
  {
    if n == 0 {
      var s1 := Next(s, Crash);
      var s2 := Next(s1, Resume);
      assert Revival(0) == [Crash, Resume, HandOff(true)];
      assert Revival(0)[1..] == [Resume, HandOff(true)];
      assert Exec(s, Revival(0)) == Exec(s1, [Resume, HandOff(true)]);
      assert [Resume, HandOff(true)][1..] == [HandOff(true)];
      assert Exec(s1, [Resume, HandOff(true)]) == Exec(s2, [HandOff(true)]);
      assert [HandOff(true)][1..] == [];
    } else {
      assert Storage(Next(s, Durable)) == Storage(s)[1..];
      assert Revival(n)[0] == Durable && Revival(n)[1..] == Revival(n - 1);
      RevivalPosts(Next(s, Durable), n - 1, tag);
    }
  }

  /**
   A job that has left memory, cancelled or posted, can still be posted (again) by some continuation if and
   only if storage holds it or a write under way will make it: that is, if the process can die before the
   empty value is stored.
   */
  lemma PostedAgainIffStillStored(es: seq<Event>, tag: Tag)
    requires var s := Exec(START, es); tag in s.picked && s.pending != Some(tag)
    ensures var s := Exec(START, es);
            (exists more :: multiset(Exec(s, more).posts)[tag] > multiset(s.posts)[tag]) <==> Some(tag) in Storage(s)
  {
    ExecKeepsInv(START, es);
    var s := Exec(START, es);
    if Some(tag) in Storage(s) {
      var n :| 0 <= n < |Storage(s)| && Storage(s)[n] == Some(tag);
      RevivalPosts(s, n, tag);
      assert multiset(Exec(s, Revival(n)).posts)[tag] > multiset(s.posts)[tag];
    } else {
      forall more
        ensures multiset(Exec(s, more).posts)[tag] == multiset(s.posts)[tag]
      {
        BuriedForever(s, more, tag);
      }
    }
  }

  lemma {:induction false} StaysCancelled(s: State, es: seq<Event>, tag: Tag)
    requires tag in s.cancelled
    ensures tag in Exec(s, es).cancelled
    decreases |es|
  {
    if es != [] {
      StaysCancelled(Next(s, es[0]), es[1..], tag);
    }
  }

  lemma CancelledAtOnce()
    ensures
      var s := Exec(START, [Pick(1), Durable, Cancel]);
      s.posts == [] && 1 in s.cancelled && s.stored == Some(1)
  {
    assert [Pick(1), Durable, Cancel] == [Pick(1), Durable] + [Cancel] && [Pick(1), Durable] == [Pick(1)] + [Durable];
    ExecOne(START, [Pick(1), Durable], Cancel);
    ExecOne(START, [Pick(1)], Durable);
    ExecOne(START, [], Pick(1));
    assert [] + [Pick(1)] == [Pick(1)];
  }

  /** So a cancelled job can be posted after all: it was saved, cancelled, and the process died at once. */
  lemma CancelledJobPosted()
    ensures var s := Exec(START, [Pick(1), Durable, Cancel, Crash, Resume, HandOff(true)]);
            1 in s.cancelled && s.posts == [1]
  {
    var first := [Pick(1), Durable, Cancel];
    var s := Exec(START, first);
    CancelledAtOnce();
    assert first + Revival(0) == [Pick(1), Durable, Cancel, Crash, Resume, HandOff(true)];
    ExecConcat(START, first, Revival(0));
    RevivalPosts(s, 0, 1);
    StaysCancelled(s, Revival(0), 1);
  }
}

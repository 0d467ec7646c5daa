/** What the wrong-PIN limiter and the session table guarantee over every run. */
module AuthTheorems {
  import opened Prelude
  import opened FixedWindow
  import opened AuthModel

  // ---- the limiter ----------------------------------------------------------------------------------

  /** At no point of the run are more than k requests of the peer between check and answer. */
  ghost predicate AtMost(s: State, es: seq<Event>, peer: Peer, k: nat)
    decreases |es|
  {
    InFlight(s, peer) <= k && (es == [] || AtMost(Next(s, es[0]), es[1..], peer, k))
  }

  /** What one window can count while at most k requests are between check and record. */
  function Most(k: nat): int {
    FAIL_LIMIT - 1 + k
  }

  /** The peer's window is the last one of its trace, with room for the requests that passed the check. */
  ghost predicate Tracked(s: State, peer: Peer, k: nat)
    requires k > 0
  {
    var hits := HitsOf(s, peer);
    && Trace(hits, FAIL_WINDOW, Most(k))
    && (hits != [] ==>
          var last := hits[|hits| - 1];
          hits[0].nth == 1 && hits[0].start >= hits[0].at && last.at <= s.now && last.start <= s.now)
    && if peer in s.fails then
         var w := s.fails[peer];
         && hits != [] && hits[|hits| - 1].nth == w.count && hits[|hits| - 1].start == w.start
         && (!Expired(s.now, w) ==> w.count + InFlight(s, peer) <= Most(k))
       else
         hits != [] ==> s.now - hits[|hits| - 1].start > FAIL_WINDOW
  }

  lemma WrongKeepsTracked(s: State, peer: Peer, pause: nat, k: nat)
    requires k > 0 && 0 < InFlight(s, peer) <= k && Tracked(s, peer, k)
    ensures Tracked(Next(s, Wrong(peer, pause)), peer, k)
  {
    var hits := HitsOf(s, peer);
    var w := FailWindow(s.now, s.now + pause, s.fails, peer);
    var h := Hit(s.now, w.count, w.start);
    TraceSnoc(hits, FAIL_WINDOW, Most(k), h);
    var t := Next(s, Wrong(peer, pause));
    assert HitsOf(t, peer) == hits + [h];
  }

  lemma NextKeepsTracked(s: State, e: Event, peer: Peer, k: nat)
    requires k > 0 && Tracked(s, peer, k)
    requires InFlight(s, peer) <= k && InFlight(Next(s, e), peer) <= k
    ensures Tracked(Next(s, e), peer, k)
  {
    if e.Wrong? && e.peer == peer && InFlight(s, peer) > 0 {
      WrongKeepsTracked(s, peer, e.pause, k);
    } else if e.Right? && e.peer == peer && InFlight(s, peer) > 0 {
      assert HitsOf(Next(s, e), peer) == [];
    } else {
      assert HitsOf(Next(s, e), peer) == HitsOf(s, peer);
    }
  }

  lemma {:induction false} ExecKeepsTracked(s: State, es: seq<Event>, peer: Peer, k: nat)
    requires k > 0 && Tracked(s, peer, k) && AtMost(s, es, peer, k)
    ensures Tracked(Exec(s, es), peer, k)
    decreases |es|
  {
    if es != [] {
      NextKeepsTracked(s, es[0], peer, k);
      ExecKeepsTracked(Next(s, es[0]), es[1..], peer, k);
    }
  }

  /** With at most k requests of a peer between check and record, a window counts at most 5 - 1 + k wrong PINs and
      any closed minute since its last right PIN fewer than twice as many. */
  lemma WrongPinsPerMinute(now: int, es: seq<Event>, peer: Peer, k: nat, a: int)
    requires k > 0 && AtMost(Start(now), es, peer, k)
    ensures
      var s := Exec(Start(now), es);
      && (peer in s.fails ==> s.fails[peer].count <= 4 + k)
      && Within(HitsOf(s, peer), a, a + 60000) <= 2 * (4 + k) - 1
  {
    ExecKeepsTracked(Start(now), es, peer, k);
    AtMostTwoWindows(HitsOf(Exec(Start(now), es), peer), FAIL_WINDOW, Most(k), a);
  }

  // ---- the bounds are met ---------------------------------------------------------------------------

  /** Wrong PINs sent one at a time, all at once on the clock. */
  function Guesses(n: nat, peer: Peer): seq<Event> {
    if n == 0 then [] else [Check(peer), Wrong(peer, 0)] + Guesses(n - 1, peer)
  }

  /** The peer's window after n more wrong PINs without a pause. */
  function Counting(s: State, peer: Peer, n: nat): Window {
    if peer in s.fails && !Expired(s.now, s.fails[peer]) then s.fails[peer].(count := s.fails[peer].count + n)
    else Window(n, s.now)
  }

  /** What n guesses at once have changed. */
  ghost predicate Counts(s: State, t: State, n: nat, peer: Peer, a: int, b: int) {
    && t.now == s.now && InFlight(t, peer) == 0
    && Within(HitsOf(t, peer), a, b) == Within(HitsOf(s, peer), a, b) + n
    && (n > 0 ==> peer in t.fails && t.fails[peer] == Counting(s, peer, n))
  }

  /** Within the minute every guess is counted as long as the window has room. */
  lemma {:induction false} GuessesAreCounted(s: State, n: nat, peer: Peer, a: int, b: int)
    requires a <= s.now <= b && InFlight(s, peer) == 0
    requires n > 0 ==> Counting(s, peer, n).count <= FAIL_LIMIT
    requires peer in s.fails ==> s.fails[peer].count > 0
    ensures AtMost(s, Guesses(n, peer), peer, 1)
    ensures Counts(s, Exec(s, Guesses(n, peer)), n, peer, a, b)
    decreases n
  {
    if n > 0 {
      OneGuess(s, peer, a, b);
      var u := Next(Next(s, Check(peer)), Wrong(peer, 0));
      CountingOn(s, u, n, peer);
      GuessesAreCounted(u, n - 1, peer, a, b);
      FirstOfGuesses(s, n, peer);
    }
  }

  lemma CountingOn(s: State, u: State, n: nat, peer: Peer)
    requires n > 0 && u.now == s.now && peer in u.fails && u.fails[peer] == Counting(s, peer, 1)
    ensures n > 1 ==> Counting(u, peer, n - 1) == Counting(s, peer, n)
    ensures n == 1 ==> u.fails[peer] == Counting(s, peer, n)
    ensures u.fails[peer].count > 0
  {
  }

  lemma FirstOfGuesses(s: State, n: nat, peer: Peer)
    requires n > 0 && InFlight(s, peer) <= 1 && InFlight(Next(s, Check(peer)), peer) <= 1
    ensures
      var u := Next(Next(s, Check(peer)), Wrong(peer, 0));
      && Exec(s, Guesses(n, peer)) == Exec(u, Guesses(n - 1, peer))
      && (AtMost(u, Guesses(n - 1, peer), peer, 1) ==> AtMost(s, Guesses(n, peer), peer, 1))
  {
    var t, es := Next(s, Check(peer)), Guesses(n, peer);
    var fs := es[1..];
    assert fs[0] == Wrong(peer, 0) && fs[1..] == Guesses(n - 1, peer);
    assert Exec(s, es) == Exec(t, fs);
  }

  lemma OneGuess(s: State, peer: Peer, a: int, b: int)
    requires a <= s.now <= b && InFlight(s, peer) == 0
    requires !IsLimited(s.now, s.fails, peer)
    requires peer in s.fails ==> s.fails[peer].count > 0
    ensures InFlight(Next(s, Check(peer)), peer) == 1
    ensures Counts(s, Next(Next(s, Check(peer)), Wrong(peer, 0)), 1, peer, a, b)
  {
    var t := Next(s, Check(peer));
    assert t == s.(fails := AfterCheck(s.now, s.fails, peer), inFlight := s.inFlight[peer := 1]);
    var hits := HitsOf(t, peer);
    assert hits == HitsOf(s, peer);
    var w := FailWindow(t.now, t.now, t.fails, peer);
    var u, h := Next(t, Wrong(peer, 0)), Hit(t.now, w.count, w.start);
    assert HitsOf(u, peer) == hits + [h];
    assert (hits + [h])[..|hits|] == hits;
  }

  lemma {:induction false} AtMostConcat(s: State, es: seq<Event>, fs: seq<Event>, peer: Peer, k: nat)
    requires AtMost(s, es, peer, k) && AtMost(Exec(s, es), fs, peer, k)
    ensures AtMost(s, es + fs, peer, k)
    decreases |es|
  {
    if es == [] {
      assert es + fs == fs;
    } else {
      assert (es + fs)[1..] == es[1..] + fs;
      AtMostConcat(Next(s, es[0]), es[1..], fs, peer, k);
    }
  }

  lemma FirstGuess(now: int, peer: Peer, a: int, b: int) returns (es: seq<Event>)
    requires now < a
    ensures AtMost(Start(now), es, peer, 1)
    ensures
      var t := Exec(Start(now), es);
      && t.now == now && InFlight(t, peer) == 0 && Within(HitsOf(t, peer), a, b) == 0
      && peer in t.fails && t.fails[peer] == Window(1, now)
  {
    es := [Check(peer), Wrong(peer, 0)];
    assert es[1..] == [Wrong(peer, 0)];
    var t := Next(Start(now), es[0]);
    assert Exec(t, es[1..]) == Next(t, Wrong(peer, 0));
    assert HitsOf(Next(t, Wrong(peer, 0)), peer) == [Hit(now, 1, now)];
    NoneWithin([Hit(now, 1, now)], a, b);
  }

  function Times(n: nat, e: Event): seq<Event> {
    if n == 0 then [] else [e] + Times(n - 1, e)
  }

  /** Requests that pass the check together. */
  lemma {:induction false} ChecksPass(s: State, n: nat, peer: Peer, k: nat)
    requires !IsLimited(s.now, s.fails, peer) && InFlight(s, peer) + n <= k
    requires peer in s.fails ==> !Expired(s.now, s.fails[peer])
    ensures AtMost(s, Times(n, Check(peer)), peer, k)
    ensures
      var t := Exec(s, Times(n, Check(peer)));
      t.fails == s.fails && t.now == s.now && t.hits == s.hits && InFlight(t, peer) == InFlight(s, peer) + n
    decreases n
  {
    if n > 0 {
      ChecksPass(Next(s, Check(peer)), n - 1, peer, k);
      assert Times(n, Check(peer))[1..] == Times(n - 1, Check(peer));
    }
  }

  /** They are all counted, even though the window is full by then. */
  lemma {:induction false} WrongsCount(s: State, n: nat, peer: Peer, k: nat, a: int, b: int)
    requires n <= InFlight(s, peer) <= k && a <= s.now <= b
    requires peer in s.fails && !Expired(s.now, s.fails[peer]) && s.fails[peer].count > 0
    ensures AtMost(s, Times(n, Wrong(peer, 0)), peer, k)
    ensures
      var t := Exec(s, Times(n, Wrong(peer, 0)));
      && t.now == s.now && InFlight(t, peer) == InFlight(s, peer) - n
      && peer in t.fails && t.fails[peer] == s.fails[peer].(count := s.fails[peer].count + n)
      && Within(HitsOf(t, peer), a, b) == Within(HitsOf(s, peer), a, b) + n
    decreases n
  {
    if n > 0 {
      OneWrong(s, peer, a, b);
      WrongsCount(Next(s, Wrong(peer, 0)), n - 1, peer, k, a, b);
      assert Times(n, Wrong(peer, 0))[1..] == Times(n - 1, Wrong(peer, 0));
    }
  }

  lemma OneWrong(s: State, peer: Peer, a: int, b: int)
    requires InFlight(s, peer) > 0 && a <= s.now <= b
    requires peer in s.fails && !Expired(s.now, s.fails[peer]) && s.fails[peer].count > 0
    ensures
      var t := Next(s, Wrong(peer, 0));
      && t.now == s.now && InFlight(t, peer) == InFlight(s, peer) - 1
      && peer in t.fails && t.fails[peer] == s.fails[peer].(count := s.fails[peer].count + 1)
      && Within(HitsOf(t, peer), a, b) == Within(HitsOf(s, peer), a, b) + 1
  {
    var hits, w := HitsOf(s, peer), FailWindow(s.now, s.now, s.fails, peer);
    var h := Hit(s.now, w.count, w.start);
    assert HitsOf(Next(s, Wrong(peer, 0)), peer) == hits + [h];
    assert (hits + [h])[..|hits|] == hits;
  }

  lemma {:induction false} AtMostMore(s: State, es: seq<Event>, peer: Peer, k: nat, more: nat)
    requires AtMost(s, es, peer, k) && k <= more
    ensures AtMost(s, es, peer, more)
    decreases |es|
  {
    if es != [] {
      AtMostMore(Next(s, es[0]), es[1..], peer, k, more);
    }
  }

  /** k requests pass the check before any of them is recorded. */
  lemma Crowd(s: State, k: nat, peer: Peer, a: int, b: int) returns (es: seq<Event>)
    requires a <= s.now <= b && InFlight(s, peer) == 0
    requires peer in s.fails && !Expired(s.now, s.fails[peer]) && 0 < s.fails[peer].count < FAIL_LIMIT
    ensures AtMost(s, es, peer, k)
    ensures
      var t := Exec(s, es);
      && t.now == s.now && InFlight(t, peer) == 0
      && peer in t.fails && t.fails[peer] == s.fails[peer].(count := s.fails[peer].count + k)
      && Within(HitsOf(t, peer), a, b) == Within(HitsOf(s, peer), a, b) + k
  {
    var cs, ws := Times(k, Check(peer)), Times(k, Wrong(peer, 0));
    ChecksPass(s, k, peer, k);
    var t := Exec(s, cs);
    assert HitsOf(t, peer) == HitsOf(s, peer);
    WrongsCount(t, k, peer, k, a, b);
    es := cs + ws;
    AtMostConcat(s, cs, ws, peer, k);
    ExecConcat(s, cs, ws);
  }

  /** The clock moves on, the peer guesses n times, and then k times at once. */
  lemma CrowdedRound(s: State, es: seq<Event>, pause: nat, n: nat, k: nat, peer: Peer, a: int, b: int)
    returns (fs: seq<Event>)
    requires k > 0 && AtMost(s, es, peer, k)
    requires
      var t := Exec(s, es);
      && a <= t.now + pause <= b && InFlight(t, peer) == 0
      && (peer in t.fails ==> t.fails[peer].count > 0)
      && n > 0 && Counting(t.(now := t.now + pause), peer, n).count < FAIL_LIMIT
    ensures AtMost(s, fs, peer, k)
    ensures
      var t, u := Exec(s, es), Exec(s, fs);
      var w := Counting(t.(now := t.now + pause), peer, n);
      && u.now == t.now + pause && InFlight(u, peer) == 0
      && Within(HitsOf(u, peer), a, b) == Within(HitsOf(t, peer), a, b) + n + k
      && peer in u.fails && u.fails[peer] == w.(count := w.count + k)
  {
    var t := Exec(s, es);
    var guesses := [Tick(pause)] + Guesses(n, peer);
    assert guesses[1..] == Guesses(n, peer);
    var t1 := Next(t, Tick(pause));
    assert HitsOf(t1, peer) == HitsOf(t, peer);
    GuessesAreCounted(t1, n, peer, a, b);
    AtMostMore(t, guesses, peer, 1, k);
    var crowd := Crowd(Exec(t, guesses), k, peer, a, b);
    AtMostConcat(t, guesses, crowd, peer, k);
    AtMostConcat(s, es, guesses + crowd, peer, k);
    ExecConcat(t, guesses, crowd);
    ExecConcat(s, es, guesses + crowd);
    fs := es + (guesses + crowd);
  }

  /**
   For every k the bounds are met: one guess, and a minute later three guesses and k at once, fill a window with
   5 - 1 + k; four guesses and k at once right after it make it 2 (5 - 1 + k) - 1 within a closed minute.
   */
  lemma BoundsAreMet(now: int, peer: Peer, k: nat) returns (es: seq<Event>, fs: seq<Event>)
    requires k > 0
    ensures AtMost(Start(now), es, peer, k) && AtMost(Start(now), fs, peer, k)
    ensures
      var s, t := Exec(Start(now), es), Exec(Start(now), fs);
      && peer in s.fails && s.fails[peer].count == 4 + k
      && Within(HitsOf(t, peer), now + 60000, now + 120000) == 2 * (4 + k) - 1
  {
    var s, a, b := Start(now), now + FAIL_WINDOW, now + 2 * FAIL_WINDOW;
    var first := FirstGuess(now, peer, a, b);
    AtMostMore(s, first, peer, 1, k);
    es := CrowdedRound(s, first, FAIL_WINDOW, FAIL_LIMIT - 2, k, peer, a, b);
    fs := CrowdedRound(s, es, 1, FAIL_LIMIT - 1, k, peer, a, b);
  }

  /** Five wrong PINs in any minute is not what the limiter gives: nine are possible, one at a time. */
  lemma NineIsReached(now: int, peer: Peer) returns (es: seq<Event>)
    ensures AtMost(Start(now), es, peer, 1)
    ensures Within(HitsOf(Exec(Start(now), es), peer), now + 60000, now + 120000) == 9
  {
    var window;
    window, es := BoundsAreMet(now, peer, 1);
  }

  // ---- pruning --------------------------------------------------------------------------------------

  /** A session as the handlers see it. */
  function LiveSession(now: int, sessions: map<Token, int>, token: Token): Option<int> {
    if token in sessions && now < sessions[token] then Some(sessions[token]) else None
  }

  /** A window as the handlers see it. */
  function LiveWindow(now: int, fails: map<Peer, Window>, peer: Peer): Option<Window> {
    if peer in fails && !Expired(now, fails[peer]) && fails[peer].count > 0 then Some(fails[peer]) else None
  }

  /** Two states that differ at most in entries that have run out. */
  ghost predicate Alike(s: State, t: State) {
    && t == s.(sessions := t.sessions, fails := t.fails)
    && (forall token :: LiveSession(s.now, s.sessions, token) == LiveSession(s.now, t.sessions, token))
    && (forall peer :: LiveWindow(s.now, s.fails, peer) == LiveWindow(s.now, t.fails, peer))
  }

  lemma PruneIsAlike(s: State, t: State, delay: nat)
    requires Alike(s, t)
    ensures Alike(Next(s, Prune(delay)), t)
  {
    var u := Next(s, Prune(delay));
    forall token
      ensures LiveSession(s.now, u.sessions, token) == LiveSession(s.now, s.sessions, token)
    {
    }
    forall peer
      ensures LiveWindow(s.now, u.fails, peer) == LiveWindow(s.now, s.fails, peer)
    {
    }
  }

  lemma StayAlike(s: State, t: State, later: int)
    requires Alike(s, t) && s.now <= later
    ensures Alike(s.(now := later), t.(now := later))
  {
    forall token
      ensures LiveSession(later, s.sessions, token) == LiveSession(later, t.sessions, token)
    {
      assert LiveSession(s.now, s.sessions, token) == LiveSession(s.now, t.sessions, token);
    }
    forall peer
      ensures LiveWindow(later, s.fails, peer) == LiveWindow(later, t.fails, peer)
    {
      assert LiveWindow(s.now, s.fails, peer) == LiveWindow(s.now, t.fails, peer);
    }
  }

  lemma NextKeepsAlike(s: State, t: State, e: Event)
    requires Alike(s, t) && !e.Prune?
    ensures Alike(Next(s, e), Next(t, e)) && AnswerTo(s, e) == AnswerTo(t, e)
  {
    match e
    case Tick(d) =>
      StayAlike(s, t, s.now + d);
    case Ask(cookie) =>
      if cookie.Some? {
        assert LiveSession(s.now, s.sessions, cookie.value) == LiveSession(s.now, t.sessions, cookie.value);
      }
    case Check(p) =>
      CheckKeepsAlike(s, t, p);
    case Wrong(p, pause) =>
      assert LiveWindow(s.now, s.fails, p) == LiveWindow(s.now, t.fails, p);
      if InFlight(s, p) > 0 {
        WrongKeepsAlike(s, t, p, pause);
      }
    case Right(p, token) =>
      if InFlight(s, p) > 0 {
        RightKeepsAlike(s, t, p, token);
      }
    case Abandon(_) =>
  }

  lemma CheckKeepsAlike(s: State, t: State, p: Peer)
    requires Alike(s, t)
    ensures Alike(Next(s, Check(p)), Next(t, Check(p)))
    ensures AnswerTo(s, Check(p)) == AnswerTo(t, Check(p))
  {
    var u, v := Next(s, Check(p)), Next(t, Check(p));
    assert LiveWindow(s.now, s.fails, p) == LiveWindow(s.now, t.fails, p);
    forall peer
      ensures LiveWindow(s.now, u.fails, peer) == LiveWindow(s.now, v.fails, peer)
    {
      assert LiveWindow(s.now, s.fails, peer) == LiveWindow(s.now, t.fails, peer);
    }
  }

  lemma RightKeepsAlike(s: State, t: State, p: Peer, token: Token)
    requires Alike(s, t) && InFlight(s, p) > 0
    ensures Alike(Next(s, Right(p, token)), Next(t, Right(p, token)))
  {
    var u, v := Next(s, Right(p, token)), Next(t, Right(p, token));
    forall other
      ensures LiveSession(s.now, u.sessions, other) == LiveSession(s.now, v.sessions, other)
    {
      assert LiveSession(s.now, s.sessions, other) == LiveSession(s.now, t.sessions, other);
    }
    forall peer
      ensures LiveWindow(s.now, u.fails, peer) == LiveWindow(s.now, v.fails, peer)
    {
      assert LiveWindow(s.now, s.fails, peer) == LiveWindow(s.now, t.fails, peer);
    }
  }

  lemma WrongKeepsAlike(s: State, t: State, p: Peer, pause: nat)
    requires Alike(s, t) && InFlight(s, p) > 0
    ensures Alike(Next(s, Wrong(p, pause)), Next(t, Wrong(p, pause)))
  {
    assert LiveWindow(s.now, s.fails, p) == LiveWindow(s.now, t.fails, p);
    var now := s.now + pause;
    StayAlike(s, t, now);
    var u, v := Next(s, Wrong(p, pause)), Next(t, Wrong(p, pause));
    forall peer
      ensures LiveWindow(now, u.fails, peer) == LiveWindow(now, v.fails, peer)
    {
      assert LiveWindow(now, s.fails, peer) == LiveWindow(now, t.fails, peer);
    }
  }

  /** A run without its prunes. */
  function Unpruned(es: seq<Event>): seq<Event> {
    if es == [] then [] else (if es[0].Prune? then [] else [es[0]]) + Unpruned(es[1..])
  }

  /** The answers of a run, prunes not counted. */
  function Heard(s: State, es: seq<Event>): seq<Answer>
    decreases |es|
  {
    if es == [] then []
    else (if es[0].Prune? then [] else [AnswerTo(s, es[0])]) + Heard(Next(s, es[0]), es[1..])
  }

  lemma {:induction false} AlikeRunsAnswerAlike(s: State, t: State, es: seq<Event>)
    requires Alike(s, t)
    ensures Heard(s, es) == Answers(t, Unpruned(es))
    ensures Alike(Exec(s, es), Exec(t, Unpruned(es)))
    decreases |es|
  {
    if es != [] {
      var e := es[0];
      if e.Prune? {
        PruneIsAlike(s, t, e.delay);
        AlikeRunsAnswerAlike(Next(s, e), t, es[1..]);
        assert Unpruned(es) == Unpruned(es[1..]);
      } else {
        NextKeepsAlike(s, t, e);
        AlikeRunsAnswerAlike(Next(s, e), Next(t, e), es[1..]);
        assert Unpruned(es)[1..] == Unpruned(es[1..]);
      }
    }
  }

  /** Pruning cannot be observed: a run gives the answers it gives without its prunes. */
  lemma PruningIsUnobservable(s: State, es: seq<Event>)
    ensures Heard(s, es) == Answers(s, Unpruned(es))
  {
    AlikeRunsAnswerAlike(s, s, es);
  }

  /** A prune takes what has run out at its clock reading, and nothing else. */
  lemma PruneTakesTheExpired(s: State, delay: nat)
    ensures
      var t, now := Next(s, Prune(delay)), s.now - delay;
      && (forall token :: token in t.sessions <==> token in s.sessions && s.sessions[token] >= now)
      && (forall peer :: peer in t.fails <==> peer in s.fails && now - s.fails[peer].start <= 60000)
      && (forall token :: token in t.sessions ==> t.sessions[token] == s.sessions[token])
      && (forall peer :: peer in t.fails ==> t.fails[peer] == s.fails[peer])
      && t == s.(sessions := t.sessions, fails := t.fails)
  {
  }

  // ---- sessions -------------------------------------------------------------------------------------

  /** When a session runs out, going by when its token was last issued. */
  function Granted(now: int, issued: map<Token, int>, token: Token): Option<int> {
    if token in issued && now < issued[token] + SESSION_TTL then Some(issued[token] + SESSION_TTL) else None
  }

  /** Every session that still counts is one that was issued, and the other way round. */
  ghost predicate SessionsInv(s: State) {
    forall token :: LiveSession(s.now, s.sessions, token) == Granted(s.now, s.issued, token)
  }

  lemma NextKeepsSessions(s: State, e: Event)
    requires SessionsInv(s)
    ensures SessionsInv(Next(s, e))
  {
    var t := Next(s, e);
    forall token
      ensures LiveSession(t.now, t.sessions, token) == Granted(t.now, t.issued, token)
    {
      assert LiveSession(s.now, s.sessions, token) == Granted(s.now, s.issued, token);
    }
  }

  lemma {:induction false} ExecKeepsSessions(s: State, es: seq<Event>)
    requires SessionsInv(s)
    ensures SessionsInv(Exec(s, es))
    decreases |es|
  {
    if es != [] {
      NextKeepsSessions(s, es[0]);
      ExecKeepsSessions(Next(s, es[0]), es[1..]);
    }
  }

  /** A token is accepted exactly for the 30 days after it was last issued, whatever else happened. */
  lemma AcceptedForThirtyDays(now: int, es: seq<Event>, token: Token)
    ensures
      var s := Exec(Start(now), es);
      IsAllowed(s.now, s.sessions, Some(token)) <==> token in s.issued && s.now < s.issued[token] + 2592000000
  {
    ExecKeepsSessions(Start(now), es);
    var s := Exec(Start(now), es);
    assert LiveSession(s.now, s.sessions, token) == Granted(s.now, s.issued, token);
  }
}

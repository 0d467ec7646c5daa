/**
 The room PIN: the session table and the table of failures.  Every event is one critical section under the
 mutex; what a request does between two of them may interleave with other requests.
 */
module AuthModel {
  import opened Prelude
  import opened FixedWindow

  type Token = string
  type Peer = string

  /** Milliseconds. */
  const SESSION_TTL: nat := 30 * 24 * 3600 * 1000
  const FAIL_WINDOW: nat := 60 * 1000
  const FAIL_LIMIT: nat := 5

  datatype Window = Window(count: nat, start: int)

  datatype State = State(
    now: int,
    sessions: map<Token, int>,
    fails: map<Peer, Window>,
    inFlight: map<Peer, nat>,         // history: requests past the check that have not got their answer
    issued: map<Token, int>,          // history: when each token was last issued
    hits: map<Peer, seq<Hit>>)        // history: wrong PINs counted since the peer's last right one

  datatype Event =
    | Tick(elapsed: nat)
    | Ask(cookie: Option<Token>)      // authorized
    | Check(peer: Peer)               // tooManyFails
    | Wrong(peer: Peer, pause: nat)   // recordFail; the pause is between its two clock readings
    | Right(peer: Peer, token: Token)
    | Abandon(peer: Peer)             // malformed JSON, or no random token
    | Prune(delay: nat)               // prune reads the clock before it waits for the mutex

  datatype Answer = Allowed(yes: bool) | Limited(yes: bool) | Counted(count: nat) | Silent

  function Expired(now: int, w: Window): bool {
    now - w.start > FAIL_WINDOW
  }

  function IsAllowed(now: int, sessions: map<Token, int>, cookie: Option<Token>): bool {
    cookie.Some? && cookie.value in sessions && now < sessions[cookie.value]
  }

  function IsLimited(now: int, fails: map<Peer, Window>, peer: Peer): bool {
    peer in fails && !Expired(now, fails[peer]) && fails[peer].count >= FAIL_LIMIT
  }

  /** tooManyFails forgets a window that has run out. */
  function AfterCheck(now: int, fails: map<Peer, Window>, peer: Peer): map<Peer, Window> {
    if peer in fails && Expired(now, fails[peer]) then fails - {peer} else fails
  }

  /** recordFail: the peer's window afterwards. */
  function FailWindow(now: int, later: int, fails: map<Peer, Window>, peer: Peer): Window {
    if peer !in fails || fails[peer].count == 0 || Expired(now, fails[peer]) then Window(1, later)
    else fails[peer].(count := fails[peer].count + 1)
  }

  function PrunedSessions(now: int, sessions: map<Token, int>): map<Token, int> {
    map t | t in sessions && now <= sessions[t] :: sessions[t]
  }

  function PrunedFails(now: int, fails: map<Peer, Window>): map<Peer, Window> {
    map p | p in fails && !Expired(now, fails[p]) :: fails[p]
  }

  function InFlight(s: State, peer: Peer): nat {
    if peer in s.inFlight then s.inFlight[peer] else 0
  }

  function HitsOf(s: State, peer: Peer): seq<Hit> {
    if peer in s.hits then s.hits[peer] else []
  }

  function Leave(s: State, peer: Peer): State {
    s.(inFlight := s.inFlight[peer := if InFlight(s, peer) > 0 then InFlight(s, peer) - 1 else 0])
  }

  function Next(s: State, e: Event): State {
    match e
    case Tick(d) => s.(now := s.now + d)
    case Ask(_) => s
    case Check(p) =>
      var t := s.(fails := AfterCheck(s.now, s.fails, p));
      if IsLimited(s.now, s.fails, p) then t else t.(inFlight := s.inFlight[p := InFlight(s, p) + 1])
    case Wrong(p, pause) =>
      if InFlight(s, p) == 0 then s
      else
        var w := FailWindow(s.now, s.now + pause, s.fails, p);
        Leave(s, p).(now := s.now + pause, fails := s.fails[p := w],
                     hits := s.hits[p := HitsOf(s, p) + [Hit(s.now, w.count, w.start)]])
    case Right(p, token) =>
      if InFlight(s, p) == 0 then s
      else
        Leave(s, p).(sessions := s.sessions[token := s.now + SESSION_TTL], fails := s.fails - {p},
                     issued := s.issued[token := s.now], hits := s.hits - {p})
    case Abandon(p) => if InFlight(s, p) == 0 then s else Leave(s, p)
    case Prune(delay) =>
      s.(sessions := PrunedSessions(s.now - delay, s.sessions), fails := PrunedFails(s.now - delay, s.fails))
  }

  function AnswerTo(s: State, e: Event): Answer {
    match e
    case Ask(cookie) => Allowed(IsAllowed(s.now, s.sessions, cookie))
    case Check(p) => Limited(IsLimited(s.now, s.fails, p))
    case Wrong(p, pause) => if InFlight(s, p) == 0 then Silent else Counted(FailWindow(s.now, s.now + pause, s.fails, p).count)
    case _ => Silent
  }

  function Exec(s: State, es: seq<Event>): State
    decreases |es|
  {
    if es == [] then s else Exec(Next(s, es[0]), es[1..])
  }

  /** The answers of a run. */
  function Answers(s: State, es: seq<Event>): seq<Answer>
    decreases |es|
  {
    if es == [] then [] else [AnswerTo(s, es[0])] + Answers(Next(s, es[0]), es[1..])
  }

  function Start(now: int): State {
    State(now, map[], map[], map[], map[], map[])
  }

  lemma {:induction false} ExecConcat(s: State, es: seq<Event>, fs: seq<Event>)
    ensures Exec(s, es + fs) == Exec(Exec(s, es), fs)
    decreases |es|
  {
    if es == [] {
      assert es + fs == fs;
    } else {
      assert (es + fs)[1..] == es[1..] + fs;
      ExecConcat(Next(s, es[0]), es[1..], fs);
    }
  }
}

/** The authState object: each method is one critical section under its mutex; HandleAuth runs several. */
module AuthServer {
  import opened Prelude
  import opened AuthModel

  datatype Reply = Ok200 | Issued(token: Token) | MethodNotAllowed | TooMany | BadRequest | Unauthorized | InternalError

  /** The request as decoded: the method, the PIN unless the JSON is malformed, and the limiter's key. */
  datatype Request = Request(post: bool, pin: Option<string>, peer: Peer)

  /** e happens at `now`. */
  function At(s: State, now: int, e: Event): State {
    Next(s.(now := now), e)
  }

  /** The peer's window is gone if it began more than a minute ago. */
  function Forgotten(now: int, fails: map<Peer, Window>, peer: Peer): map<Peer, Window> {
    if peer in fails && now - fails[peer].start > 60000 then fails - {peer} else fails
  }

  /** A request that passes the check is in flight. */
  lemma CheckAdmits(s: State, peer: Peer)
    ensures var t := Next(s, Check(peer)); t.now == s.now && (!IsLimited(s.now, s.fails, peer) ==> InFlight(t, peer) > 0)
  {
  }

  class AuthState {
    const pin: string
    var sessions: map<Token, int>
    var fails: map<Peer, Window>
    ghost const began: int
    ghost var log: seq<Event>          // the sections executed so far

    ghost function Model(): State
      reads this
    {
      Exec(Start(began), log)
    }

    ghost predicate Valid()
      reads this
    {
      sessions == Model().sessions && fails == Model().fails
    }

    constructor (pin: string, ghost now: int)
      ensures Valid() && this.pin == pin && began == now && log == []
      ensures sessions == map[] && fails == map[]
    {
      this.pin, began := pin, now;
      sessions, fails, log := map[], map[], [];
    }

    /** The clock has moved on to `now` and e happens. */
    ghost function Then(now: int, e: Event): seq<Event>
      reads this
      requires Model().now <= now
    {
      log + [Tick(now - Model().now), e]
    }

    lemma ThenNext(now: int, e: Event)
      requires Model().now <= now
      ensures Exec(Start(began), Then(now, e)) == At(Model(), now, e)
    {
      var tick := Tick(now - Model().now);
      var s := Model();
      ExecConcat(Start(began), log, [tick, e]);
      assert [tick, e][1..] == [e];
      assert Next(s, tick) == s.(now := now);
      assert Exec(s, [tick, e]) == Exec(s.(now := now), [e]) == Next(s.(now := now), e);
    }

    method Authorized(now: int, cookie: Option<Token>) returns (yes: bool)
      requires Valid()
      ensures yes == (pin == "" || IsAllowed(now, sessions, cookie))
      ensures yes <==> pin == "" || (cookie.Some? && cookie.value in sessions && now < sessions[cookie.value])
    {
      if pin == "" {
        return true;
      }
      if cookie.None? {
        return false;
      }
      yes := cookie.value in sessions && now < sessions[cookie.value];
    }

    method TooManyFails(now: int, peer: Peer) returns (yes: bool)
      requires Valid() && Model().now <= now
      modifies this
      ensures Valid() && log == old(Then(now, Check(peer))) && Model() == At(old(Model()), now, Check(peer))
      ensures yes == old(IsLimited(now, fails, peer))
      ensures yes <==> peer in old(fails) && now - old(fails)[peer].start <= 60000 && old(fails)[peer].count >= 5
      ensures sessions == old(sessions) && fails == Forgotten(now, old(fails), peer)
    {
      ThenNext(now, Check(peer));
      log := Then(now, Check(peer));
      if peer !in fails {
        return false;
      }
      var f := fails[peer];
      if now - f.start > FAIL_WINDOW {
        fails := fails - {peer};
        return false;
      }
      yes := f.count >= FAIL_LIMIT;
    }

    method RecordFail(now: int, later: int, peer: Peer)
      requires Valid() && Model().now <= now <= later && InFlight(Model(), peer) > 0
      modifies this
      ensures Valid() && log == old(Then(now, Wrong(peer, later - now)))
      ensures Model() == At(old(Model()), now, Wrong(peer, later - now))
      ensures fails == old(fails[peer := FailWindow(now, later, fails, peer)])
      ensures
        var was := old(fails);
        sessions == old(sessions) &&
        fails == was[peer := if peer in was && was[peer].count > 0 && now - was[peer].start <= 60000
                             then Window(was[peer].count + 1, was[peer].start) else Window(1, later)]
    {
      ThenNext(now, Wrong(peer, later - now));
      assert InFlight(Model().(now := now), peer) > 0;
      log := Then(now, Wrong(peer, later - now));
      var f := if peer in fails then fails[peer] else Window(0, 0);
      if f.count == 0 || now - f.start > FAIL_WINDOW {
        f := Window(0, later);
      }
      f := f.(count := f.count + 1);
      fails := fails[peer := f];
    }

    /** The scheduled cleanup; `now` was read before the mutex was free. */
    method Prune(now: int, ghost late: int)
      requires Valid() && Model().now <= late && now <= late
      modifies this
      ensures Valid() && log == old(Then(late, AuthModel.Event.Prune(late - now)))
      ensures sessions == old(PrunedSessions(now, sessions)) && fails == old(PrunedFails(now, fails))
      ensures forall t :: t in sessions <==> t in old(sessions) && now <= old(sessions)[t]
      ensures forall p :: p in fails <==> p in old(fails) && now - old(fails)[p].start <= 60000
      ensures (forall t :: t in sessions ==> sessions[t] == old(sessions)[t])
           && (forall p :: p in fails ==> fails[p] == old(fails)[p])
    {
      ghost var e := AuthModel.Event.Prune(late - now);
      ThenNext(late, e);
      log := Then(late, e);
      PruneSessions(now);
      PruneFails(now);
    }

    method PruneSessions(now: int)
      modifies this`sessions
      ensures sessions == old(PrunedSessions(now, sessions))
    {
      ghost var was := sessions;
      var tokens := sessions.Keys;
      while tokens != {}
        invariant tokens <= sessions.Keys <= was.Keys
        invariant forall t :: t in sessions ==> sessions[t] == was[t]
        invariant forall t :: t in was && t !in tokens ==> (t in sessions <==> now <= was[t])
      {
        var t :| t in tokens;
        if now > sessions[t] {
          sessions := sessions - {t};
        }
        tokens := tokens - {t};
      }
    }

    method PruneFails(now: int)
      modifies this`fails
      ensures fails == old(PrunedFails(now, fails))
    {
      ghost var was := fails;
      var peers := fails.Keys;
      while peers != {}
        invariant peers <= fails.Keys <= was.Keys
        invariant forall p :: p in fails ==> fails[p] == was[p]
        invariant forall p :: p in was && p !in peers ==> (p in fails <==> !Expired(now, was[p]))
      {
        var p :| p in peers;
        if now - fails[p].start > FAIL_WINDOW {
          fails := fails - {p};
        }
        peers := peers - {p};
      }
    }

    /** A right PIN: a new session, and the peer's failures are forgotten. */
    method Admit(now: int, peer: Peer, token: Token)
      requires Valid() && Model().now <= now && InFlight(Model(), peer) > 0
      modifies this
      ensures Valid() && log == old(Then(now, Right(peer, token))) && Model() == At(old(Model()), now, Right(peer, token))
      ensures sessions == old(sessions)[token := now + 2592000000] && fails == old(fails) - {peer}
    {
      ThenNext(now, Right(peer, token));
      assert InFlight(Model().(now := now), peer) > 0;
      log := Then(now, Right(peer, token));
      sessions := sessions[token := now + SESSION_TTL];
      fails := fails - {peer};
    }

    ghost method Drop(now: int, peer: Peer)
      requires Valid() && Model().now <= now
      modifies this`log
      ensures Valid() && log == old(Then(now, Abandon(peer))) && Model() == At(old(Model()), now, Abandon(peer))
    {
      ThenNext(now, Abandon(peer));
      log := Then(now, Abandon(peer));
    }

    /** POST /api/auth, handled without another request in between. `token` is None when no random bytes are left. */
    method HandleAuth(r: Request, token: Option<Token>, t0: int, t1: int, t2: int) returns (reply: Reply)
      requires Valid() && Model().now <= t0 <= t1 <= t2
      modifies this
      ensures Valid()
      ensures reply == (
                if !r.post then MethodNotAllowed
                else if pin == "" then Ok200
                else if r.peer in old(fails) && t0 - old(fails)[r.peer].start <= 60000 && old(fails)[r.peer].count >= 5 then TooMany
                else if r.pin.None? then BadRequest
                else if r.pin.value != pin then Unauthorized
                else if token.None? then InternalError
                else Issued(token.value))
      ensures reply in {MethodNotAllowed, Ok200} ==> log == old(log) && sessions == old(sessions) && fails == old(fails)
      ensures reply in {TooMany, BadRequest, InternalError} ==>
                sessions == old(sessions) && fails == Forgotten(t0, old(fails), r.peer)
      ensures reply.Issued? ==> sessions == old(sessions)[reply.token := t1 + 2592000000] && fails == old(fails) - {r.peer}
      ensures reply.Unauthorized? ==>
                && sessions == old(sessions)
                && fails.Keys == old(fails).Keys + {r.peer} && fails - {r.peer} == old(fails) - {r.peer}
                && (r.peer in old(fails) && old(fails)[r.peer].count > 0 && t1 - old(fails)[r.peer].start <= 60000 ==>
                      fails[r.peer] == old(fails)[r.peer].(count := old(fails)[r.peer].count + 1))
                && (r.peer !in old(fails) || t1 - old(fails)[r.peer].start > 60000 ==> fails[r.peer] == Window(1, t2))
      ensures reply.TooMany? ==> Model() == At(old(Model()), t0, Check(r.peer))
      ensures reply in {BadRequest, InternalError} ==>
                Model() == At(At(old(Model()), t0, Check(r.peer)), t1, Abandon(r.peer))
      ensures reply.Unauthorized? ==>
                Model() == At(At(old(Model()), t0, Check(r.peer)), t1, Wrong(r.peer, t2 - t1))
      ensures reply.Issued? ==>
                Model() == At(At(old(Model()), t0, Check(r.peer)), t1, Right(r.peer, reply.token))
    {
      hide Next, FailWindow, IsLimited, IsAllowed, InFlight, Exec;
      if !r.post {
        return MethodNotAllowed;
      }
      if pin == "" {
        return Ok200;
      }
      var limited := TooManyFails(t0, r.peer);
      if limited {
        return TooMany;
      }
      CheckAdmits(old(Model()).(now := t0), r.peer);
      reply := Judge(r, token, t1, t2);
    }

    /** What follows the check. */
    method Judge(r: Request, token: Option<Token>, t1: int, t2: int) returns (reply: Reply)
      requires Valid() && Model().now <= t1 <= t2 && InFlight(Model(), r.peer) > 0
      modifies this
      ensures Valid()
      ensures reply == if r.pin.None? then BadRequest else if r.pin.value != pin then Unauthorized
                       else if token.None? then InternalError else Issued(token.value)
      ensures reply in {BadRequest, InternalError} ==>
                Model() == At(old(Model()), t1, Abandon(r.peer)) && sessions == old(sessions) && fails == old(fails)
      ensures reply.Unauthorized? ==>
                && Model() == At(old(Model()), t1, Wrong(r.peer, t2 - t1)) && sessions == old(sessions)
                && var was := old(fails);
                   fails == was[r.peer := if r.peer in was && was[r.peer].count > 0 && t1 - was[r.peer].start <= 60000
                                          then Window(was[r.peer].count + 1, was[r.peer].start) else Window(1, t2)]
      ensures reply.Issued? ==>
                && Model() == At(old(Model()), t1, Right(r.peer, reply.token))
                && sessions == old(sessions)[reply.token := t1 + 2592000000] && fails == old(fails) - {r.peer}
    {
      if r.pin.None? {
        Drop(t1, r.peer);
        return BadRequest;
      }
      if r.pin.value != pin {
        RecordFail(t1, t2, r.peer);
        return Unauthorized;
      }
      if token.None? {
        Drop(t1, r.peer);
        return InternalError;
      }
      Admit(t1, r.peer, token.value);
      return Issued(token.value);
    }
  }
}

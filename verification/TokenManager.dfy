/** TokenManager (pkg/aqua/auth.go): GetToken and fetchToken as the imperative code they are. */
module TokenManager {
  import opened Wrappers
  import opened TokenProtocol

  const DEFAULT_VALIDITY := 240

  predicate ByOthers(a: Action, id: nat) {
    a.Tick? || a.id != id
  }

  lemma OthersLeaveCall(validity: int, s: State, a: Action, id: nat)
    requires Enabled(s, a) && ByOthers(a, id) && id in s.calls
    ensures var t := Apply(validity, s, a); id in t.calls && t.calls[id] == s.calls[id]
    ensures Requests(Apply(validity, s, a), id) == Requests(s, id)
  {
    hide Window;
  }

  /** How often a call with this number has asked the server. */
  function Requests(s: State, id: nat): nat {
    multiset(s.requests)[id]
  }

  /** How a call ends: with the token of a fetch, with a failed request, or not yet, because the lock is taken. */
  datatype Reply = Token(fetch: nat) | RequestError | Blocked

  class TokenManager {
    const validity: int
    var token: Option<nat>
    var tokenExpAt: int
    // the clock, the lock, the other calls, and the history
    var s: State

    /** The fields are those of the protocol, which has been followed so far. */
    ghost predicate Valid()
      reads this
    {
      s.token == token && s.expAt == tokenExpAt && Reaches(validity, INIT, s)
    }

    ghost predicate At(id: nat, call: Call)
      reads this
    {
      Valid() && id in s.calls && s.calls[id] == call
    }

    /** NewTokenManager: no validity means the default. */
    constructor (tokenValidity: int)
      ensures Valid() && s == INIT
      ensures validity == if tokenValidity == 0 then 240 else tokenValidity
    {
      validity := if tokenValidity == 0 then DEFAULT_VALIDITY else tokenValidity;
      token, tokenExpAt, s := None, 0, INIT;
      new;
      assert Executes(validity, INIT, [], INIT);
    }

    /** A step of this call that assigns neither field. */
    method Step(a: Action)
      requires Valid() && Enabled(s, a) && Apply(validity, s, a).token == token
      requires Apply(validity, s, a).expAt == tokenExpAt
      modifies `s
      ensures Valid() && s == Apply(validity, old(s), a)
    {
      hide Reaches, Enabled, Apply;
      ReachesStep(validity, INIT, s, a);
      s := Apply(validity, s, a);
    }

    /** Time passes and other calls go on. */
    method Await(id: nat)
      requires Valid() && id in s.calls
      modifies this
      ensures At(id, old(s.calls[id])) && Requests(s, id) == old(Requests(s, id))
    {
      hide Reaches, Enabled, Apply, ByOthers, Requests;
      var n: int := *;
      while 0 < n
        invariant At(id, old(s.calls[id])) && Requests(s, id) == old(Requests(s, id))
      {
        n := n - 1;
        var a: Action := *;
        if Enabled(s, a) && ByOthers(a, id) {
          OthersLeaveCall(validity, s, a, id);
          ReachesStep(validity, INIT, s, a);
          s := Apply(validity, s, a);
          token, tokenExpAt := s.token, s.expAt;
        }
      }
    }

    /**
     * mu.RLock(): look until no call holds the lock for writing, and take it; at most `patience` looks
     * are followed.
     */
    method RLock(id: nat, patience: nat) returns (ok: bool)
      requires At(id, Arriving)
      modifies this
      ensures if ok then At(id, Checking) else At(id, Arriving) && s.writer.Some?
      ensures Requests(s, id) == old(Requests(s, id))
    {
      hide Reaches, Window;
      Await(id);
      var looks := 0;
      while s.writer.Some? && looks < patience
        invariant At(id, Arriving) && Requests(s, id) == old(Requests(s, id))
      {
        looks := looks + 1;
        Await(id);
      }
      ok := s.writer.None?;
      if ok {
        Step(LockForReading(id));
      }
    }

    /** mu.Lock(): likewise, until no other call holds the lock at all. */
    method Lock(id: nat, patience: nat) returns (ok: bool)
      requires At(id, Wanting)
      modifies this
      ensures if ok then At(id, Rechecking) else At(id, Wanting) && (s.writer.Some? || s.readers != {})
      ensures Requests(s, id) == old(Requests(s, id))
    {
      hide Reaches, Window;
      Await(id);
      var looks := 0;
      while (s.writer.Some? || s.readers != {}) && looks < patience
        invariant At(id, Wanting) && Requests(s, id) == old(Requests(s, id))
      {
        looks := looks + 1;
        Await(id);
      }
      ok := s.writer.None? && s.readers == {};
      if ok {
        Step(LockForWriting(id));
      }
    }

    /** The token handed out last is that of `fetch`, now, by a call that has returned. */
    ghost predicate HandedOut(id: nat, fetch: nat)
      reads this
    {
      && Valid() && id !in s.calls && s.handouts != []
      && s.handouts[|s.handouts| - 1].fetch == fetch && s.handouts[|s.handouts| - 1].at == s.now
    }

    /** The reply is what the protocol shows of the call at this moment. */
    ghost predicate Replied(id: nat, r: Reply)
      reads this
    {
      match r
      case Token(fetch) => HandedOut(id, fetch)
      case RequestError => Valid() && id !in s.calls && s.failures != [] && s.failures[|s.failures| - 1] == id
      case Blocked => (At(id, Arriving) && s.writer.Some?) || (At(id, Wanting) && (s.writer.Some? || s.readers != {}))
    }

    /** One request to the server, unless the token came from the cache or the call is still waiting. */
    ghost predicate Asked(id: nat, r: Reply, before: nat)
      requires Replied(id, r)
      reads this
    {
      Requests(s, id) == before + if r.Blocked? || (r.Token? && s.handouts[|s.handouts| - 1].cached) then 0 else 1
    }

    /**
     * GetToken: a fresh token from the cache, or else what fetchToken comes to. However long the lock is
     * held by others, there is a `patience` with which the call gets it once they are through.
     */
    method GetToken(id: nat, patience: nat) returns (r: Reply)
      requires Valid() && id !in s.calls
      modifies this
      ensures Replied(id, r) && Asked(id, r, old(Requests(s, id)))
    {
      hide Reaches, Window;
      Step(Arrive(id));
      var locked := RLock(id, patience);
      if !locked {
        return Blocked;
      }
      Await(id);
      if token.Some? && s.now < tokenExpAt {
        r := Token(token.value);
        Step(Check(id));
        return;
      }
      Step(Check(id));
      r := FetchToken(id, patience);
    }

    /** fetchToken: the double check, then one request, all under the lock. */
    method FetchToken(id: nat, patience: nat) returns (r: Reply)
      requires At(id, Wanting)
      modifies this
      ensures Replied(id, r) && Asked(id, r, old(Requests(s, id)))
    {
      hide Reaches, Window;
      var locked := Lock(id, patience);
      if !locked {
        return Blocked;
      }
      Await(id);
      if token.Some? && s.now < tokenExpAt {
        r := Token(token.value);
        Step(Recheck(id));
        return;
      }
      ghost var sent := s.now;
      Step(Recheck(id));
      var received := Request(id, sent);
      if !received {
        return RequestError;
      }
      var fetched := Receive(id);
      return Token(fetched);
    }

    /** The request: it fails on the way, or the server issues a token, which may still be lost or malformed. */
    method Request(id: nat, ghost sent: int) returns (received: bool)
      requires At(id, Requesting(sent))
      modifies this
      ensures if received then Valid() && id in s.calls && s.calls[id].Receiving? else Replied(id, RequestError)
      ensures Requests(s, id) == old(Requests(s, id))
    {
      hide Reaches, Window;
      var issued: bool, usable: bool := *, *;
      Await(id);
      if !issued {
        Step(RequestFails(id));
        return false;
      }
      Step(ServerIssues(id));
      Await(id);
      if !usable {
        Step(RequestFails(id));
        return false;
      }
      return true;
    }

    /** The token is cached for nine tenths of its validity, and the lock released. */
    method Receive(id: nat) returns (fetched: nat)
      requires Valid() && id in s.calls && s.calls[id].Receiving?
      modifies this
      ensures HandedOut(id, fetched) && !s.handouts[|s.handouts| - 1].cached && Requests(s, id) == old(Requests(s, id))
      ensures token == Some(fetched) && tokenExpAt == s.now + Window(validity)
    {
      hide Reaches, WindowMinutes;
      ReachesStep(validity, INIT, s, Stamp(id));
      fetched := |s.fetches|;
      token := Some(fetched);
      tokenExpAt := s.now + WindowMinutes(validity) * MINUTE;
      s := Apply(validity, s, Stamp(id));
    }
  }
}

/** How slow an answer may be before the cache can serve a token past its validity, exactly. */
module TokenTightness {
  import opened Wrappers
  import opened TokenProtocol

  /**
   * The first call fetches a token that takes `latency` to arrive; at the end of its window a second
   * call is served.
   */
  function Begun(call: Call, writes: bool): State {
    State(0, None, 0, if writes then Some(0) else None, if call.Checking? then {0} else {}, map[0 := call], [], [],
          if call.Requesting? || call.Receiving? then [0] else [], [])
  }

  function Waited(latency: nat): State {
    State(latency, None, 0, Some(0), {}, map[0 := Receiving(0, 0)], [], [], [0], [])
  }

  function Kept(latency: nat, window: int, now: int, calls: map<nat, Call>, readers: set<nat>): State {
    State(now, Some(0), latency + window, None, readers, calls, [Fetch(0, 0, latency)], [Handout(0, false, latency)],
      [0], [])
  }

  function Late(latency: nat, window: int): State {
    var now := latency + window - 1;
    State(now, Some(0), latency + window, None, {}, map[], [Fetch(0, 0, latency)],
      [Handout(0, false, latency), Handout(0, true, now)], [0], [])
  }

  ghost predicate Leads(validity: int, s: State, a: Action, t: State) {
    Enabled(s, a) && Apply(validity, s, a) == t
  }

  lemma Go(validity: int, s: State, a: Action, t: State)
    requires Reaches(validity, INIT, s) && Leads(validity, s, a, t)
    ensures Reaches(validity, INIT, t)
  {
    hide Reaches, Enabled, Apply;
    ReachesStep(validity, INIT, s, a);
  }

  lemma FetchSteps(validity: int)
    ensures Leads(validity, INIT, Arrive(0), Begun(Arriving, false))
    ensures Leads(validity, Begun(Arriving, false), LockForReading(0), Begun(Checking, false))
    ensures Leads(validity, Begun(Checking, false), Check(0), Begun(Wanting, false))
  {
    hide Window;
  }

  lemma RequestSteps(validity: int)
    ensures Leads(validity, Begun(Wanting, false), LockForWriting(0), Begun(Rechecking, true))
    ensures Leads(validity, Begun(Rechecking, true), Recheck(0), Begun(Requesting(0), true))
    ensures Leads(validity, Begun(Requesting(0), true), ServerIssues(0), Begun(Receiving(0, 0), true))
  {
    hide Window;
    assert [] + [0] == [0];
  }

  lemma LateSteps(validity: int, latency: nat)
    requires Window(validity) > 0
    ensures var w, now := Window(validity), latency + Window(validity) - 1;
            && Leads(validity, Begun(Receiving(0, 0), true), Tick(latency), Waited(latency))
            && Leads(validity, Waited(latency), Stamp(0), Kept(latency, w, latency, map[], {}))
            && Leads(validity, Kept(latency, w, latency, map[], {}), Tick(w - 1), Kept(latency, w, now, map[], {}))
  {
    hide Window;
  }

  lemma SecondSteps(validity: int, latency: nat)
    requires Window(validity) > 0
    ensures var w, now := Window(validity), latency + Window(validity) - 1;
            && Leads(validity, Kept(latency, w, now, map[], {}), Arrive(0),
               Kept(latency, w, now, map[0 := Arriving], {}))
            && Leads(validity, Kept(latency, w, now, map[0 := Arriving], {}), LockForReading(0),
               Kept(latency, w, now, map[0 := Checking], {0}))
            && Leads(validity, Kept(latency, w, now, map[0 := Checking], {0}), Check(0), Late(latency, w))
  {
    hide Window;
  }

  lemma LateIsReachable(validity: int, latency: nat)
    requires Window(validity) > 0
    ensures Reaches(validity, INIT, Late(latency, Window(validity)))
  {
    hide Reaches, Leads, Window, Begun, Waited, Kept, Late;
    var w, now := Window(validity), latency + Window(validity) - 1;
    StartReaches(validity);
    FetchSteps(validity);
    RequestSteps(validity);
    Go(validity, INIT, Arrive(0), Begun(Arriving, false));
    Go(validity, Begun(Arriving, false), LockForReading(0), Begun(Checking, false));
    Go(validity, Begun(Checking, false), Check(0), Begun(Wanting, false));
    Go(validity, Begun(Wanting, false), LockForWriting(0), Begun(Rechecking, true));
    Go(validity, Begun(Rechecking, true), Recheck(0), Begun(Requesting(0), true));
    Go(validity, Begun(Requesting(0), true), ServerIssues(0), Begun(Receiving(0, 0), true));
    LateSteps(validity, latency);
    SecondSteps(validity, latency);
    Go(validity, Begun(Receiving(0, 0), true), Tick(latency), Waited(latency));
    Go(validity, Waited(latency), Stamp(0), Kept(latency, w, latency, map[], {}));
    Go(validity, Kept(latency, w, latency, map[], {}), Tick(w - 1), Kept(latency, w, now, map[], {}));
    Go(validity, Kept(latency, w, now, map[], {}), Arrive(0), Kept(latency, w, now, map[0 := Arriving], {}));
    Go(validity, Kept(latency, w, now, map[0 := Arriving], {}), LockForReading(0),
      Kept(latency, w, now, map[0 := Checking], {0}));
    Go(validity, Kept(latency, w, now, map[0 := Checking], {0}), Check(0), Late(latency, w));
  }

  lemma StartReaches(validity: int)
    ensures Reaches(validity, INIT, INIT)
  {
    hide Enabled, Apply;
    assert Executes(validity, INIT, [], INIT);
  }

  /** Every answer was stamped at most `latency` after its token was issued. */
  ghost predicate Prompt(s: State, latency: int) {
    forall i :: 0 <= i < |s.fetches| ==> s.fetches[i].stamped - s.fetches[i].issued <= latency
  }

  /** Every token served from the cache was still valid at the server. */
  ghost predicate AllValid(validity: int, s: State) {
    forall n :: 0 <= n < |s.handouts| && s.handouts[n].cached && s.handouts[n].fetch < |s.fetches| ==>
      s.handouts[n].at < s.fetches[s.handouts[n].fetch].issued + validity * MINUTE
  }

  ghost predicate NeverStale(validity: int, latency: nat) {
    forall s: State :: Reaches(validity, INIT, s) && Prompt(s, latency) ==> AllValid(validity, s)
  }

  lemma PromptIsValid(validity: int, latency: nat, s: State)
    requires Reaches(validity, INIT, s) && Prompt(s, latency)
    requires latency <= (validity - WindowMinutes(validity)) * MINUTE
    ensures AllValid(validity, s)
  {
    hide Reaches, WindowMinutes;
    forall n | 0 <= n < |s.handouts| && s.handouts[n].cached && s.handouts[n].fetch < |s.fetches|
      ensures s.handouts[n].at < s.fetches[s.handouts[n].fetch].issued + validity * MINUTE
    {
      CachedTokenIsValid(validity, s, n);
    }
  }

  /** Without a window nothing is served from the cache. */
  lemma NoWindowIsValid(validity: int, s: State)
    requires Reaches(validity, INIT, s) && Window(validity) <= 0
    ensures AllValid(validity, s)
  {
    hide Reaches, WindowMinutes;
    forall n | 0 <= n < |s.handouts| ensures !s.handouts[n].cached {
      if s.handouts[n].cached {
        CachedInsideWindow(validity, s, n);
      }
    }
  }

  lemma CachedInsideWindow(validity: int, s: State, n: nat)
    requires Reaches(validity, INIT, s) && n < |s.handouts| && s.handouts[n].cached
    ensures Window(validity) > 0
  {
    hide Reaches, Window, Exclusive, Stored, SentAfter;
    ReachableInv(validity, s);
    assert GoodHandout(validity, s.fetches, s.handouts[n]);
  }

  /**
   * For every validity, tokens from the cache are valid in every execution with answers no slower than
   * `latency` if and only if nothing is cached at all, or `latency` is at most the part of the validity
   * that the window leaves out.
   */
  lemma LatencyBoundIsExact(validity: int, latency: nat)
    ensures NeverStale(validity, latency) <==>
              Window(validity) <= 0 || latency <= (validity - WindowMinutes(validity)) * MINUTE
  {
    hide Reaches, WindowMinutes, Prompt, AllValid;
    if Window(validity) <= 0 {
      forall s: State | Reaches(validity, INIT, s) && Prompt(s, latency) ensures AllValid(validity, s) {
        NoWindowIsValid(validity, s);
      }
    } else if latency <= (validity - WindowMinutes(validity)) * MINUTE {
      forall s: State | Reaches(validity, INIT, s) && Prompt(s, latency) ensures AllValid(validity, s) {
        PromptIsValid(validity, latency, s);
      }
    } else {
      LateIsStale(validity, latency);
    }
  }

  lemma LateIsStale(validity: int, latency: nat)
    requires Window(validity) > 0 && latency > (validity - WindowMinutes(validity)) * MINUTE
    ensures !NeverStale(validity, latency)
  {
    hide Reaches, WindowMinutes;
    LateIsReachable(validity, latency);
    var s := Late(latency, Window(validity));
    assert Prompt(s, latency);
    assert s.handouts[1].cached;
    assert !AllValid(validity, s);
  }
}

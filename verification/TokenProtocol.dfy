/**
 * The token cache (pkg/aqua/auth.go): any number of concurrent GetToken calls over one read-write
 * lock, with a clock and an authorization server that may fail at any request.
 */
module TokenProtocol {
  import opened Wrappers

  /** Time is in nanoseconds. */
  const MINUTE := 60_000_000_000

  /** Nine tenths of the validity, in whole minutes: the conversion to time.Duration truncates toward zero. */
  function WindowMinutes(validity: int): int {
    var ninetyPercent := validity as real * 0.9;
    if validity >= 0 then ninetyPercent.Floor else -((-ninetyPercent).Floor)
  }

  /** How long a token is served from the cache. */
  function Window(validity: int): int {
    WindowMinutes(validity) * MINUTE
  }

  /** A successful request: when it was sent, when the server issued the token, when the answer was stamped. */
  datatype Fetch = Fetch(sent: int, issued: int, stamped: int)

  /** A token handed out: that of fetch `fetch`, from the cache or not, at a time. */
  datatype Handout = Handout(fetch: nat, cached: bool, at: int)

  /** Where a GetToken call is. */
  datatype Call =
    | Arriving
    | Checking                          // holds the lock for reading
    | Wanting
    | Rechecking                        // from here on holds the lock for writing
    | Requesting(sent: int)
    | Receiving(sent: int, issued: int)
  {
    predicate Writes() {
      Rechecking? || Requesting? || Receiving?
    }
  }

  /** `token` names the fetch whose token is stored, None before the first; the last four fields are history. */
  datatype State = State(
    now: int,
    token: Option<nat>,
    expAt: int,
    writer: Option<nat>,
    readers: set<nat>,
    calls: map<nat, Call>,
    fetches: seq<Fetch>,
    handouts: seq<Handout>,
    requests: seq<nat>,
    failures: seq<nat>)

  const INIT := State(0, None, 0, None, {}, map[], [], [], [], [])

  datatype Action =
    | Tick(delay: nat)
    | Arrive(id: nat)
    | LockForReading(id: nat)
    | Check(id: nat)
    | LockForWriting(id: nat)
    | Recheck(id: nat)
    | ServerIssues(id: nat)
    | RequestFails(id: nat)
    | Stamp(id: nat)

  predicate Fresh(s: State) {
    s.token.Some? && s.now < s.expAt
  }

  function Goes(s: State, id: nat, call: Call): State {
    s.(calls := s.calls[id := call])
  }

  function Returns(s: State, id: nat): State {
    s.(calls := s.calls - {id})
  }

  /** The cached token is handed out. */
  function HandsOut(s: State, id: nat): State
    requires s.token.Some?
  {
    Returns(s, id).(handouts := s.handouts + [Handout(s.token.value, true, s.now)])
  }

  function Stamped(s: State, id: nat, window: int): State
    requires id in s.calls && s.calls[id].Receiving?
  {
    var call := s.calls[id];
    Returns(s, id).(token := Some(|s.fetches|), expAt := s.now + window,
                    fetches := s.fetches + [Fetch(call.sent, call.issued, s.now)],
                    handouts := s.handouts + [Handout(|s.fetches|, false, s.now)])
  }

  predicate Enabled(s: State, a: Action) {
    match a
    case Tick(delay) => true
    case Arrive(id) => id !in s.calls
    case LockForReading(id) => id in s.calls && s.calls[id].Arriving? && s.writer.None?
    case Check(id) => id in s.calls && s.calls[id].Checking?
    case LockForWriting(id) => id in s.calls && s.calls[id].Wanting? && s.writer.None? && s.readers == {}
    case Recheck(id) => id in s.calls && s.calls[id].Rechecking?
    case ServerIssues(id) => id in s.calls && s.calls[id].Requesting?
    case RequestFails(id) => id in s.calls && (s.calls[id].Requesting? || s.calls[id].Receiving?)
    case Stamp(id) => id in s.calls && s.calls[id].Receiving?
  }

  function Apply(validity: int, s: State, a: Action): State
    requires Enabled(s, a)
  {
    match a
    case Tick(delay) => s.(now := s.now + delay)
    case Arrive(id) => Goes(s, id, Arriving)
    case LockForReading(id) => Goes(s, id, Checking).(readers := s.readers + {id})
    case Check(id) =>
      var t := s.(readers := s.readers - {id});
      if Fresh(s) then HandsOut(t, id) else Goes(t, id, Wanting)
    case LockForWriting(id) => Goes(s, id, Rechecking).(writer := Some(id))
    case Recheck(id) => if Fresh(s) then HandsOut(s.(writer := None), id)
      else Goes(s, id, Requesting(s.now)).(requests := s.requests + [id])
    case ServerIssues(id) => Goes(s, id, Receiving(s.calls[id].sent, s.now))
    case RequestFails(id) => Returns(s, id).(writer := None, failures := s.failures + [id])
    case Stamp(id) => Stamped(s, id, Window(validity)).(writer := None)
  }

  ghost predicate Executes(validity: int, s: State, actions: seq<Action>, t: State)
    decreases |actions|
  {
    if actions == [] then s == t
    else Enabled(s, actions[0]) && Executes(validity, Apply(validity, s, actions[0]), actions[1..], t)
  }

  ghost predicate Reaches(validity: int, s: State, t: State) {
    exists actions :: Executes(validity, s, actions, t)
  }

  lemma {:induction false} ExecutesAppend(validity: int, s: State, xs: seq<Action>, t: State, ys: seq<Action>, u: State)
    requires Executes(validity, s, xs, t) && Executes(validity, t, ys, u)
    ensures Executes(validity, s, xs + ys, u)
    decreases |xs|
  {
    hide Enabled, Apply;
    if xs == [] {
      assert xs + ys == ys;
    } else {
      assert (xs + ys)[1..] == xs[1..] + ys;
      ExecutesAppend(validity, Apply(validity, s, xs[0]), xs[1..], t, ys, u);
    }
  }

  lemma ReachesStep(validity: int, s: State, t: State, a: Action)
    requires Reaches(validity, s, t) && Enabled(t, a)
    ensures Reaches(validity, s, Apply(validity, t, a))
  {
    hide Enabled, Apply;
    var xs :| Executes(validity, s, xs, t);
    assert Executes(validity, t, [a], Apply(validity, t, a));
    ExecutesAppend(validity, s, xs, t, [a], Apply(validity, t, a));
  }

  // ----- the invariant -----

  /** The lock excludes. */
  ghost predicate Exclusive(s: State) {
    && (forall id :: id in s.calls && s.calls[id].Writes() ==> s.writer == Some(id))
    && (forall id :: id in s.calls && s.calls[id].Checking? ==> id in s.readers)
    && (s.writer.Some? ==> s.readers == {})
  }

  /** What is stored is the last fetch. */
  ghost predicate Stored(validity: int, s: State) {
    && s.token == (if s.fetches == [] then None else Some(|s.fetches| - 1))
    && (s.fetches != [] ==> s.expAt == s.fetches[|s.fetches| - 1].stamped + Window(validity))
  }

  /** A request is sent only after the window of every fetch before it. */
  ghost predicate SentAfter(validity: int, fetches: seq<Fetch>, sent: int) {
    forall i :: 0 <= i < |fetches| ==> fetches[i].stamped <= sent && fetches[i].stamped + Window(validity) <= sent
  }

  ghost predicate Spaced(validity: int, s: State) {
    && (forall i :: 0 <= i < |s.fetches| ==>
          SentAfter(validity, s.fetches[..i], s.fetches[i].sent)
            && s.fetches[i].sent <= s.fetches[i].issued <= s.fetches[i].stamped <= s.now)
    && (forall id :: id in s.calls && s.calls[id].Requesting? ==>
          SentAfter(validity, s.fetches, s.calls[id].sent) && s.calls[id].sent <= s.now)
    && (forall id :: id in s.calls && s.calls[id].Receiving? ==>
          SentAfter(validity, s.fetches, s.calls[id].sent) && s.calls[id].sent <= s.calls[id].issued <= s.now)
  }

  ghost predicate GoodHandout(validity: int, fetches: seq<Fetch>, h: Handout) {
    && h.fetch < |fetches|
    && var stamped := fetches[h.fetch].stamped;
       if h.cached then stamped <= h.at < stamped + Window(validity) else h.at == stamped
  }

  ghost predicate Handouts(validity: int, s: State) {
    forall i :: 0 <= i < |s.handouts| ==> GoodHandout(validity, s.fetches, s.handouts[i])
  }

  ghost predicate Inv(validity: int, s: State) {
    Exclusive(s) && Stored(validity, s) && Spaced(validity, s) && Handouts(validity, s)
  }

  lemma StepKeepsExclusive(validity: int, s: State, a: Action)
    requires Exclusive(s) && Enabled(s, a)
    ensures Exclusive(Apply(validity, s, a))
  {
    hide Window;
  }

  lemma StepKeepsStored(validity: int, s: State, a: Action)
    requires Stored(validity, s) && Enabled(s, a)
    ensures Stored(validity, Apply(validity, s, a))
  {
    hide Window;
  }

  /** The last window covers all earlier ones. */
  lemma SentNow(validity: int, s: State)
    requires Stored(validity, s) && Spaced(validity, s) && !Fresh(s)
    ensures SentAfter(validity, s.fetches, s.now)
  {
    hide Window;
    if s.fetches != [] {
      var n := |s.fetches| - 1;
      forall i | 0 <= i < n ensures s.fetches[i].stamped + Window(validity) <= s.now {
        assert s.fetches[..n][i] == s.fetches[i];
      }
    }
  }

  lemma StepKeepsSpaced(validity: int, s: State, a: Action)
    requires Inv(validity, s) && Enabled(s, a)
    ensures Spaced(validity, Apply(validity, s, a))
  {
    hide Window, Handouts, SentAfter;
    var t := Apply(validity, s, a);
    if a.Recheck? && !Fresh(s) {
      SentNow(validity, s);
    }
    if a.Stamp? {
      assert forall i :: 0 <= i < |s.fetches| ==> t.fetches[..i] == s.fetches[..i];
      assert t.fetches[..|s.fetches|] == s.fetches;
    }
  }

  lemma StepKeepsHandouts(validity: int, s: State, a: Action)
    requires Inv(validity, s) && Enabled(s, a)
    ensures Handouts(validity, Apply(validity, s, a))
  {
    hide Window, SentAfter;
  }

  lemma StepKeeps(validity: int, s: State, a: Action)
    requires Inv(validity, s) && Enabled(s, a)
    ensures Inv(validity, Apply(validity, s, a))
  {
    hide Exclusive, Stored, Spaced, Handouts, Enabled, Apply;
    StepKeepsExclusive(validity, s, a);
    StepKeepsStored(validity, s, a);
    StepKeepsSpaced(validity, s, a);
    StepKeepsHandouts(validity, s, a);
  }

  lemma {:induction false} ExecutionKeeps(validity: int, s: State, actions: seq<Action>, t: State)
    requires Inv(validity, s) && Executes(validity, s, actions, t)
    ensures Inv(validity, t)
    decreases |actions|
  {
    hide Inv, Enabled, Apply;
    if actions == [] {
    } else {
      StepKeeps(validity, s, actions[0]);
      ExecutionKeeps(validity, Apply(validity, s, actions[0]), actions[1..], t);
    }
  }

  lemma ReachableInv(validity: int, s: State)
    requires Reaches(validity, INIT, s)
    ensures Inv(validity, s)
  {
    hide Executes;
    var actions :| Executes(validity, INIT, actions, s);
    ExecutionKeeps(validity, INIT, actions, s);
  }

  // ----- the theorems -----

  /** Successful requests of one manager are separated by at least the cached window, from stamp to sending. */
  lemma RequestsAreSpaced(validity: int, s: State, i: nat, j: nat)
    requires Reaches(validity, INIT, s) && i < j < |s.fetches|
    ensures s.fetches[i].stamped + Window(validity) <= s.fetches[j].sent
  {
    hide Reaches, Window, Exclusive, Stored, Handouts;
    ReachableInv(validity, s);
    assert s.fetches[..j][i] == s.fetches[i];
  }

  /** Every token handed out while the window of a fetch lasts is the token of that fetch. */
  lemma WindowSharesFetch(validity: int, s: State, i: nat, n: nat)
    requires Reaches(validity, INIT, s) && i < |s.fetches| && n < |s.handouts|
    requires s.fetches[i].stamped <= s.handouts[n].at < s.fetches[i].stamped + Window(validity)
    ensures s.handouts[n].fetch == i
  {
    hide Reaches, Window, Exclusive, Stored, SentAfter;
    ReachableInv(validity, s);
    var k := s.handouts[n].fetch;
    assert GoodHandout(validity, s.fetches, s.handouts[n]);
    if k < i {
      RequestsAreSpaced(validity, s, k, i);
    } else if i < k {
      RequestsAreSpaced(validity, s, i, k);
    }
  }

  /** The window in nanoseconds, without reals: nine tenths of the validity rounded toward zero to whole minutes. */
  lemma WindowExactly(validity: int)
    ensures Window(validity) == (if validity >= 0 then 9 * validity / 10 else -(9 * -validity / 10)) * 60_000_000_000
  {
    var v := if validity >= 0 then validity else -validity;
    NineTenths(v);
    assert -(validity as real * 0.9) == (-validity) as real * 0.9;
  }

  lemma NineTenths(v: nat)
    ensures (v as real * 0.9).Floor == 9 * v / 10
  {
    var q := 9 * v / 10;
    assert v as real * 0.9 == (9 * v) as real / 10.0;
    assert q as real <= v as real * 0.9 < (q + 1) as real;
  }

  /** What the window leaves of the validity, for the time between issuing and stamping. */
  lemma WindowLeavesSlack(validity: int)
    requires validity >= 1
    ensures 0 <= WindowMinutes(validity) <= validity - 1
    ensures WindowMinutes(validity) == 9 * validity / 10
  {
    NineTenths(validity);
  }

  /**
   * No token from either cache check has outlived its validity at the server, if the answer was
   * stamped no later after issuing than the tenth that the window leaves out.
   */
  lemma CachedTokenIsValid(validity: int, s: State, n: nat)
    requires Reaches(validity, INIT, s) && n < |s.handouts| && s.handouts[n].cached
    requires var fetch := s.handouts[n].fetch;
             fetch < |s.fetches| ==>
               s.fetches[fetch].stamped - s.fetches[fetch].issued <= (validity - WindowMinutes(validity)) * MINUTE
    ensures var fetch := s.handouts[n].fetch;
            && fetch < |s.fetches|
            && s.fetches[fetch].issued <= s.handouts[n].at < s.fetches[fetch].issued + validity * MINUTE
  {
    hide Reaches, Exclusive, Stored, SentAfter, WindowMinutes;
    ReachableInv(validity, s);
    assert GoodHandout(validity, s.fetches, s.handouts[n]);
  }

  /** In particular for every validity of at least a minute and every latency of at most one. */
  lemma MinuteLatencyIsEnough(validity: int, s: State, n: nat)
    requires validity >= 1
    requires Reaches(validity, INIT, s) && n < |s.handouts| && s.handouts[n].cached
    requires forall i :: 0 <= i < |s.fetches| ==> s.fetches[i].stamped - s.fetches[i].issued <= MINUTE
    ensures var fetch := s.handouts[n].fetch;
            fetch < |s.fetches| && s.handouts[n].at < s.fetches[fetch].issued + validity * MINUTE
  {
    hide Reaches, WindowMinutes;
    WindowLeavesSlack(validity);
    CachedTokenIsValid(validity, s, n);
  }
}

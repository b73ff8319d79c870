/** The phase machine of one ImageScan and its retry backoff (internal/controller/imagescan_controller.go). */
module ScanPhases {
  import opened Wrappers
  import opened Objects

  // ----- backoff -----

  /** time.Duration: nanoseconds in 64 bits. Arithmetic that left the range would not verify. */
  newtype Duration = d: int | -0x8000_0000_0000_0000 <= d < 0x8000_0000_0000_0000

  const SECOND: Duration := 1_000_000_000
  const BASE_BACKOFF: Duration := 30 * SECOND
  const MAX_BACKOFF: Duration := 600 * SECOND

  function Pow2(n: nat): nat {
    if n == 0 then 1 else 2 * Pow2(n - 1)
  }

  /** min(30 s * 2^n, 10 min), and 30 s for a negative count. */
  function Backoff(retryCount: int): int {
    var d := BASE_BACKOFF as int * Pow2(if retryCount < 0 then 0 else retryCount);
    if d > MAX_BACKOFF as int then MAX_BACKOFF as int else d
  }

  lemma {:induction false} Pow2Monotone(m: nat, n: nat)
    requires m <= n
    ensures Pow2(m) <= Pow2(n)
  {
    if m == n {
    } else {
      Pow2Monotone(m, n - 1);
    }
  }

  lemma FirstPowers()
    ensures Pow2(0) == 1 && Pow2(1) == 2 && Pow2(2) == 4 && Pow2(3) == 8 && Pow2(4) == 16 && Pow2(5) == 32
  {
    assert Pow2(3) == 2 * Pow2(2) && Pow2(2) == 2 * Pow2(1);
  }

  /**
   * calculateBackoff: the loop that stops doubling at the cap. `peak` is the largest value the
   * variable ever holds; it stays below 20 minutes, so the doubling cannot overflow.
   */
  method CalculateBackoff(retryCount: int) returns (backoff: Duration, ghost peak: Duration)
    ensures backoff as int == Backoff(retryCount)
    ensures backoff == if retryCount <= 0 then 30_000_000_000 else if retryCount == 1 then 60_000_000_000
                       else if retryCount == 2 then 120_000_000_000 else if retryCount == 3 then 240_000_000_000
                       else if retryCount == 4 then 480_000_000_000 else 600_000_000_000
    ensures backoff <= peak < 1_200_000_000_000
  {
    backoff := BASE_BACKOFF;
    peak := backoff;
    var i := 0;
    while i < retryCount && backoff < MAX_BACKOFF
      invariant 0 <= i && (i <= retryCount || i == 0)
      invariant backoff as int == BASE_BACKOFF as int * Pow2(i)
      invariant backoff <= peak < 1200 * SECOND
      decreases retryCount - i
    {
      backoff := backoff * 2;
      peak := backoff;
      i := i + 1;
    }
    if i < retryCount {
      Pow2Monotone(i, retryCount);
    }
    FirstPowers();
    if 5 <= retryCount {
      Pow2Monotone(5, retryCount);
    }
    if backoff > MAX_BACKOFF {
      backoff := MAX_BACKOFF;
    }
  }

  /** The delay never shrinks as failures accumulate, and stays between 30 seconds and 10 minutes. */
  lemma BackoffMonotone(m: int, n: int)
    requires m <= n
    ensures 30_000_000_000 <= Backoff(m) <= Backoff(n) <= 600_000_000_000
  {
    var m', n' := if m < 0 then 0 else m, if n < 0 then 0 else n;
    Pow2Monotone(0, m');
    Pow2Monotone(m', n');
  }

  // ----- status changes -----

  /** Aqua answered a lookup or a trigger with an error. */
  function FailedStatus(st: Status, message: string): Status {
    st.(phase := Error, message := message, retryCount := st.retryCount + 1)
  }

  function TriggeredStatus(st: Status, scanID: string): Status {
    st.(phase := Pending, aquaScanID := scanID, message := "Scan triggered, waiting for Aqua to process",
      retryCount := 0)
  }

  function RegisteredStatus(st: Status, now: int): Status {
    st.(phase := Registered, lastScanTime := Some(now), completedTime := Some(now),
        message := "Image registered in Aqua", retryCount := 0)
  }

  /** The shape of every reachable status. */
  predicate StatusShape(st: Status) {
    && st.retryCount == (if st.phase.Error? then 1 else 0)
    && st.lastScanTime == st.completedTime
    && (st.completedTime.Some? <==> st.phase.Registered?)
  }

  /** Each status change leads from a non-terminal status of that shape to one of that shape. */
  lemma StatusChangesKeepShape(st: Status, message: string, scanID: string, now: int)
    requires StatusShape(st) && !st.phase.Terminal()
    ensures StatusShape(FailedStatus(st, message)) && FailedStatus(st, message).phase.Terminal()
    ensures StatusShape(TriggeredStatus(st, scanID)) && !TriggeredStatus(st, scanID).phase.Terminal()
    ensures StatusShape(RegisteredStatus(st, now)) && RegisteredStatus(st, now).phase.Terminal()
  {
  }
}

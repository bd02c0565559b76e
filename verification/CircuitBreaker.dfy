/** src/circuit_breaker.cpp: closed, open, half-open. Times are nanoseconds of a monotone
    clock; the recovery timeout is compared in whole milliseconds. */
module CircuitBreakers {

  datatype Config = Config(failureThreshold: nat, recoveryTimeoutMs: nat, halfOpenMaxProbes: nat)
  datatype CircuitState = Closed | Open | HalfOpen
  datatype Breaker = Breaker(state: CircuitState, failures: nat, probes: nat, openedAt: nat)
  datatype Call = Ask | Success | Failure | Reset

  const NEW := Breaker(Closed, 0, 0, 0)

  function Milliseconds(duration: int): int { duration / 1_000_000 }

  predicate Elapsed(cfg: Config, b: Breaker, now: nat) {
    now >= b.openedAt && Milliseconds(now - b.openedAt) >= cfg.recoveryTimeoutMs
  }

  /** One call and, for Ask, whether the request may go ahead. */
  function Step(cfg: Config, b: Breaker, call: Call, now: nat): (Breaker, bool) {
    match call
    case Ask =>
      (match b.state
       case Closed => (b, true)
       case Open =>
         if !Elapsed(cfg, b, now) then (b, false)
         else if cfg.halfOpenMaxProbes > 0 then (b.(state := HalfOpen, probes := cfg.halfOpenMaxProbes - 1), true)
         else (b.(state := HalfOpen, probes := 0), false)
       case HalfOpen => if b.probes > 0 then (b.(probes := b.probes - 1), true) else (b, false))
    case Success =>
      (match b.state
       case Closed => (b.(failures := 0), false)
       case Open => (b, false)
       case HalfOpen => (b.(state := Closed, failures := 0), false))
    case Failure =>
      (match b.state
       case Closed =>
         var counted := b.(failures := b.failures + 1);
         (if counted.failures >= cfg.failureThreshold then counted.(state := Open, openedAt := now) else counted, false)
       case Open => (b, false)
       case HalfOpen => (b.(state := Open, openedAt := now), false))
    case Reset => (b.(state := Closed, failures := 0, probes := 0), false)
  }

  /** A history of calls with the times they were made, oldest first. */
  type History = seq<(Call, nat)>

  ghost predicate Monotone(h: History) {
    forall i, j :: 0 <= i <= j < |h| ==> h[i].1 <= h[j].1
  }

  function After(cfg: Config, h: History): Breaker {
    if h == [] then NEW
    else Step(cfg, After(cfg, h[..|h| - 1]), h[|h| - 1].0, h[|h| - 1].1).0
  }

  /** The answer to call k of a history. */
  predicate Allowed(cfg: Config, h: History, k: nat)
    requires k < |h|
  {
    h[k].0 == Ask && Step(cfg, After(cfg, h[..k]), Ask, h[k].1).1
  }

  function Most(a: nat, b: nat): nat { if a < b then b else a }

  // ---------------------------------------------------------------------------
  // Closed: failures since the last success or reset
  // ---------------------------------------------------------------------------

  function FailuresSinceRelief(h: History): nat {
    if h == [] then 0
    else
      match h[|h| - 1].0
      case Success => 0
      case Reset => 0
      case Failure => FailuresSinceRelief(h[..|h| - 1]) + 1
      case Ask => FailuresSinceRelief(h[..|h| - 1])
  }

  /** While closed, the counter is exactly the number of failures reported since the last
      success or reset, and it is below the threshold. */
  lemma {:induction false} ClosedMeansFewFailures(cfg: Config, h: History)
    ensures After(cfg, h).state == Closed ==>
              && After(cfg, h).failures == FailuresSinceRelief(h)
              && FailuresSinceRelief(h) < Most(1, cfg.failureThreshold)
  {
    if h != [] { ClosedMeansFewFailures(cfg, h[..|h| - 1]); }
  }

  /** It opens exactly when the threshold is met by that failure, or a probe fails. */
  lemma OpensExactlyAtThreshold(cfg: Config, h: History, now: nat)
    ensures var before, after := After(cfg, h), After(cfg, h + [(Failure, now)]);
            before.state != Open ==>
              (after.state == Open <==>
                 before.state == HalfOpen || FailuresSinceRelief(h) + 1 >= cfg.failureThreshold)
  {
    ClosedMeansFewFailures(cfg, h);
    assert (h + [(Failure, now)])[..|h|] == h;
  }

  // ---------------------------------------------------------------------------
  // Open: nothing passes before the timeout
  // ---------------------------------------------------------------------------

  /** Call i opened the breaker. */
  predicate Opens(cfg: Config, h: History, i: nat)
    requires i < |h|
  {
    After(cfg, h[..i]).state != Open && After(cfg, h[..i + 1]).state == Open
  }

  lemma AfterOne(cfg: Config, h: History, k: nat)
    requires k < |h|
    ensures After(cfg, h[..k + 1]) == Step(cfg, After(cfg, h[..k]), h[k].0, h[k].1).0
  {
    assert h[..k + 1][..k] == h[..k];
  }

  lemma {:induction false} StaysOpen(cfg: Config, h: History, i: nat, j: nat)
    requires Monotone(h) && i < j <= |h| && Opens(cfg, h, i)
    requires forall k :: i < k < j ==> h[k].0 != Reset && Milliseconds(h[k].1 - h[i].1) < cfg.recoveryTimeoutMs
    ensures After(cfg, h[..j]).state == Open && After(cfg, h[..j]).openedAt == h[i].1
  {
    hide Step, After, Milliseconds, Monotone, Opens;
    if j == i + 1 {
      OpenedNow(cfg, h, i);
    } else {
      StaysOpen(cfg, h, i, j - 1);
      StillOpen(cfg, h, i, j - 1);
    }
  }

  lemma OpenedNow(cfg: Config, h: History, i: nat)
    requires i < |h| && Opens(cfg, h, i)
    ensures After(cfg, h[..i + 1]).state == Open && After(cfg, h[..i + 1]).openedAt == h[i].1
  {
    hide Step, After;
    AfterOne(cfg, h, i);
    OpeningIsStamped(cfg, After(cfg, h[..i]), h[i].0, h[i].1);
  }

  lemma StillOpen(cfg: Config, h: History, i: nat, j: nat)
    requires Monotone(h) && i < j < |h| && After(cfg, h[..j]).state == Open && After(cfg, h[..j]).openedAt == h[i].1
    requires h[j].0 != Reset && Milliseconds(h[j].1 - h[i].1) < cfg.recoveryTimeoutMs
    ensures After(cfg, h[..j + 1]) == After(cfg, h[..j])
  {
    hide Step, After, Milliseconds, Monotone;
    AfterOne(cfg, h, j);
    OpenIgnores(cfg, After(cfg, h[..j]), h[j].0, h[j].1);
  }

  lemma OpeningIsStamped(cfg: Config, b: Breaker, call: Call, now: nat)
    requires b.state != Open && Step(cfg, b, call, now).0.state == Open
    ensures Step(cfg, b, call, now).0.openedAt == now
  {
  }

  lemma OpenIgnores(cfg: Config, b: Breaker, call: Call, now: nat)
    requires b.state == Open && call != Reset && !Elapsed(cfg, b, now)
    ensures Step(cfg, b, call, now) == (b, false)
  {
  }

  /** Unless reset, nothing is allowed from opening until the timeout has passed. */
  lemma NothingPassesWhileOpen(cfg: Config, h: History, i: nat, j: nat)
    requires Monotone(h) && i < j < |h| && Opens(cfg, h, i)
    requires forall k :: i < k < j ==> h[k].0 != Reset
    requires Milliseconds(h[j].1 - h[i].1) < cfg.recoveryTimeoutMs
    ensures !Allowed(cfg, h, j)
  {
    forall k | i < k < j ensures Milliseconds(h[k].1 - h[i].1) < cfg.recoveryTimeoutMs {
      EarlierIsLess(h[k].1 - h[i].1, h[j].1 - h[i].1);
    }
    StaysOpen(cfg, h, i, j);
  }

  lemma EarlierIsLess(a: int, b: int)
    requires a <= b
    ensures Milliseconds(a) <= Milliseconds(b)
  {
  }

  // ---------------------------------------------------------------------------
  // Half-open: a bounded number of probes per episode
  // ---------------------------------------------------------------------------

  /** Requests allowed since the breaker last became half-open (0 when it is not). */
  function ProbesThisEpisode(cfg: Config, h: History): nat {
    if h == [] then 0
    else
      var n := |h| - 1;
      var before, step := After(cfg, h[..n]), Step(cfg, After(cfg, h[..n]), h[n].0, h[n].1);
      var earlier := if before.state == HalfOpen then ProbesThisEpisode(cfg, h[..n]) else 0;
      if step.0.state != HalfOpen then 0 else earlier + (if h[n].0 == Ask && step.1 then 1 else 0)
  }

  /** Allowed and remaining probes of an episode add up to the configured number. */
  lemma {:induction false} ProbesAreBounded(cfg: Config, h: History)
    ensures After(cfg, h).state == HalfOpen ==>
              ProbesThisEpisode(cfg, h) + After(cfg, h).probes == cfg.halfOpenMaxProbes
    ensures ProbesThisEpisode(cfg, h) <= cfg.halfOpenMaxProbes
  {
    if h != [] { ProbesAreBounded(cfg, h[..|h| - 1]); }
  }

  /** An episode ends only by a recorded outcome or a reset. Once its probes are spent,
      any number of further requests, however late, is refused. */
  lemma {:induction false} SpentProbesBlockForever(cfg: Config, b: Breaker, asks: seq<nat>, now: nat)
    requires b.state == HalfOpen && b.probes == 0
    ensures !Step(cfg, AskAll(cfg, b, asks), Ask, now).1
    ensures AskAll(cfg, b, asks) == b
  {
    if asks != [] { SpentProbesBlockForever(cfg, b, asks[..|asks| - 1], now); }
  }

  function AskAll(cfg: Config, b: Breaker, asks: seq<nat>): Breaker {
    if asks == [] then b else Step(cfg, AskAll(cfg, b, asks[..|asks| - 1]), Ask, asks[|asks| - 1]).0
  }

  /** A request is allowed exactly while closed, or once the timeout since the opening has
      passed if probes are configured, or while half-open with a probe left. */
  lemma AllowedIff(cfg: Config, h: History, k: nat)
    requires k < |h| && h[k].0 == Ask
    ensures var b := After(cfg, h[..k]);
            Allowed(cfg, h, k) <==>
              || b.state == Closed
              || (b.state == Open && h[k].1 >= b.openedAt + 1_000_000 * cfg.recoveryTimeoutMs
                  && cfg.halfOpenMaxProbes > 0)
              || (b.state == HalfOpen && ProbesThisEpisode(cfg, h[..k]) < cfg.halfOpenMaxProbes)
  {
    ProbesAreBounded(cfg, h[..k]);
    ElapsedIff(cfg, After(cfg, h[..k]), h[k].1);
  }

  /** Counting in whole milliseconds delays nothing. */
  lemma ElapsedIff(cfg: Config, b: Breaker, now: nat)
    ensures Elapsed(cfg, b, now) <==> now >= b.openedAt + 1_000_000 * cfg.recoveryTimeoutMs
  {
    if now >= b.openedAt {
      var duration := now - b.openedAt;
      assert duration == 1_000_000 * Milliseconds(duration) + duration % 1_000_000;
    }
  }

  /** The other ways between states: a success or a reset closes, and only the first request
      after the timeout makes an open breaker half-open. */
  lemma ClosesAndProbes(cfg: Config, h: History, call: Call, now: nat)
    ensures var before, after := After(cfg, h), After(cfg, h + [(call, now)]);
            && (before.state != Closed ==>
                  (after.state == Closed <==> call == Reset || (call == Success && before.state == HalfOpen)))
            && (after.state == HalfOpen <==>
                  || (before.state == HalfOpen && call == Ask)
                  || (before.state == Open && call == Ask
                      && now >= before.openedAt + 1_000_000 * cfg.recoveryTimeoutMs))
            && (before.state == Open && after.state == Open ==> after.openedAt == before.openedAt)
            && (before.state != Open && after.state == Open ==> after.openedAt == now)
  {
    assert (h + [(call, now)])[..|h|] == h;
    ElapsedIff(cfg, After(cfg, h), now);
  }

  // ---------------------------------------------------------------------------
  // The object
  // ---------------------------------------------------------------------------

  class CircuitBreaker {
    const cfg: Config
    var state: CircuitState
    var consecutiveFailures: nat
    var probesRemaining: nat
    var openedAt: nat

    ghost function Model(): Breaker
      reads this
    {
      Breaker(state, consecutiveFailures, probesRemaining, openedAt)
    }

    constructor (cfg: Config)
      ensures this.cfg == cfg && Model() == NEW
    {
      this.cfg := cfg;
      state, consecutiveFailures, probesRemaining, openedAt := Closed, 0, 0, 0;
    }

    method ShouldAllowRequest(now: nat) returns (allowed: bool)
      modifies this
      ensures (Model(), allowed) == Step(cfg, old(Model()), Ask, now)
    {
      match state {
        case Closed => allowed := true;
        case Open =>
          allowed := false;
          if now >= openedAt && Milliseconds(now - openedAt) >= cfg.recoveryTimeoutMs {
            state := HalfOpen;
            probesRemaining := cfg.halfOpenMaxProbes;
            if probesRemaining > 0 {
              probesRemaining := probesRemaining - 1;
              allowed := true;
            }
          }
        case HalfOpen =>
          allowed := probesRemaining > 0;
          if allowed {
            probesRemaining := probesRemaining - 1;
          }
      }
    }

    method RecordSuccess(now: nat)
      modifies this
      ensures Model() == Step(cfg, old(Model()), Success, now).0
    {
      match state {
        case Closed => consecutiveFailures := 0;
        case Open =>
        case HalfOpen =>
          state := Closed;
          consecutiveFailures := 0;
      }
    }

    method RecordFailure(now: nat)
      modifies this
      ensures Model() == Step(cfg, old(Model()), Failure, now).0
    {
      match state {
        case Closed =>
          consecutiveFailures := consecutiveFailures + 1;
          if consecutiveFailures >= cfg.failureThreshold {
            state := Open;
            openedAt := now;
          }
        case Open =>
        case HalfOpen =>
          state := Open;
          openedAt := now;
      }
    }

    method ResetBreaker(now: nat)
      modifies this
      ensures Model() == Step(cfg, old(Model()), Reset, now).0
    {
      state := Closed;
      consecutiveFailures := 0;
      probesRemaining := 0;
    }
  }
}

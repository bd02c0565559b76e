/** src/shared_mutex.h: a reader/writer lock from one mutex, one condition variable, a
    reader count and two flags. Threads are program counters; each step is one critical
    section of the internal mutex, one notification, or one wake-up. */
module SharedMutexes {

  /** The three fields. */
  datatype Core = Core(readers: nat, active: bool, waiting: bool)

  predicate WriterMay(c: Core) { c.readers == 0 && !c.active }
  predicate ReaderMay(c: Core) { !c.active && !c.waiting }

  /** A writer waits from its announcement on. `unpassed`: no writer has acquired through
      lock() since that announcement. A sleeping thread needs a notification. */
  datatype Thread =
    | Outside
    | WaitWrite(asleep: bool, unpassed: bool)
    | HoldWrite
    | WaitRead(asleep: bool)
    | HoldRead
    | Notifying       // has released the mutex, has not yet called notify_all

  datatype State = State(core: Core, threads: seq<Thread>)

  datatype Step =
    | Lock(t: nat)            // lock(): announce, then test once
    | RetryLock(t: nat)       // an awake writer tests again
    | Unlock(t: nat)
    | TryLock(t: nat)
    | LockShared(t: nat)
    | RetryLockShared(t: nat)
    | UnlockShared(t: nat)
    | TryLockShared(t: nat)
    | NotifyAll(t: nat)
    | Spurious(t: nat)        // a wake-up without a notification

  predicate Sleeping(th: Thread) { (th.WaitWrite? || th.WaitRead?) && th.asleep }

  ghost predicate Enabled(s: State, step: Step) {
    && step.t < |s.threads|
    && var th := s.threads[step.t];
       match step
       case Lock(_) => th == Outside
       case RetryLock(_) => th.WaitWrite? && !th.asleep
       case Unlock(_) => th == HoldWrite
       case TryLock(_) => th == Outside
       case LockShared(_) => th == Outside
       case RetryLockShared(_) => th.WaitRead? && !th.asleep
       case UnlockShared(_) => th == HoldRead
       case TryLockShared(_) => th == Outside
       case NotifyAll(_) => th == Notifying
       case Spurious(_) => Sleeping(th)
  }

  function Woken(th: Thread): Thread {
    match th
    case WaitWrite(_, unpassed) => WaitWrite(false, unpassed)
    case WaitRead(_) => WaitRead(false)
    case _ => th
  }

  function Stale(th: Thread): Thread {
    if th.WaitWrite? then th.(unpassed := false) else th
  }

  function Map(threads: seq<Thread>, f: Thread -> Thread): (r: seq<Thread>)
    ensures |r| == |threads| && forall t :: 0 <= t < |r| ==> r[t] == f(threads[t])
  {
    seq(|threads|, t requires 0 <= t < |threads| => f(threads[t]))
  }

  /** Acquiring through lock() clears the flag for every writer that had set it. */
  function WriterEnters(s: State, t: nat): State
    requires t < |s.threads|
  {
    State(s.core.(waiting := false, active := true), Map(s.threads, Stale)[t := HoldWrite])
  }

  function ReaderEnters(s: State, t: nat): State
    requires t < |s.threads|
  {
    State(s.core.(readers := s.core.readers + 1), s.threads[t := HoldRead])
  }

  ghost function Apply(s: State, step: Step): State
    requires Enabled(s, step)
  {
    var c, ths, t := s.core, s.threads, step.t;
    match step
    case Lock(_) =>
      if WriterMay(c) then WriterEnters(s, t)
      else State(c.(waiting := true), ths[t := WaitWrite(true, true)])
    case RetryLock(_) =>
      if WriterMay(c) then WriterEnters(s, t) else State(c, ths[t := ths[t].(asleep := true)])
    case Unlock(_) => State(c.(active := false), ths[t := Notifying])
    case TryLock(_) =>
      if WriterMay(c) && !c.waiting then State(c.(active := true), ths[t := HoldWrite]) else s
    case LockShared(_) =>
      if ReaderMay(c) then ReaderEnters(s, t) else State(c, ths[t := WaitRead(true)])
    case RetryLockShared(_) =>
      if ReaderMay(c) then ReaderEnters(s, t) else State(c, ths[t := WaitRead(true)])
    case UnlockShared(_) =>
      State(c.(readers := if c.readers > 0 then c.readers - 1 else 0), ths[t := Notifying])
    case TryLockShared(_) => if ReaderMay(c) then ReaderEnters(s, t) else s
    case NotifyAll(_) => State(c, Map(ths, Woken)[t := Outside])
    case Spurious(_) => State(c, ths[t := Woken(ths[t])])
  }

  // ---------------------------------------------------------------------------
  // Exclusion
  // ---------------------------------------------------------------------------

  /** How many threads are at `what`. */
  function CountOf(threads: seq<Thread>, what: Thread): nat {
    if threads == [] then 0
    else CountOf(threads[..|threads| - 1], what) + (if threads[|threads| - 1] == what then 1 else 0)
  }

  /** The count counts the readers, the flag is set exactly while a writer is inside, and a
      writer is alone. */
  ghost predicate Exclusive(s: State) {
    && s.core.readers == CountOf(s.threads, HoldRead)
    && CountOf(s.threads, HoldWrite) == (if s.core.active then 1 else 0)
    && (s.core.active ==> s.core.readers == 0)
  }

  lemma {:induction false} CountSet(threads: seq<Thread>, t: nat, th: Thread, what: Thread)
    requires t < |threads|
    ensures CountOf(threads[t := th], what)
         == CountOf(threads, what) + (if th == what then 1 else 0) - (if threads[t] == what then 1 else 0)
  {
    var n := |threads| - 1;
    assert threads[t := th][..n] == if t < n then threads[..n][t := th] else threads[..n];
    if t < n { CountSet(threads[..n], t, th, what); }
  }

  lemma {:induction false} CountMapped(before: seq<Thread>, after: seq<Thread>, what: Thread)
    requires |before| == |after| && forall t :: 0 <= t < |before| ==> (before[t] == what <==> after[t] == what)
    ensures CountOf(before, what) == CountOf(after, what)
  {
    if before != [] { CountMapped(before[..|before| - 1], after[..|after| - 1], what); }
  }

  lemma {:induction false} CountZero(threads: seq<Thread>, what: Thread)
    ensures CountOf(threads, what) == 0 <==> forall t :: 0 <= t < |threads| ==> threads[t] != what
  {
    if threads != [] { CountZero(threads[..|threads| - 1], what); }
  }

  lemma StepKeepsExclusive(s: State, step: Step)
    requires Exclusive(s) && Enabled(s, step)
    ensures Exclusive(Apply(s, step))
  {
    hide CountOf;
    var t := step.t;
    var base := if step.NotifyAll? then Map(s.threads, Woken)
                else if (step.Lock? || step.RetryLock?) && WriterMay(s.core) then Map(s.threads, Stale)
                else s.threads;
    CountMapped(s.threads, base, HoldRead);
    CountMapped(s.threads, base, HoldWrite);
    var th := Apply(s, step).threads[t];
    assert Apply(s, step).threads == base[t := th];
    CountSet(base, t, th, HoldRead);
    CountSet(base, t, th, HoldWrite);
    CountZero(s.threads, s.threads[t]);
  }

  // ---------------------------------------------------------------------------
  // The waiting flag and the notifications
  // ---------------------------------------------------------------------------

  ghost predicate UnpassedWriter(s: State) {
    exists t :: 0 <= t < |s.threads| && s.threads[t].WaitWrite? && s.threads[t].unpassed
  }

  ghost predicate Notification(s: State) {
    exists t :: 0 <= t < |s.threads| && s.threads[t] == Notifying
  }

  predicate Ready(c: Core, th: Thread) {
    (th.WaitWrite? && WriterMay(c)) || (th.WaitRead? && ReaderMay(c))
  }

  /** The flag is set iff some writer announced itself and no lock() has succeeded since;
      and a sleeper that could enter has a notification coming. */
  ghost predicate Signalled(s: State) {
    && (s.core.waiting <==> UnpassedWriter(s))
    && ((exists t :: 0 <= t < |s.threads| && Sleeping(s.threads[t]) && Ready(s.core, s.threads[t])) ==> Notification(s))
  }

  lemma FlagKept(s: State, step: Step)
    requires (s.core.waiting <==> UnpassedWriter(s)) && Enabled(s, step)
    ensures Apply(s, step).core.waiting <==> UnpassedWriter(Apply(s, step))
  {
    var after, t := Apply(s, step), step.t;
    if UnpassedWriter(s) {
      var w :| 0 <= w < |s.threads| && s.threads[w].WaitWrite? && s.threads[w].unpassed;
      if after.core.waiting {
        assert after.threads[w].WaitWrite? && after.threads[w].unpassed;
      }
    }
    if after.core.waiting && !s.core.waiting {
      assert after.threads[t].WaitWrite? && after.threads[t].unpassed;
    }
  }

  lemma NoLostWakeup(s: State, step: Step, u: nat)
    requires Exclusive(s) && Signalled(s) && Enabled(s, step) && u < |s.threads|
    requires Sleeping(Apply(s, step).threads[u]) && Ready(Apply(s, step).core, Apply(s, step).threads[u])
    ensures Notification(Apply(s, step))
  {
    hide CountOf;
    var after, t := Apply(s, step), step.t;
    if step.Unlock? || step.UnlockShared? {
      assert after.threads[t] == Notifying;
    } else {
      assert u != t && Sleeping(s.threads[u]) && Ready(s.core, s.threads[u]);
      var n :| 0 <= n < |s.threads| && s.threads[n] == Notifying;
      assert after.threads[n] == Notifying;
    }
  }

  lemma StepKeepsSignalled(s: State, step: Step)
    requires Exclusive(s) && Signalled(s) && Enabled(s, step)
    ensures Signalled(Apply(s, step))
  {
    hide UnpassedWriter, Exclusive, Notification;
    FlagKept(s, step);
    var after := Apply(s, step);
    forall u: nat | u < |after.threads| && Sleeping(after.threads[u]) && Ready(after.core, after.threads[u])
      ensures Notification(after)
    {
      NoLostWakeup(s, step, u);
    }
  }

  // ---------------------------------------------------------------------------
  // Whole runs, for any number of threads
  // ---------------------------------------------------------------------------

  ghost predicate Inv(s: State) { Exclusive(s) && Signalled(s) }

  ghost predicate Initial(s: State) {
    s.core == Core(0, false, false) && forall t :: 0 <= t < |s.threads| ==> s.threads[t] == Outside
  }

  ghost predicate IsRun(steps: seq<Step>, states: seq<State>) {
    && |states| == |steps| + 1 && Initial(states[0])
    && forall k :: 0 <= k < |steps| ==> Enabled(states[k], steps[k]) && states[k + 1] == Apply(states[k], steps[k])
  }

  lemma {:induction false} RunKeepsInv(steps: seq<Step>, states: seq<State>, k: nat)
    requires IsRun(steps, states) && k < |states|
    ensures Inv(states[k])
  {
    if k == 0 {
      CountZero(states[0].threads, HoldRead);
      CountZero(states[0].threads, HoldWrite);
    } else {
      hide Exclusive, Signalled, Apply, Enabled;
      RunKeepsInv(steps, states, k - 1);
      StepKeepsExclusive(states[k - 1], steps[k - 1]);
      StepKeepsSignalled(states[k - 1], steps[k - 1]);
    }
  }

  /** In every reachable state a thread inside as a writer is the only thread inside. */
  lemma WriterIsAlone(steps: seq<Step>, states: seq<State>, k: nat, t: nat, u: nat)
    requires IsRun(steps, states) && k < |states| && t < |states[k].threads| && u < |states[k].threads|
    requires states[k].threads[t] == HoldWrite && t != u
    ensures states[k].threads[u] != HoldWrite && states[k].threads[u] != HoldRead
  {
    RunKeepsInv(steps, states, k);
    var threads := states[k].threads;
    CountZero(threads, HoldRead);
    CountSet(threads, t, Outside, HoldWrite);
    CountZero(threads[t := Outside], HoldWrite);
    assert threads[t := Outside][u] == threads[u];
  }

  /** No deadlock: whenever nobody is inside and somebody waits, some waiter could enter,
      and either it is awake or a notification that wakes it is on its way. */
  lemma SomeWaiterCanProceed(steps: seq<Step>, states: seq<State>, k: nat, t: nat) returns (u: nat, next: Step)
    requires IsRun(steps, states) && k < |states| && t < |states[k].threads|
    requires states[k].threads[t].WaitWrite? || states[k].threads[t].WaitRead?
    requires forall v :: 0 <= v < |states[k].threads| ==>
               states[k].threads[v] != HoldRead && states[k].threads[v] != HoldWrite
    ensures u < |states[k].threads| && Ready(states[k].core, states[k].threads[u])
    ensures Enabled(states[k], next)
    ensures next.NotifyAll? || (next.t == u && (next.RetryLock? || next.RetryLockShared?))
  {
    RunKeepsInv(steps, states, k);
    var s := states[k];
    CountZero(s.threads, HoldRead);
    CountZero(s.threads, HoldWrite);
    u := t;
    if s.threads[t].WaitRead? && s.core.waiting {
      u :| 0 <= u < |s.threads| && s.threads[u].WaitWrite? && s.threads[u].unpassed;
    }
    if Sleeping(s.threads[u]) {
      var n: nat :| n < |s.threads| && s.threads[n] == Notifying;
      next := NotifyAll(n);
    } else {
      next := if s.threads[u].WaitWrite? then RetryLock(u) else RetryLockShared(u);
    }
  }

  // ---------------------------------------------------------------------------
  // Writer priority
  // ---------------------------------------------------------------------------

  /** A reader gets in at this step. */
  ghost predicate ReaderGetsIn(s: State, step: Step)
    requires Enabled(s, step)
  {
    Apply(s, step).core.readers > s.core.readers
  }

  /** In every reachable state a reader asking for the lock gets it exactly when no writer
      is inside and no writer has been waiting since before the last lock() succeeded. In
      particular a lone waiting writer is never overtaken. */
  lemma ReadersYieldToUnpassedWriters(steps: seq<Step>, states: seq<State>, k: nat, step: Step)
    requires IsRun(steps, states) && k < |states| && Enabled(states[k], step)
    requires step.LockShared? || step.RetryLockShared? || step.TryLockShared?
    ensures ReaderGetsIn(states[k], step) <==> !states[k].core.active && !UnpassedWriter(states[k])
  {
    RunKeepsInv(steps, states, k);
  }

  ghost predicate NobodyInside(s: State) {
    forall t :: 0 <= t < |s.threads| ==> s.threads[t] != HoldRead && s.threads[t] != HoldWrite
  }

  /** In every reachable state a writer asking for the lock gets it exactly when nobody is
      inside; try_lock() also needs that no unpassed writer waits. */
  lemma WritersGetInIff(steps: seq<Step>, states: seq<State>, k: nat, step: Step)
    requires IsRun(steps, states) && k < |states| && Enabled(states[k], step)
    requires step.Lock? || step.RetryLock? || step.TryLock?
    ensures Apply(states[k], step).threads[step.t] == HoldWrite <==>
              NobodyInside(states[k]) && (step.TryLock? ==> !UnpassedWriter(states[k]))
  {
    RunKeepsInv(steps, states, k);
    hide CountOf;
    CountZero(states[k].threads, HoldRead);
    CountZero(states[k].threads, HoldWrite);
    assert WriterMay(states[k].core) <==> NobodyInside(states[k]);
  }

  /** Whoever leaves is no longer inside, and a thread that does not act stays where it is,
      but for being woken or passed. */
  lemma LeavingLeaves(s: State, step: Step, u: nat)
    requires Enabled(s, step) && u < |s.threads|
    ensures step.Unlock? || step.UnlockShared? ==> Apply(s, step).threads[step.t] == Notifying
    ensures u != step.t ==>
              var before, after := s.threads[u], Apply(s, step).threads[u];
              && (before.WaitWrite? <==> after.WaitWrite?) && (before.WaitRead? <==> after.WaitRead?)
              && (!before.WaitWrite? && !before.WaitRead? ==> after == before)
  {
  }

  /** Another writer gets in through lock() at this step. */
  predicate PassedBy(s: State, step: Step, w: nat) {
    (step.Lock? || step.RetryLock?) && step.t != w && WriterMay(s.core)
  }

  /** Only that ends a waiting writer's claim: other writers may announce and test in vain. */
  lemma ClaimEndsOnlyByPassing(s: State, step: Step, w: nat)
    requires Enabled(s, step) && w < |s.threads| && s.threads[w].WaitWrite? && s.threads[w].unpassed
    ensures var after := Apply(s, step).threads[w];
            (after == HoldWrite || (after.WaitWrite? && after.unpassed)) <==> !PassedBy(s, step, w)
  {
  }

  lemma OnlySharedLetsIn(s: State, step: Step)
    requires Enabled(s, step) && !step.LockShared? && !step.RetryLockShared? && !step.TryLockShared?
    ensures !ReaderGetsIn(s, step)
  {
  }

  /** Over any stretch of a run in which a writer waits and no other writer gets in, no
      reader gets in either: the readers inside only leave. */
  lemma {:induction false} WaitingWriterIsNotOvertaken(steps: seq<Step>, states: seq<State>, i: nat, j: nat, w: nat)
    requires IsRun(steps, states) && i <= j < |states| && w < |states[i].threads|
    requires states[i].threads[w].WaitWrite? && states[i].threads[w].unpassed
    requires forall k :: i <= k < j ==> !PassedBy(states[k], steps[k], w)
    requires forall k :: i <= k <= j ==> w < |states[k].threads| && states[k].threads[w] != HoldWrite
    ensures states[j].threads[w].WaitWrite? && states[j].threads[w].unpassed
    ensures states[j].core.readers <= states[i].core.readers
  {
    if i < j {
      hide Apply, Enabled, Initial, PassedBy;
      WaitingWriterIsNotOvertaken(steps, states, i, j - 1, w);
      ReadersOnlyLeave(steps, states, j - 1, w);
    }
  }

  lemma ReadersOnlyLeave(steps: seq<Step>, states: seq<State>, k: nat, w: nat)
    requires IsRun(steps, states) && k < |steps| && w < |states[k].threads|
    requires states[k].threads[w].WaitWrite? && states[k].threads[w].unpassed && !PassedBy(states[k], steps[k], w)
    requires w < |states[k + 1].threads| && states[k + 1].threads[w] != HoldWrite
    ensures states[k + 1].threads[w].WaitWrite? && states[k + 1].threads[w].unpassed
    ensures states[k + 1].core.readers <= states[k].core.readers
  {
    hide Apply, Enabled, Initial, PassedBy;
    var s, step := states[k], steps[k];
    ClaimEndsOnlyByPassing(s, step, w);
    if step.LockShared? || step.RetryLockShared? || step.TryLockShared? {
      ReadersYieldToUnpassedWriters(steps, states, k, step);
    } else {
      OnlySharedLetsIn(s, step);
    }
  }

  /** With two waiting writers priority fails: the first to get in clears the flag, and
      once it has left a reader enters while the second still waits. */
  lemma SecondWriterIsOvertaken() returns (steps: seq<Step>, states: seq<State>)
    ensures IsRun(steps, states) && |steps| >= 1
    ensures var s := states[|steps| - 1];
            steps[|steps| - 1] == LockShared(3) && s.threads[2].WaitWrite? && ReaderGetsIn(s, steps[|steps| - 1])
  {
    var w, free := WaitWrite(true, true), Core(0, false, false);
    var s0 := State(free, [Outside, Outside, Outside, Outside]);
    var s3 := State(Core(0, true, true), [HoldWrite, w, w, Outside]);
    var s5 := State(Core(0, false, true), [Outside, WaitWrite(false, true), WaitWrite(false, true), Outside]);
    var s1, s2 := TwoWritersWait(s0, s3);
    var s4 := FirstLeaves(s3, s5);
    var s6, s7, s8 := SecondThenReader(s5);
    steps := [Lock(0), Lock(1), Lock(2), Unlock(0), NotifyAll(0), RetryLock(1), Unlock(1), LockShared(3)];
    states := [s0, s1, s2, s3, s4, s5, s6, s7, s8];
    hide Apply, Enabled;
  }

  lemma TwoWritersWait(s0: State, s3: State) returns (s1: State, s2: State)
    requires s0 == State(Core(0, false, false), [Outside, Outside, Outside, Outside])
    requires s3 == State(Core(0, true, true), [HoldWrite, WaitWrite(true, true), WaitWrite(true, true), Outside])
    ensures Enabled(s0, Lock(0)) && Apply(s0, Lock(0)) == s1
    ensures Enabled(s1, Lock(1)) && Apply(s1, Lock(1)) == s2
    ensures Enabled(s2, Lock(2)) && Apply(s2, Lock(2)) == s3
  {
    s1 := State(Core(0, true, false), [HoldWrite, Outside, Outside, Outside]);
    s2 := State(Core(0, true, true), [HoldWrite, WaitWrite(true, true), Outside, Outside]);
    assert Apply(s0, Lock(0)).threads == s1.threads;
    assert Apply(s1, Lock(1)).threads == s2.threads;
    assert Apply(s2, Lock(2)).threads == s3.threads;
  }

  lemma FirstLeaves(s3: State, s5: State) returns (s4: State)
    requires s3 == State(Core(0, true, true), [HoldWrite, WaitWrite(true, true), WaitWrite(true, true), Outside])
    requires s5 == State(Core(0, false, true), [Outside, WaitWrite(false, true), WaitWrite(false, true), Outside])
    ensures Enabled(s3, Unlock(0)) && Apply(s3, Unlock(0)) == s4
    ensures Enabled(s4, NotifyAll(0)) && Apply(s4, NotifyAll(0)) == s5
  {
    s4 := State(Core(0, false, true), [Notifying, WaitWrite(true, true), WaitWrite(true, true), Outside]);
    assert Apply(s3, Unlock(0)).threads == s4.threads;
    assert Apply(s4, NotifyAll(0)).threads == s5.threads;
  }

  lemma SecondThenReader(s5: State) returns (s6: State, s7: State, s8: State)
    requires s5 == State(Core(0, false, true), [Outside, WaitWrite(false, true), WaitWrite(false, true), Outside])
    ensures Enabled(s5, RetryLock(1)) && Apply(s5, RetryLock(1)) == s6
    ensures Enabled(s6, Unlock(1)) && Apply(s6, Unlock(1)) == s7
    ensures Enabled(s7, LockShared(3)) && Apply(s7, LockShared(3)) == s8
    ensures |s7.threads| == 4 && s7.threads[2].WaitWrite? && ReaderGetsIn(s7, LockShared(3))
  {
    s6 := State(Core(0, true, false), [Outside, HoldWrite, WaitWrite(false, false), Outside]);
    s7 := State(Core(0, false, false), [Outside, Notifying, WaitWrite(false, false), Outside]);
    s8 := State(Core(1, false, false), [Outside, Notifying, WaitWrite(false, false), HoldRead]);
    assert Apply(s5, RetryLock(1)).threads == s6.threads;
    assert Apply(s6, Unlock(1)).threads == s7.threads;
    assert Apply(s7, LockShared(3)).threads == s8.threads;
  }

  // ---------------------------------------------------------------------------
  // The object
  // ---------------------------------------------------------------------------

  /** The critical sections. Waiting is the caller's loop: a false answer means it sleeps
      on the condition variable and calls Retry when woken. */
  class SharedMutex {
    var readers: nat
    var active: bool
    var waiting: bool

    ghost function Model(): Core
      reads this
    {
      Core(readers, active, waiting)
    }

    constructor ()
      ensures Model() == Core(0, false, false)
    {
      readers, active, waiting := 0, false, false;
    }

    method AnnounceAndTryEnter(ghost s: State, ghost t: nat) returns (entered: bool)
      requires Enabled(s, Step.Lock(t)) && s.core == Model()
      modifies this
      ensures Model() == Apply(s, Step.Lock(t)).core
      ensures entered <==> Apply(s, Step.Lock(t)).threads[t] == HoldWrite
    {
      waiting := true;
      entered := RetryEnter(State(Core(readers, active, waiting), s.threads[t := WaitWrite(false, true)]), t);
    }

    method RetryEnter(ghost s: State, ghost t: nat) returns (entered: bool)
      requires Enabled(s, RetryLock(t)) && s.core == Model()
      modifies this
      ensures Model() == Apply(s, RetryLock(t)).core
      ensures entered <==> Apply(s, RetryLock(t)).threads[t] == HoldWrite
    {
      entered := readers == 0 && !active;
      if entered {
        waiting := false;
        active := true;
      }
    }

    method Release(ghost s: State, ghost t: nat)
      requires Enabled(s, Step.Unlock(t)) && s.core == Model()
      modifies this
      ensures Model() == Apply(s, Step.Unlock(t)).core
    {
      active := false;
    }

    method TryEnter(ghost s: State, ghost t: nat) returns (entered: bool)
      requires Enabled(s, Step.TryLock(t)) && s.core == Model()
      modifies this
      ensures Model() == Apply(s, Step.TryLock(t)).core
      ensures entered <==> Apply(s, Step.TryLock(t)).threads[t] == HoldWrite
    {
      entered := readers == 0 && !active && !waiting;
      if entered {
        active := true;
      }
    }

    /** Serves lock_shared(), its retries, and try_lock_shared(). */
    method TryEnterShared(ghost s: State, ghost step: Step) returns (entered: bool)
      requires Enabled(s, step) && s.core == Model()
      requires step.LockShared? || step.RetryLockShared? || step.TryLockShared?
      modifies this
      ensures Model() == Apply(s, step).core
      ensures entered <==> Apply(s, step).threads[step.t] == HoldRead
    {
      entered := !active && !waiting;
      if entered {
        readers := readers + 1;
      }
    }

    /** The count never underflows: a reader inside is counted. */
    method ReleaseShared(ghost s: State, ghost t: nat)
      requires Enabled(s, Step.UnlockShared(t)) && Inv(s) && s.core == Model()
      modifies this
      ensures Model() == Apply(s, Step.UnlockShared(t)).core
    {
      CountZero(s.threads, HoldRead);
      readers := readers - 1;
    }
  }
}

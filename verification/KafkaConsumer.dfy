/** src/kafka_message_broker.cpp, `consumer_loop`: one thread polls messages of several
    partition logs, retries each until its handler accepts it, and only then commits the
    offset after it. Commits are asynchronous: each may arrive late, in any order, or never. */
module KafkaConsumers {
  import opened Wrappers

  /** A position in a log: partition and offset. */
  type Place = (nat, nat)

  datatype Consumer = Consumer(
    running: bool,               // false once stop() is noticed
    position: seq<nat>,          // per partition, the offset the next poll returns
    inHand: Option<Place>,       // the message being handled
    sent: set<Place>,            // commits on their way: everything below the offset is done
    committed: seq<nat>,         // per partition, what a restart resumes from
    accepted: set<Place>)        // history: messages whose handler returned true

  datatype Step =
    | Poll(p: nat)
    | Handle(ok: bool)
    | Stop
    | Drop                       // stop noticed between two tries
    | DrainPoll(p: nat)          // the loop after the loop: polls, but handles nothing
    | CommitArrives(c: Place)
    | CommitLost(c: Place)
    | Rebalance(late: set<Place>) // partitions are taken away and given back
    | Restart(late: set<Place>)   // after a crash or a shutdown

  /** `handles(p)`: the topic of partition p has a handler. */
  ghost predicate Enabled(handles: nat -> bool, ends: seq<nat>, c: Consumer, step: Step) {
    match step
    case Poll(p) => c.running && c.inHand.None? && p < |c.position| && p < |ends| && c.position[p] < ends[p]
    case Handle(ok) => c.inHand.Some?
    case Stop => c.running
    case Drop => !c.running && c.inHand.Some?
    case DrainPoll(p) => !c.running && c.inHand.None? && p < |c.position| && p < |ends| && c.position[p] < ends[p]
    case CommitArrives(o) => o in c.sent && o.0 < |c.committed|
    case CommitLost(o) => o in c.sent
    // `late`: commits sent before that may still arrive
    case Rebalance(late) => c.running && c.inHand.None? && late <= c.sent
    case Restart(late) => late <= c.sent
  }

  ghost function Apply(handles: nat -> bool, ends: seq<nat>, c: Consumer, step: Step): Consumer
    requires Enabled(handles, ends, c, step)
  {
    match step
    case Poll(p) =>
      // without a handler the message is skipped and never committed
      c.(position := c.position[p := c.position[p] + 1],
         inHand := if handles(p) then Some((p, c.position[p])) else None)
    case Handle(ok) =>
      var m := c.inHand.value;
      if ok then c.(inHand := None, sent := c.sent + {(m.0, m.1 + 1)}, accepted := c.accepted + {m})
      else if c.running then c
      else c.(inHand := None)
    case Stop => c.(running := false)
    case Drop => c.(inHand := None)
    case DrainPoll(p) => c.(position := c.position[p := c.position[p] + 1])
    case CommitArrives(o) => c.(sent := c.sent - {o}, committed := c.committed[o.0 := o.1])
    case CommitLost(o) => c.(sent := c.sent - {o})
    case Rebalance(late) => c.(position := c.committed, sent := late)
    case Restart(late) => c.(running := true, position := c.committed, inHand := None, sent := late)
  }

  ghost predicate DoneBelow(c: Consumer, p: nat, offset: nat) {
    forall q: nat :: q < offset ==> (p, q) in c.accepted
  }

  /** Whatever is or may become committed is done; and while the loop is at work,
      everything polled is done except the message in hand. */
  ghost predicate Inv(handles: nat -> bool, c: Consumer) {
    && |c.committed| == |c.position|
    && (forall p :: 0 <= p < |c.committed| ==> DoneBelow(c, p, c.committed[p]))
    && (forall o: Place :: o in c.sent ==> o.0 < |c.position| && DoneBelow(c, o.0, o.1))
    && (c.inHand.Some? ==>
          var m := c.inHand.value;
          m.0 < |c.position| && m.1 + 1 == c.position[m.0] && handles(m.0) && DoneBelow(c, m.0, m.1))
    && (c.running || c.inHand.Some? ==>
          forall p :: 0 <= p < |c.position| && handles(p) && !(c.inHand.Some? && c.inHand.value.0 == p) ==>
            DoneBelow(c, p, c.position[p]))
  }

  lemma DoneOneMore(c: Consumer, after: Consumer, p: nat, offset: nat)
    requires DoneBelow(c, p, offset) && c.accepted <= after.accepted
    ensures DoneBelow(after, p, offset)
    ensures (p, offset) in after.accepted ==> DoneBelow(after, p, offset + 1)
  {
  }

  lemma StepKeepsInv(handles: nat -> bool, ends: seq<nat>, c: Consumer, step: Step)
    requires Inv(handles, c) && Enabled(handles, ends, c, step)
    ensures Inv(handles, Apply(handles, ends, c, step))
  {
    var after := Apply(handles, ends, c, step);
    match step
    case Handle(ok) =>
      var m := c.inHand.value;
      DoneOneMore(c, after, m.0, m.1);
      forall p: nat, o: nat | DoneBelow(c, p, o) ensures DoneBelow(after, p, o) {
        DoneOneMore(c, after, p, o);
      }
    case Poll(p) =>
      forall q: nat, o: nat | DoneBelow(c, q, o) ensures DoneBelow(after, q, o) {
        DoneOneMore(c, after, q, o);
      }
    case _ =>
      forall q: nat, o: nat | DoneBelow(c, q, o) ensures DoneBelow(after, q, o) {
        DoneOneMore(c, after, q, o);
      }
  }

  ghost predicate Fresh(c: Consumer) {
    && c.running && c.inHand.None? && c.sent == {} && c.accepted == {} && |c.position| == |c.committed|
    && forall p :: 0 <= p < |c.position| ==> c.position[p] == 0 && c.committed[p] == 0
  }

  /** `ends[k]` is how far each log reaches when step k is taken. */
  ghost predicate IsPath(handles: nat -> bool, ends: seq<seq<nat>>, steps: seq<Step>, states: seq<Consumer>) {
    && |states| == |steps| + 1 && |ends| == |steps|
    && forall k :: 0 <= k < |steps| ==>
         && Enabled(handles, ends[k], states[k], steps[k])
         && states[k + 1] == Apply(handles, ends[k], states[k], steps[k])
  }

  ghost predicate IsRun(handles: nat -> bool, ends: seq<seq<nat>>, steps: seq<Step>, states: seq<Consumer>) {
    IsPath(handles, ends, steps, states) && Fresh(states[0])
  }

  lemma {:induction false} RunKeepsInv(handles: nat -> bool, ends: seq<seq<nat>>, steps: seq<Step>,
                                       states: seq<Consumer>, k: nat)
    requires IsRun(handles, ends, steps, states) && k < |states|
    ensures Inv(handles, states[k])
  {
    hide Inv, Apply, Enabled;
    if k == 0 {
      FreshInv(handles, states[0]);
    } else {
      RunKeepsInv(handles, ends, steps, states, k - 1);
      StepKeepsInv(handles, ends[k - 1], states[k - 1], steps[k - 1]);
    }
  }

  lemma FreshInv(handles: nat -> bool, c: Consumer)
    requires Fresh(c)
    ensures Inv(handles, c)
  {
  }

  /** The history is no more than it says: a message is accepted exactly when its handler
      has returned true with the message in hand. */
  lemma {:induction false} AcceptedMeansHandled(handles: nat -> bool, ends: seq<seq<nat>>, steps: seq<Step>,
                                                states: seq<Consumer>, k: nat, m: Place)
    requires IsRun(handles, ends, steps, states) && k < |states|
    ensures m in states[k].accepted <==>
              exists i :: 0 <= i < k && steps[i] == Handle(true) && states[i].inHand == Some(m)
  {
    if k > 0 {
      AcceptedMeansHandled(handles, ends, steps, states, k - 1, m);
      assert Enabled(handles, ends[k - 1], states[k - 1], steps[k - 1]);
    }
  }

  /** For every handler outcome, crash, rebalance and commit schedule, no committed offset
      ever passes a message whose handler has not returned true. */
  lemma CommitsNeverPassUnhandled(handles: nat -> bool, ends: seq<seq<nat>>, steps: seq<Step>,
                                  states: seq<Consumer>, k: nat, p: nat, q: nat)
    requires IsRun(handles, ends, steps, states) && k < |states|
    requires p < |states[k].committed| && q < states[k].committed[p]
    ensures (p, q) in states[k].accepted
  {
    RunKeepsInv(handles, ends, steps, states, k);
    assert DoneBelow(states[k], p, states[k].committed[p]);
  }

  /** A handled partition is handled in offset order without gaps: when the loop polls a
      message, every earlier one has been accepted. */
  lemma PolledInOrder(handles: nat -> bool, ends: seq<seq<nat>>, steps: seq<Step>, states: seq<Consumer>,
                      k: nat, q: nat)
    requires IsRun(handles, ends, steps, states) && k < |steps| && steps[k].Poll? && handles(steps[k].p)
    requires q < states[k].position[steps[k].p]
    ensures (steps[k].p, q) in states[k].accepted
    ensures states[k + 1].inHand == Some((steps[k].p, states[k].position[steps[k].p]))
  {
    RunKeepsInv(handles, ends, steps, states, k);
    assert DoneBelow(states[k], steps[k].p, states[k].position[steps[k].p]);
  }

  // ---------------------------------------------------------------------------
  // After a stop
  // ---------------------------------------------------------------------------

  function InHandOf(c: Consumer): set<Place> {
    if c.inHand.Some? then {c.inHand.value} else {}
  }

  /** From the moment a stop is noticed until the next restart, at most the message in hand
      is still accepted or committed, however much the loop after the loop polls. */
  lemma {:induction false} AtMostTheOneInHand(handles: nat -> bool, ends: seq<seq<nat>>, steps: seq<Step>,
                                              states: seq<Consumer>, k: nat)
    requires IsPath(handles, ends, steps, states) && !states[0].running && k < |states|
    requires forall j :: 0 <= j < |steps| ==> !steps[j].Restart?
    ensures !states[k].running && InHandOf(states[k]) <= InHandOf(states[0])
    ensures states[k].accepted <= states[0].accepted + InHandOf(states[0])
    ensures forall o :: o in states[k].sent ==>
              o in states[0].sent || (states[0].inHand.Some? && o == CommitFor(states[0].inHand.value))
  {
    if k > 0 {
      AtMostTheOneInHand(handles, ends, steps, states, k - 1);
    }
  }

  function CommitFor(m: Place): Place { (m.0, m.1 + 1) }

  /** So a message polled by that loop is not handled before the next restart. */
  lemma DrainedIsNotHandled(handles: nat -> bool, ends: seq<seq<nat>>, steps: seq<Step>, states: seq<Consumer>, k: nat)
    requires IsPath(handles, ends, steps, states) && !states[0].running && 0 < k < |states|
    requires forall j :: 0 <= j < |steps| ==> !steps[j].Restart?
    requires steps[0].DrainPoll? && (steps[0].p, states[0].position[steps[0].p]) !in states[0].accepted
    ensures states[1].position[steps[0].p] == states[0].position[steps[0].p] + 1
    ensures (steps[0].p, states[0].position[steps[0].p]) !in states[k].accepted
  {
    AtMostTheOneInHand(handles, ends, steps, states, k);
  }

  /** A run in which it happens: a stop, then the one message of the log is polled. */
  lemma StoppedLoopSkips(handles: nat -> bool) returns (ends: seq<seq<nat>>, steps: seq<Step>, states: seq<Consumer>)
    ensures IsRun(handles, ends, steps, states) && steps == [Stop, DrainPoll(0)] && ends == [[1], [1]]
    ensures states[2].position == [1] && states[2].accepted == {} && states[2].sent == {}
  {
    var c := Consumer(true, [0], None, {}, [0], {});
    ends, steps := [[1], [1]], [Stop, DrainPoll(0)];
    states := [c, c.(running := false), c.(running := false, position := [1])];
  }

  // ---------------------------------------------------------------------------
  // After a rebalance or a restart
  // ---------------------------------------------------------------------------

  /** No commit passes the message, none on its way will, and the loop has it before it
      or in hand. */
  ghost predicate StillToHandle(handles: nat -> bool, c: Consumer, m: Place) {
    && m.0 < |c.committed| == |c.position| && c.committed[m.0] <= m.1
    && (forall o: Place :: o in c.sent && o.0 == m.0 ==> o.1 <= m.1)
    && (c.inHand.Some? && c.inHand.value.0 == m.0 ==> c.inHand.value.1 <= m.1)
    && (c.running && handles(m.0) ==> c.position[m.0] <= m.1 || c.inHand == Some(m))
  }

  ghost predicate PolledIn(steps: seq<Step>, states: seq<Consumer>, from: nat, to: nat, m: Place)
    requires to <= |steps| < |states|
  {
    exists i :: from <= i < to && steps[i] == Poll(m.0)
                && m.0 < |states[i].position| && states[i].position[m.0] == m.1
  }

  ghost predicate AcceptedIn(steps: seq<Step>, states: seq<Consumer>, from: nat, to: nat, m: Place)
    requires to <= |steps| < |states|
  {
    exists i :: from <= i < to && steps[i] == Handle(true) && states[i].inHand == Some(m)
                && PolledIn(steps, states, from, i, m)
  }

  lemma StepStillToHandle(handles: nat -> bool, ends: seq<nat>, c: Consumer, step: Step, m: Place)
    requires Inv(handles, c) && Enabled(handles, ends, c, step) && StillToHandle(handles, c, m)
    requires !(step == Handle(true) && c.inHand == Some(m))
    ensures StillToHandle(handles, Apply(handles, ends, c, step), m)
    ensures Apply(handles, ends, c, step).inHand == Some(m) ==>
              c.inHand == Some(m) || (step == Poll(m.0) && c.position[m.0] == m.1)
  {
    hide DoneBelow;
  }

  lemma ReturnedIsStillToHandle(handles: nat -> bool, ends: seq<nat>, c: Consumer, step: Step, m: Place)
    requires Inv(handles, c) && Enabled(handles, ends, c, step) && (step.Rebalance? || step.Restart?)
    requires m.0 < |c.committed| && c.committed[m.0] <= m.1
    requires forall o: Place :: o in step.late && o.0 == m.0 ==> o.1 <= m.1
    ensures StillToHandle(handles, Apply(handles, ends, c, step), m)
    ensures Apply(handles, ends, c, step).inHand.None?
  {
    hide DoneBelow;
  }

  lemma {:induction false} StillToHandleUntilAccepted(handles: nat -> bool, ends: seq<seq<nat>>, steps: seq<Step>,
                                                      states: seq<Consumer>, k: nat, n: nat, m: Place)
    requires IsRun(handles, ends, steps, states) && k < n < |states|
    requires StillToHandle(handles, states[k + 1], m) && states[k + 1].inHand.None?
    ensures AcceptedIn(steps, states, k + 1, n, m) ||
            (StillToHandle(handles, states[n], m) &&
             (states[n].inHand == Some(m) ==> PolledIn(steps, states, k + 1, n, m)))
  {
    if n > k + 1 {
      hide Inv, Enabled, Apply, StillToHandle;
      StillToHandleUntilAccepted(handles, ends, steps, states, k, n - 1, m);
      RunKeepsInv(handles, ends, steps, states, n - 1);
      if !AcceptedIn(steps, states, k + 1, n, m) {
        StillThere(handles, states[n - 1], m);
        StepStillToHandle(handles, ends[n - 1], states[n - 1], steps[n - 1], m);
      }
    }
  }

  lemma StillThere(handles: nat -> bool, c: Consumer, m: Place)
    requires StillToHandle(handles, c, m)
    ensures m.0 < |c.position| && m.0 < |c.committed| && c.committed[m.0] <= m.1
  {
  }

  /** Taking partitions away commits nothing, and neither does a restart. So every message
      at or past the committed offset, also one accepted before, is polled again and
      accepted again before the committed offset passes it, unless a commit that was
      already on its way then does. */
  lemma RevokedIsHandledAgain(handles: nat -> bool, ends: seq<seq<nat>>, steps: seq<Step>, states: seq<Consumer>,
                              k: nat, n: nat, m: Place)
    requires IsRun(handles, ends, steps, states) && k < n < |states|
    requires steps[k].Rebalance? || steps[k].Restart?
    requires m.0 < |states[k].committed| && states[k].committed[m.0] <= m.1
    requires forall o: Place :: o in steps[k].late && o.0 == m.0 ==> o.1 <= m.1
    requires m.0 < |states[n].committed| && states[n].committed[m.0] > m.1
    ensures AcceptedIn(steps, states, k + 1, n, m)
  {
    hide Inv, Enabled, Apply, StillToHandle;
    RunKeepsInv(handles, ends, steps, states, k);
    ReturnedIsStillToHandle(handles, ends[k], states[k], steps[k], m);
    StillToHandleUntilAccepted(handles, ends, steps, states, k, n, m);
    if StillToHandle(handles, states[n], m) { StillThere(handles, states[n], m); }
  }

  /** A run in which an accepted message is in hand again, since its commit was not made
      before the partition was taken away. */
  lemma RevocationRepeats() returns (ends: seq<seq<nat>>, steps: seq<Step>, states: seq<Consumer>)
    ensures IsRun(p => true, ends, steps, states) && ends == [[1], [1], [1], [1]]
    ensures steps == [Poll(0), Handle(true), Rebalance({}), Poll(0)]
    ensures states[2].accepted == {(0, 0)} && states[3].committed == [0] && states[4].inHand == Some((0, 0))
  {
    var c := Consumer(true, [0], None, {}, [0], {});
    ends, steps := [[1], [1], [1], [1]], [Poll(0), Handle(true), Rebalance({}), Poll(0)];
    var c1 := c.(position := [1], inHand := Some((0, 0)));
    var c2 := c1.(inHand := None, sent := {(0, 1)}, accepted := {(0, 0)});
    var c3 := c2.(position := [0], sent := {});
    states := [c, c1, c2, c3, c3.(position := [1], inHand := Some((0, 0)))];
  }

  // ---------------------------------------------------------------------------
  // The retry loop
  // ---------------------------------------------------------------------------

  const FIRST_BACKOFF := 100
  const MAX_BACKOFF := 5000

  function Min(a: nat, b: nat): nat { if a < b then a else b }

  function Doubled(n: nat): nat { if n == 0 then FIRST_BACKOFF else 2 * Doubled(n - 1) }

  /** 100 ms, then twice as long each time, never more than 5 s. */
  lemma BackoffIs(refusals: nat)
    ensures Min(Doubled(refusals), MAX_BACKOFF)
         == if refusals < 6 then [100, 200, 400, 800, 1600, 3200][refusals] else 5000
  {
    if refusals >= 6 { DoubledGrows(6, refusals); }
  }

  lemma {:induction false} DoubledGrows(a: nat, b: nat)
    requires a <= b
    ensures Doubled(a) <= Doubled(b)
  {
    if a < b { DoubledGrows(a, b - 1); }
  }

  /** One message: try, and after each refusal pause once, back off and try the same
      message again. `answers` are the handler's answers until a stop is noticed. */
  method HandleUntilAccepted(answers: seq<bool>) returns (success: bool, nacked: nat, paused: bool, backoff: nat)
    ensures success == (true in answers)
    ensures success ==> nacked < |answers| && answers[nacked] && true !in answers[..nacked]
    ensures !success ==> nacked == |answers|
    ensures paused == (nacked > 0)
    ensures backoff == Min(Doubled(nacked), MAX_BACKOFF)
  {
    success, paused, backoff, nacked := false, false, FIRST_BACKOFF, 0;
    while nacked < |answers|
      invariant 0 <= nacked <= |answers| && !success
      invariant true !in answers[..nacked]
      invariant paused == (nacked > 0)
      invariant backoff == Min(Doubled(nacked), MAX_BACKOFF)
    {
      success := answers[nacked];
      if success {
        return;
      }
      assert answers[..nacked + 1] == answers[..nacked] + [answers[nacked]];
      nacked := nacked + 1;
      paused := true;
      backoff := Min(backoff * 2, MAX_BACKOFF);
    }
    assert answers[..nacked] == answers;
  }
}

/** The supervising loops of the event-stream client (internal/stream/client_connect.go) with the composed
    connection callback of internal/controller/agent_controller.go, and of the tunnel client. */
module Clients {
  import opened Common
  import opened Backoff
  import opened Readiness
  import Dispatcher

  /** Up and down for a session that was established, nothing for one that was not. */
  function TransitionsOf(s: Session): seq<Transition> {
    if s.established then [Transition(true, s.upAt), Transition(false, s.downAt)] else []
  }

  function Transitions(sessions: seq<Session>): seq<Transition> {
    if sessions == [] then [] else Transitions(sessions[..|sessions| - 1]) + TransitionsOf(sessions[|sessions| - 1])
  }

  lemma TransitionsSnoc(sessions: seq<Session>, i: nat)
    requires i < |sessions|
    ensures Transitions(sessions[..i + 1]) == Transitions(sessions[..i]) + TransitionsOf(sessions[i])
  {
    assert sessions[..i + 1][..i] == sessions[..i];
  }

  function Established(sessions: seq<Session>): nat {
    if sessions == [] then 0 else
      Established(sessions[..|sessions| - 1]) + if sessions[|sessions| - 1].established then 1 else 0
  }

  /** Every established session is told as it came up and as it went down, in order, at its own place, and sessions
      that were never established are not told at all. */
  lemma {:induction false} EverySessionIsDelivered(sessions: seq<Session>, i: nat)
    requires i < |sessions|
    ensures |Transitions(sessions)| == 2 * Established(sessions)
    ensures sessions[i].established ==>
              var n := 2 * Established(sessions[..i]);
              && n + 1 < |Transitions(sessions)|
              && Transitions(sessions)[n] == Transition(true, sessions[i].upAt)
              && Transitions(sessions)[n + 1] == Transition(false, sessions[i].downAt)
  {
    var front := sessions[..|sessions| - 1];
    if i < |front| {
      EverySessionIsDelivered(front, i);
      assert front[..i] == sessions[..i];
    } else if front != [] {
      EverySessionIsDelivered(front, 0);
    }
  }

  /** Shutdown was requested by the session's end, or before the next session begins. */
  predicate Stops(s: Session) {
    s.shutdown || s.shutdownInWait
  }

  /** Sessions go on until one stops the loop, and no further. */
  predicate ServedUntil(sessions: seq<Session>, served: nat)
    requires served <= |sessions|
  {
    && (forall i :: 0 <= i < served - 1 ==> !Stops(sessions[i]))
    && (served < |sessions| ==> served > 0 && Stops(sessions[served - 1]))
  }

  /** Every session is followed by a wait (none long after a rotation), except one that ended in shutdown. */
  function WaitsBetween(sessions: seq<Session>, served: nat): int
    requires served <= |sessions|
  {
    if served > 0 && sessions[served - 1].shutdown then served - 1 else served
  }

  /** Between two sessions: every one so far was followed by its wait, none stopped the loop, and the delay is
      the one for the current streak. */
  ghost predicate OnCourse(policy: Policy, sessions: seq<Session>, waits: seq<Option<int>>, delay: int) {
    && FollowsPolicy(policy, sessions, waits)
    && (forall i :: 0 <= i < |waits| ==> !Stops(sessions[i]))
    && delay == DelayAfter(Effective(policy), Streak(sessions, |waits|))
  }

  /** The loop is over: sessions were served until one stopped it, with the policy's waits in between. */
  ghost predicate Finished(policy: Policy, sessions: seq<Session>, waits: seq<Option<int>>, served: nat) {
    && FollowsPolicy(policy, sessions, waits)
    && served <= |sessions| && ServedUntil(sessions, served) && |waits| == WaitsBetween(sessions, served)
  }

  /** One more session either stops the loop, before or after its wait, or leaves it on course. */
  lemma CourseGoesOn(policy: Policy, sessions: seq<Session>, waits: seq<Option<int>>, delay: int)
    requires OnCourse(policy, sessions, waits, delay) && |waits| < |sessions|
    ensures var s, e := sessions[|waits|], Effective(policy);
            var longer := waits + [WaitAfter(delay, s)];
            && (s.shutdown ==> Finished(policy, sessions, waits, |waits| + 1))
            && (!s.shutdown && s.shutdownInWait ==> Finished(policy, sessions, longer, |waits| + 1))
            && (!Stops(s) ==> OnCourse(policy, sessions, longer,
                                       if s.cause.Rotation? then e.initial else NextDelay(delay, e)))
  {
  }

  lemma CourseEnds(policy: Policy, sessions: seq<Session>, waits: seq<Option<int>>, delay: int)
    requires OnCourse(policy, sessions, waits, delay) && |waits| == |sessions|
    ensures Finished(policy, sessions, waits, |sessions|)
  {
  }

  function WaitAfter(delay: int, s: Session): Option<int> {
    if s.cause.Rotation? then None else Some(Jitter(delay, s.draw))
  }

  /** A rotation resets the delay and reconnects at once; any other end waits and lengthens the delay. */
  method Pause(backoff: Policy, delay: int, s: Session) returns (wait: Option<int>, next: int)
    ensures wait == WaitAfter(delay, s)
    ensures next == if s.cause.Rotation? then backoff.initial else NextDelay(delay, backoff)
  {
    if s.cause.Rotation? { return None, backoff.initial; }
    wait, next := Some(Jitter(delay, s.draw)), NextDelay(delay, backoff);
  }

  class ConnectClient {
    var connected: bool
    const tracker: StreamTracker
    const gate: Dispatcher.Dispatcher
    const armedAt: int
    /** The transitions the callback has delivered, oldest first. */
    ghost var delivered: seq<Transition>

    /** Wires the callback, with the gate closed and the tracker armed disconnected. */
    constructor (tracker: StreamTracker, gate: Dispatcher.Dispatcher, now: int)
      requires tracker.View() == UNARMED
      modifies tracker, gate`connected
      ensures this.tracker == tracker && this.gate == gate && armedAt == now && Valid() && !connected && delivered == []
    {
      this.tracker, this.gate, armedAt := tracker, gate, now;
      connected, delivered := false, [];
      new;
      gate.SetConnected(false);
      tracker.SetConnected(false, now);
      assert [Transition(false, now)][..0] == [];
    }

    /** Delivered transitions alternate starting with connect, the gate follows the last one, and the tracker
        has seen all of them after its arming. */
    ghost predicate Valid()
      reads this, tracker, gate
    {
      && Alternates(delivered, true)
      && connected == (|delivered| % 2 == 1)
      && gate.connected == connected
      && tracker.View() == After([Transition(false, armedAt)] + delivered)
    }

    /** Fires the callback only on real transitions. */
    method SetConnected(v: bool, now: int)
      requires Valid()
      modifies this`connected, this`delivered, tracker, gate`connected
      ensures Valid() && connected == v
      ensures delivered == old(delivered) + if v != old(connected) then [Transition(v, now)] else []
    {
      var changed := connected != v;
      connected := v;
      if changed {
        ghost var before := [Transition(false, armedAt)] + delivered;
        delivered := delivered + [Transition(v, now)];
        assert ([Transition(false, armedAt)] + delivered)[..|before|] == before;
        tracker.SetConnected(v, now);
        gate.SetConnected(v);
      }
    }

    /** One session's transitions; the loop reports the link down after every session. */
    method Serve(s: Session)
      requires Valid() && !connected
      modifies this`connected, this`delivered, tracker, gate`connected
      ensures Valid() && !connected
      ensures delivered == old(delivered) + TransitionsOf(s)
    {
      if s.established {
        SetConnected(true, s.upAt);
      }
      SetConnected(false, s.downAt);
    }

    /** Connect, run a session, reconnect with backoff, until shutdown or the end of the observed sessions. */
    method Run(policy: Policy, sessions: seq<Session>) returns (waits: seq<Option<int>>, served: nat)
      requires Valid() && !connected
      modifies this`connected, this`delivered, tracker, gate`connected
      ensures Valid() && !connected && Finished(policy, sessions, waits, served)
      ensures delivered == old(delivered) + Transitions(sessions[..served])
    {
      var backoff := if policy.initial <= 0 then DEFAULT else policy;
      var delay := backoff.initial;
      waits, served := [], 0;
      while served < |sessions|
        invariant served <= |sessions| && |waits| == served
        invariant Valid() && !connected
        invariant delivered == old(delivered) + Transitions(sessions[..served])
        invariant OnCourse(policy, sessions, waits, delay)
      {
        var s := sessions[served];
        TransitionsSnoc(sessions, served);
        CourseGoesOn(policy, sessions, waits, delay);
        served := served + 1;
        Serve(s);
        if s.shutdown { return; }
        var wait;
        wait, delay := Pause(backoff, delay, s);
        waits := waits + [wait];
        if s.shutdownInWait { return; }
      }
      CourseEnds(policy, sessions, waits, delay);
    }
  }

  class TunnelClient {
    var connected: bool

    constructor ()
      ensures !connected
    {
      connected := false;
    }

    /** The same policy; the tunnel client keeps a plain flag instead of firing a callback. */
    method Run(policy: Policy, sessions: seq<Session>) returns (waits: seq<Option<int>>, served: nat)
      modifies this
      ensures Finished(policy, sessions, waits, served) && (served > 0 ==> !connected)
    {
      var backoff := if policy.initial <= 0 then DEFAULT else policy;
      var delay := backoff.initial;
      waits, served := [], 0;
      while served < |sessions|
        invariant served <= |sessions| && |waits| == served && (served > 0 ==> !connected)
        invariant OnCourse(policy, sessions, waits, delay)
      {
        var s := sessions[served];
        CourseGoesOn(policy, sessions, waits, delay);
        served := served + 1;
        if s.established { connected := true; }
        connected := false;
        if s.shutdown { return; }
        var wait;
        wait, delay := Pause(backoff, delay, s);
        waits := waits + [wait];
        if s.shutdownInWait { return; }
      }
      CourseEnds(policy, sessions, waits, delay);
    }
  }
}

/** The readiness tracker of internal/health/health.go. */
module Readiness {
  import opened Common

  /** A delivered connectivity transition and its time in unix nanoseconds. */
  datatype Transition = Transition(up: bool, at: int)

  datatype Tracker = Tracker(armed: bool, connected: bool, lastDisconnect: int)

  const UNARMED: Tracker := Tracker(false, false, 0)

  function Recorded(t: Tracker, x: Transition): Tracker {
    Tracker(true, x.up, if x.up then t.lastDisconnect else x.at)
  }

  function After(history: seq<Transition>): Tracker {
    if history == [] then UNARMED else Recorded(After(history[..|history| - 1]), history[|history| - 1])
  }

  predicate Unready(t: Tracker, now: int, grace: int) {
    t.armed && !t.connected && now - t.lastDisconnect >= grace
  }

  class StreamTracker {
    const grace: int
    var armed: bool
    var connected: bool
    var lastDisconnect: int

    constructor (grace: int)
      ensures this.grace == grace && View() == UNARMED
    {
      this.grace := grace;
      armed, connected, lastDisconnect := false, false, 0;
    }

    function View(): Tracker
      reads this
    {
      Tracker(armed, connected, lastDisconnect)
    }

    method SetConnected(v: bool, now: int)
      modifies this
      ensures View() == Recorded(old(View()), Transition(v, now))
    {
      armed := true;
      connected := v;
      if !v { lastDisconnect := now; }
    }

    /** None when ready, otherwise for how long the stream has been down. */
    method Check(now: int) returns (downFor: Option<int>)
      ensures downFor.Some? <==> Unready(View(), now, grace)
      ensures downFor.Some? ==> downFor.value == now - lastDisconnect
    {
      if !armed || connected { return None; }
      var since := now - lastDisconnect;
      if since < grace { return None; }
      downFor := Some(since);
    }
  }

  /** By the delivered transitions, the stream has been down without a break since `since` or earlier. */
  ghost predicate DownSince(history: seq<Transition>, since: int) {
    exists i :: 0 <= i < |history| && history[i].at <= since && StaysDown(history, i)
  }

  ghost predicate StaysDown(history: seq<Transition>, i: nat) {
    forall j :: i <= j < |history| ==> !history[j].up
  }

  predicate Alternates(history: seq<Transition>, first: bool) {
    forall i :: 0 <= i < |history| ==> history[i].up == (first == (i % 2 == 0))
  }

  lemma AfterLast(history: seq<Transition>)
    requires history != []
    ensures var last := history[|history| - 1];
            After(history).armed && After(history).connected == last.up &&
            (!last.up ==> After(history).lastDisconnect == last.at)
  {
  }

  /** The probe is exact, at every time and for every grace period, just when the last disconnect is no
      later than any other disconnect of the current outage. */
  lemma ProbeIsExactWhen(history: seq<Transition>)
    ensures (forall now, grace :: Unready(After(history), now, grace) <==> DownSince(history, now - grace))
            <==>
            (forall i :: 0 <= i < |history| && StaysDown(history, i) ==>
               history[|history| - 1].at <= history[i].at)
  {
    if history != [] {
      AfterLast(history);
      var last := |history| - 1;
      if exists i :: 0 <= i < last && StaysDown(history, i) && history[i].at < history[last].at {
        var i :| 0 <= i < last && StaysDown(history, i) && history[i].at < history[last].at;
        assert DownSince(history, history[i].at - 0);
        assert !Unready(After(history), history[i].at, 0);
      } else {
        forall now, grace
          ensures Unready(After(history), now, grace) <==> DownSince(history, now - grace)
        {
          if Unready(After(history), now, grace) {
            assert StaysDown(history, last) && history[last].at <= now - grace;
          }
          if DownSince(history, now - grace) {
            var i :| 0 <= i < |history| && history[i].at <= now - grace && StaysDown(history, i);
            assert !history[last].up;
          }
        }
      }
    }
  }

  /** Alternating transitions have one disconnect per outage, so for them the probe is exact. */
  lemma ProbeIsExactOnTransitions(history: seq<Transition>, first: bool, now: int, grace: int)
    requires Alternates(history, first)
    ensures Unready(After(history), now, grace) <==> DownSince(history, now - grace)
  {
    forall i | 0 <= i < |history| && StaysDown(history, i)
      ensures history[|history| - 1].at <= history[i].at
    {
      assert forall j :: 0 <= j < |history| - 1 ==> history[j].up != history[j + 1].up;
    }
    ProbeIsExactWhen(history);
  }
}

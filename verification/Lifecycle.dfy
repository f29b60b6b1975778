/** The agent lifecycle as a step machine: the stream client's connection callback, delivered in its separate
    steps, interleaved with command deliveries, crashes, restarts and other writers. */
module Lifecycle {
  import opened Common
  import opened Journal
  import opened D = Dispatcher
  import opened Readiness

  /** Where the composed callback is: it informs the readiness tracker first and the command gate second. */
  datatype Phase = Idle | ToTracker(up: bool) | ToGate(up: bool)

  datatype Link = Link(clientUp: bool, phase: Phase, tracked: seq<Transition>, gated: seq<bool>)

  datatype System = System(world: World, link: Link)

  datatype Act =
    | Command(event: Option<Event>, outcome: Outcome, calls: seq<Call>, reply: Reply)
    | OtherWriter
    | Crashes
    | Boots(handlers: set<Kind>, bridge: set<string>, now: int)
    | ClientReports(up: bool)      // the client's setConnected
    | TrackerInformed(now: int)
    | GateInformed

  ghost predicate Next(json: Json, a: System, act: Act, b: System) {
    match act
    case Command(event, outcome, calls, reply) =>
      D.Next(json, a.world, Step.Deliver(event, outcome, calls, reply), b.world) && b.link == a.link
    case OtherWriter => D.Next(json, a.world, Step.Foreign, b.world) && b.link == a.link
    case Crashes => D.Next(json, a.world, Step.Crash, b.world) && b.link == a.link
    case Boots(handlers, bridge, now) =>
      && D.Next(json, a.world, Step.Start(handlers, bridge), b.world)
      && b.link == Link.Link(false, Idle, [Transition(false, now)], [])
    case ClientReports(up) =>
      && a.world.process.Some? && a.link.phase == Idle && b.world == a.world
      && b.link == if up == a.link.clientUp then a.link else a.link.(clientUp := up, phase := ToTracker(up))
    case TrackerInformed(now) =>
      && a.world.process.Some? && a.link.phase.ToTracker? && b.world == a.world
      && b.link == a.link.(phase := ToGate(a.link.phase.up),
                           tracked := a.link.tracked + [Transition(a.link.phase.up, now)])
    case GateInformed =>
      && a.link.phase.ToGate? && D.Next(json, a.world, Step.Link(a.link.phase.up), b.world)
      && b.link == a.link.(phase := Idle, gated := a.link.gated + [a.link.phase.up])
  }

  ghost predicate IsRun(json: Json, systems: seq<System>, acts: seq<Act>) {
    && |systems| == |acts| + 1
    && systems[0].world.process == None
    && forall i :: 0 <= i < |acts| ==> Next(json, systems[i], acts[i], systems[i + 1])
  }

  predicate GateOpen(gated: seq<bool>) {
    gated != [] && gated[|gated| - 1]
  }

  /** Transitions delivered to the gate alternate, starting with connect. */
  predicate Alternating(gated: seq<bool>) {
    forall i :: 0 <= i < |gated| ==> gated[i] == (i % 2 == 0)
  }

  ghost predicate Invariant(s: System) {
    var l := s.link;
    s.world.process.Some? ==>
      (&& s.world.process.value.connected == GateOpen(l.gated)
       && Alternating(l.gated)
       && Alternates(l.tracked, false)
       && |l.tracked| == |l.gated| + (if l.phase.ToGate? then 2 else 1)
       && l.clientUp == ((|l.gated| % 2 == 1) == (l.phase == Idle))
       && (l.phase != Idle ==> l.phase.up == l.clientUp))
  }

  lemma StepKeepsInvariant(json: Json, a: System, act: Act, b: System)
    requires Invariant(a) && Next(json, a, act, b)
    ensures Invariant(b)
  {
  }

  lemma {:induction false} RunKeepsInvariant(json: Json, systems: seq<System>, acts: seq<Act>, i: nat)
    requires IsRun(json, systems, acts) && i < |systems|
    ensures Invariant(systems[i])
    decreases i
  {
    if i > 0 {
      RunKeepsInvariant(json, systems, acts, i - 1);
      StepKeepsInvariant(json, systems[i - 1], acts[i - 1], systems[i]);
    }
  }

  /** Commands fail closed: in every run, while the last transition delivered to the gate is a disconnect, or
      none has been delivered, an unrecorded command is refused and changes nothing at all, and a recorded one
      is answered with its recorded ack. */
  lemma FailsClosed(json: Json, systems: seq<System>, acts: seq<Act>, i: nat, id: string)
    requires IsRun(json, systems, acts) && i < |acts|
    requires acts[i].Command? && CommandIdOf(acts[i].event) == Some(id)
    requires !GateOpen(systems[i].link.gated)
    ensures systems[i].world.process.Some? && systems[i + 1] == systems[i]
    ensures var seen := systems[i].world.process.value.seen;
            acts[i].reply == if id in seen then Answer(seen[id]) else Refusal(Some(id))
  {
    RunKeepsInvariant(json, systems, acts, i);
    var a, b := systems[i], systems[i + 1];
    assert Next(json, a, acts[i], b);
    assert a.world == World(Some(a.world.process.value), a.world.store);
    assert b.world == World(Some(b.world.process.value), b.world.store);
  }

  /** In every run the transitions delivered to the gate alternate starting with connect. */
  lemma DeliveredTransitionsAlternate(json: Json, systems: seq<System>, acts: seq<Act>, i: nat)
    requires IsRun(json, systems, acts) && i < |systems| && systems[i].world.process.Some?
    ensures Alternating(systems[i].link.gated)
    ensures systems[i].world.process.value.connected == GateOpen(systems[i].link.gated)
  {
    RunKeepsInvariant(json, systems, acts, i);
  }

  /** In every run the readiness probe fails exactly when, by the transitions delivered to it, the stream has
      been down without a break for at least the grace period. */
  lemma ReadyzReportsOutages(json: Json, systems: seq<System>, acts: seq<Act>, i: nat, now: int, grace: int)
    requires IsRun(json, systems, acts) && i < |systems| && systems[i].world.process.Some?
    ensures var tracked := systems[i].link.tracked;
            Unready(After(tracked), now, grace) <==> DownSince(tracked, now - grace)
  {
    RunKeepsInvariant(json, systems, acts, i);
    ProbeIsExactOnTransitions(systems[i].link.tracked, false, now, grace);
  }

  // ----- the gate follows the client

  /** What the client last reported since the agent booted. */
  function LastReport(acts: seq<Act>): bool {
    acts != [] &&
    match acts[|acts| - 1]
    case Boots(_, _, _) => false
    case ClientReports(up) => up
    case _ => LastReport(acts[..|acts| - 1])
  }

  lemma {:induction false} ClientIsUpAsReported(json: Json, systems: seq<System>, acts: seq<Act>, i: nat)
    requires IsRun(json, systems, acts) && i < |systems| && systems[i].world.process.Some?
    ensures systems[i].link.clientUp == LastReport(acts[..i])
    decreases i
  {
    if i > 0 {
      var a, act, b := systems[i - 1], acts[i - 1], systems[i];
      assert Next(json, a, act, b);
      assert acts[..i][..i - 1] == acts[..i - 1];
      if !act.Boots? { ClientIsUpAsReported(json, systems, acts, i - 1); }
    }
  }

  /** In every run, whenever no callback is under way, the gate is open, and the tracker shows the stream up, exactly
      when the client last reported its session established; and while one is under way the tracker is told first. */
  lemma GateFollowsTheClient(json: Json, systems: seq<System>, acts: seq<Act>, i: nat)
    requires IsRun(json, systems, acts) && i < |systems| && systems[i].world.process.Some?
    ensures var l, up := systems[i].link, LastReport(acts[..i]);
            && (l.phase == Idle ==> systems[i].world.process.value.connected == up)
            && (l.phase != ToTracker(up) ==> After(l.tracked).connected == up)
            && (l.phase != Idle ==> l.phase in {ToTracker(up), ToGate(up)})
            && (l.phase != Idle ==> systems[i].world.process.value.connected != up)
  {
    RunKeepsInvariant(json, systems, acts, i);
    ClientIsUpAsReported(json, systems, acts, i);
    GateByPhase(systems[i]);
  }

  lemma GateByPhase(s: System)
    requires s.world.process.Some? && Invariant(s)
    ensures var l, up := s.link, s.link.clientUp;
            && (l.phase == Idle ==> s.world.process.value.connected == up)
            && (l.phase != ToTracker(up) ==> After(l.tracked).connected == up)
            && (l.phase != Idle ==> l.phase in {ToTracker(up), ToGate(up)} && s.world.process.value.connected != up)
  {
    AfterLast(s.link.tracked);
  }
}

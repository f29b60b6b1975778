/** What becomes of every connection, every frame and every cancel, under every schedule of the registry. */
module Fates {
  import opened Common
  import opened ByteMeter
  import opened ConnWriter
  import opened Connection
  import opened History
  import opened Registry

  // ----- every connection is told by its history

  /** The action a step is for a connection, if any. */
  function ActionOn(cfg: Config, s: State, step: Step, i: nat): Option<Action>
    requires Possible(cfg, s, step)
  {
    match step
    case Push(j, dropped) => if !dropped && s.deliveries[j].conn == i then Some(PushAction(s, j)) else Option.None
    case CancelOne(k) => if k == i then Some(In(CancelConn)) else Option.None
    case Local(k, a) => if k == i then Some(a) else Option.None
    case Deregister(k) => if k == i then Some(Out(Delist)) else Option.None
    case _ => Option.None
  }

  /** The actions of connection i in a schedule. */
  function ActionsOf(cfg: Config, steps: seq<Step>, i: nat): seq<Action> {
    if steps == [] then [] else
      var s, step := Run(cfg, steps[..|steps| - 1]), steps[|steps| - 1];
      var before := ActionsOf(cfg, steps[..|steps| - 1], i);
      if Possible(cfg, s, step) && i < |s.all| && ActionOn(cfg, s, step, i).Some?
      then before + [ActionOn(cfg, s, step, i).value] else before
  }

  /** Whether the open that made connection i allows a request body. */
  function AllowsBody(cfg: Config, steps: seq<Step>, i: nat): bool {
    steps != [] &&
    var s, step := Run(cfg, steps[..|steps| - 1]), steps[|steps| - 1];
    if i < |s.all| then AllowsBody(cfg, steps[..|steps| - 1], i) else step.Open? && step.bodyAllowed
  }

  /** A possible step is its action on the connection, or leaves it alone. */
  lemma StepIsItsAction(cfg: Config, s: State, step: Step, i: nat)
    requires Possible(cfg, s, step) && i < |s.all|
    ensures var a := ActionOn(cfg, s, step, i);
            && i < |Result(cfg, s, step).all|
            && (a.Some? ==>
                  Enabled(cfg, s.all[i], a.value) && Result(cfg, s, step).all[i] == Effect(cfg, s.all[i], a.value))
            && (a.None? ==> Result(cfg, s, step).all[i] == s.all[i])
  {
  }

  /** A connection that a step adds is new. */
  lemma StepAddsNew(cfg: Config, s: State, step: Step, i: nat)
    requires Possible(cfg, s, step) && |s.all| <= i < |Result(cfg, s, step).all|
    ensures step.Open? && Result(cfg, s, step).all[i] == New(Result(cfg, s, step).all[i].id, step.bodyAllowed)
  {
  }

  lemma AfterSnoc(cfg: Config, c: Conn, actions: seq<Action>, a: Action)
    ensures After(cfg, c, actions + [a]) ==
            var mid := After(cfg, c, actions);
            if mid.Some? && Enabled(cfg, mid.value, a) then Some(Effect(cfg, mid.value, a)) else Option.None
  {
    assert (actions + [a])[..|actions|] == actions;
  }

  lemma {:induction false} NoActionsBefore(cfg: Config, steps: seq<Step>, i: nat)
    requires i >= |Run(cfg, steps).all|
    ensures ActionsOf(cfg, steps, i) == []
  {
    if steps != [] {
      var s, step := Run(cfg, steps[..|steps| - 1]), steps[|steps| - 1];
      if Possible(cfg, s, step) && i < |s.all| { StepIsItsAction(cfg, s, step, i); }
      NoActionsBefore(cfg, steps[..|steps| - 1], i);
    }
  }

  /** Under every schedule a connection is what its own actions made of a new one. */
  lemma {:induction false} ConnectionIsItsHistory(cfg: Config, steps: seq<Step>, i: nat)
    requires i < |Run(cfg, steps).all|
    ensures var c := Run(cfg, steps).all[i];
            After(cfg, New(c.id, AllowsBody(cfg, steps, i)), ActionsOf(cfg, steps, i)) == Some(c)
  {
    var front, step := steps[..|steps| - 1], steps[|steps| - 1];
    var s := Run(cfg, front);
    if i < |s.all| {
      ConnectionIsItsHistory(cfg, front, i);
      if Possible(cfg, s, step) {
        StepIsItsAction(cfg, s, step, i);
        var a := ActionOn(cfg, s, step, i);
        if a.Some? {
          ActionKeepsIdentity(cfg, s.all[i], a.value);
          AfterSnoc(cfg, New(s.all[i].id, AllowsBody(cfg, front, i)), ActionsOf(cfg, front, i), a.value);
        }
      }
    } else {
      StepAddsNew(cfg, s, step, i);
      NoActionsBefore(cfg, front, i);
    }
  }

  lemma HistoryTells(cfg: Config, steps: seq<Step>, i: nat)
    requires i < |Run(cfg, steps).all|
    ensures Told(AllowsBody(cfg, steps, i), ActionsOf(cfg, steps, i), Run(cfg, steps).all[i])
  {
    var c := Run(cfg, steps).all[i];
    ConnectionIsItsHistory(cfg, steps, i);
    var start := New(c.id, AllowsBody(cfg, steps, i));
    ActionsTell(cfg, start, AllowsBody(cfg, steps, i), ActionsOf(cfg, steps, i), c);
  }

  /** What an ended connection told the hub, by its history: a refused dial is an open failure; otherwise the result and
      the frames, and then "complete" exactly if the body ended, "read-error" or "max-lifetime-exceeded" exactly if a
      read failed while the context was live or expired, and nothing if it was cancelled or the cap cut it off. */
  lemma ConnectionsCloseForTheirReason(cfg: Config, steps: seq<Step>, i: nat)
    requires cfg.cap >= 0 && i < |Run(cfg, steps).all| && Run(cfg, steps).all[i].main.Ended?
    ensures var c, h := Run(cfg, steps).all[i], ActionsOf(cfg, steps, i);
            var v, told := Visible(c.emitted), [OpenResult] + Frames(c.chunks);
            && (DialBy(h) == Refused ==> v == [OpenError, Close(OpenFailure)])
            && (DialBy(h) != Refused ==> DialBy(h).Answered? && told <= v && c.body == BodyBy(h))
            && (DialBy(h) != Refused && c.meter.refusedOut.Some? ==> v == told)
            && (DialBy(h) != Refused && c.meter.refusedOut.None? ==>
                  && (v == told + [Close(Complete)] <==> LastRead(h) == Some(Eof))
                  && (v == told + [Close(ReadFailure)] <==> LastRead(h) == Some(ReadError) && DecidedIn(h).Live?)
                  && (v == told + [Close(LifetimeExceeded)] <==>
                        LastRead(h) == Some(ReadError) && DecidedIn(h).Expired?)
                  && (v == told <==> LastRead(h) == Some(ReadError) && DecidedIn(h).Cancelled?))
  {
    var c, h := Run(cfg, steps).all[i], ActionsOf(cfg, steps, i);
    RunInvariant(cfg, steps);
    HistoryTells(cfg, steps, i);
    ReasonsAreTold(AllowsBody(cfg, steps, i), h, c);
    assert ConnOk(cfg, c);
    TranscriptsDiffer(c.chunks);
  }

  lemma TranscriptsDiffer(chunks: seq<seq<byte>>)
    ensures var told := [OpenResult] + Frames(chunks);
            && (forall r :: told != told + [Close(r)])
            && (forall r, r' :: told + [Close(r)] == told + [Close(r')] ==> r == r')
  {
    var told := [OpenResult] + Frames(chunks);
    forall r, r' | told + [Close(r)] == told + [Close(r')]
      ensures r == r'
    {
      assert (told + [Close(r)])[|told|] == Close(r) && (told + [Close(r')])[|told|] == Close(r');
    }
    forall r
      ensures told != told + [Close(r)]
    {
      assert |told + [Close(r)]| == |told| + 1;
    }
  }

  /** The write target, by the connection's history: it is the request body or discard until an upgraded open has sent
      its result and switched, and the socket ever after; the pipe is closed exactly when the target was switched or
      the inbound pump ended by stop, refusal or half-close rather than by a failed write. */
  lemma TargetFollowsUpgrade(cfg: Config, steps: seq<Step>, i: nat)
    requires i < |Run(cfg, steps).all|
    ensures var c, h := Run(cfg, steps).all[i], ActionsOf(cfg, steps, i);
            var switched := DialBy(h) == Answered(true) && Dialled(c.main) && !c.main.ResultSent?;
            && c.writer.hasPipe == AllowsBody(cfg, steps, i)
            && c.writer.switches == (if switched then 1 else 0)
            && c.writer.target == (if switched then Socket else if c.writer.hasPipe then BodyPipe else Discarded)
            && (c.writer.pipeClosed <==> c.writer.hasPipe && (switched || (c.inbound.Over? && !WriteFailedBy(h))))
  {
    HistoryTells(cfg, steps, i);
  }

  /** Context and traffic, by the connection's history: nothing accepted is lost from the record, nothing is added, and
      every overflow is reported once. */
  lemma TrafficIsItsHistory(cfg: Config, steps: seq<Step>, i: nat)
    requires i < |Run(cfg, steps).all|
    ensures var c, h := Run(cfg, steps).all[i], ActionsOf(cfg, steps, i);
            && c.accepted == AcceptedBy(h) && c.body == BodyBy(h) && c.ctx == CtxBy(h)
            && Notices(c.emitted, OVERFLOW_NOTICE) == OverflowsBy(h)
  {
    HistoryTells(cfg, steps, i);
  }

  /** Once a connection's target is the upgraded socket, no schedule puts another byte on the first target. */
  lemma {:induction false} FirstTargetStandsStill(cfg: Config, steps: seq<Step>, more: seq<Step>, i: nat)
    requires i < |Run(cfg, steps).all| && Run(cfg, steps).all[i].writer.target.Socket?
    ensures i < |Run(cfg, steps + more).all|
    ensures var c, d := Run(cfg, steps).all[i], Run(cfg, steps + more).all[i];
            d.writer.target.Socket? && d.writer.first == c.writer.first
  {
    if more == [] {
      assert steps + more == steps;
    } else {
      var front, last := more[..|more| - 1], more[|more| - 1];
      FirstTargetStandsStill(cfg, steps, front, i);
      assert steps + more == steps + front + [last];
      RunSnoc(cfg, steps + front, last);
      var s := Run(cfg, steps + front);
      if Possible(cfg, s, last) {
        StepIsItsAction(cfg, s, last, i);
        var a := ActionOn(cfg, s, last, i);
        if a.Some? { SwitchedForGood(cfg, s.all[i], a.value); }
      }
    }
  }

  // ----- nothing that was looked up is lost

  /** Frames that found their connection in the registry. */
  function Found(cfg: Config, steps: seq<Step>): nat {
    if steps == [] then 0 else
      var s, step := Run(cfg, steps[..|steps| - 1]), steps[|steps| - 1];
      Found(cfg, steps[..|steps| - 1]) +
      if Possible(cfg, s, step) && step.LookUp? && step.frame.Some? && step.id in s.conns then 1 else 0
  }

  /** Frames dropped because their connection was done. */
  function Dropped(cfg: Config, steps: seq<Step>): nat {
    if steps == [] then 0 else
      var s, step := Run(cfg, steps[..|steps| - 1]), steps[|steps| - 1];
      Dropped(cfg, steps[..|steps| - 1]) + if Possible(cfg, s, step) && step.Push? && step.dropped then 1 else 0
  }

  /** Frames queued or reported as overflow, over all connections. */
  function Settled(all: seq<Conn>): nat {
    if all == [] then 0 else
      var c := all[|all| - 1];
      Settled(all[..|all| - 1]) + |c.accepted| + Notices(c.emitted, OVERFLOW_NOTICE)
  }

  lemma {:induction false} SettledUpdate(all: seq<Conn>, i: nat, d: Conn)
    requires i < |all|
    ensures Settled(all[i := d]) + |all[i].accepted| + Notices(all[i].emitted, OVERFLOW_NOTICE) ==
            Settled(all) + |d.accepted| + Notices(d.emitted, OVERFLOW_NOTICE)
  {
    if i < |all| - 1 {
      assert all[i := d][..|all| - 1] == all[..|all| - 1][i := d];
      SettledUpdate(all[..|all| - 1], i, d);
    } else {
      assert all[i := d][..|all| - 1] == all[..|all| - 1];
    }
  }

  /** What an action does to what its connection has settled. */
  lemma ActionSettles(cfg: Config, c: Conn, a: Action)
    requires Enabled(cfg, c, a) && (c.main.Finishing? ==> c.main.reason != Some(InboundOverflow))
    ensures var d := Effect(cfg, c, a);
            |d.accepted| + Notices(d.emitted, OVERFLOW_NOTICE) ==
            |c.accepted| + Notices(c.emitted, OVERFLOW_NOTICE) +
            if a.In? && (a.inAction.Accept? || a.inAction.Overflow?) then 1 else 0
  {
    match a {
      case In(i) =>
        if i.Overflow? { NoticesSnoc(c.emitted, OVERFLOW_NOTICE, OVERFLOW_NOTICE); }
        if i.TellDenied? { NoticesSnoc(c.emitted, OVERFLOW_NOTICE, CAP_NOTICE); }
      case Out(o) => OutSettlesNothing(cfg, c, o);
    }
  }

  lemma OutSettlesNothing(cfg: Config, c: Conn, a: OutAction)
    requires OutEnabled(cfg, c, a) && (c.main.Finishing? ==> c.main.reason != Some(InboundOverflow))
    ensures var d := OutEffect(cfg, c, a);
            d.accepted == c.accepted && Notices(d.emitted, OVERFLOW_NOTICE) == Notices(c.emitted, OVERFLOW_NOTICE)
  {
    match a {
      case ReportFailure => NoticesSnoc(c.emitted, OVERFLOW_NOTICE, OpenError);
      case CloseFailed => NoticesSnoc(c.emitted, OVERFLOW_NOTICE, Close(OpenFailure));
      case ReportResult => NoticesSnoc(c.emitted, OVERFLOW_NOTICE, OpenResult);
      case SendChunk => NoticesSnoc(c.emitted, OVERFLOW_NOTICE, Data(c.main.data));
      case ReportCap => NoticesSnoc(c.emitted, OVERFLOW_NOTICE, CAP_NOTICE);
      case Finish => if c.main.reason.Some? { NoticesSnoc(c.emitted, OVERFLOW_NOTICE, Close(c.main.reason.value)); }
      case _ =>
    }
  }

  lemma ActSettles(cfg: Config, s: State, i: nat, a: Action)
    requires i < |s.all| && Enabled(cfg, s.all[i], a) && ConnOk(cfg, s.all[i])
    ensures Settled(Act(cfg, s, i, a).all) ==
            Settled(s.all) + if a.In? && (a.inAction.Accept? || a.inAction.Overflow?) then 1 else 0
  {
    ActionSettles(cfg, s.all[i], a);
    SettledUpdate(s.all, i, Effect(cfg, s.all[i], a));
  }

  /** One step's effect on the account of frames. */
  lemma StepSettles(cfg: Config, s: State, step: Step)
    requires Possible(cfg, s, step) && ConnsOk(cfg, s)
    ensures var t := Result(cfg, s, step);
            Settled(t.all) + |t.deliveries| + (if step.Push? && step.dropped then 1 else 0) ==
            Settled(s.all) + |s.deliveries| + if step.LookUp? && step.frame.Some? && step.id in s.conns then 1 else 0
  {
    match step {
      case Open(id, present, bodyAllowed) =>
        var t := Result(cfg, s, step);
        if t != s { assert t.all[..|s.all|] == s.all; }
      case Push(j, dropped) => if !dropped { ActSettles(cfg, s, s.deliveries[j].conn, PushAction(s, j)); }
      case CancelOne(i) => ActSettles(cfg, s, i, In(CancelConn));
      case Local(i, a) => ActSettles(cfg, s, i, a);
      case Deregister(i) => ActSettles(cfg, s, i, Out(Delist));
      case _ =>
    }
  }

  /** Under every schedule, each frame that found its connection is still on its way, was queued, was dropped because
      the connection was done, or was reported as an overflow; none is lost and none is counted twice. */
  lemma {:induction false} EveryFrameIsAccountedFor(cfg: Config, steps: seq<Step>)
    requires cfg.cap >= 0
    ensures var s := Run(cfg, steps);
            Settled(s.all) + |s.deliveries| + Dropped(cfg, steps) == Found(cfg, steps)
  {
    if steps != [] {
      var front, step := steps[..|steps| - 1], steps[|steps| - 1];
      EveryFrameIsAccountedFor(cfg, front);
      RunInvariant(cfg, front);
      if Possible(cfg, Run(cfg, front), step) { StepSettles(cfg, Run(cfg, front), step); }
    }
  }

  // ----- nothing that was to be cancelled is forgotten

  /** The connections a step asks to cancel: the one a hub close finds, all that a reset finds, one that overflows. */
  function AskedBy(cfg: Config, s: State, step: Step): set<nat>
    requires Possible(cfg, s, step)
  {
    match step
    case HubClose(id) => if id in s.conns then {s.conns[id]} else {}
    case ResetAll => s.conns.Values
    case Push(j, dropped) =>
      var i := s.deliveries[j].conn;
      if !dropped && |s.all[i].queue| >= QUEUE_CAPACITY then {i} else {}
    case _ => {}
  }

  function Asked(cfg: Config, steps: seq<Step>): set<nat> {
    if steps == [] then {} else
      var s, step := Run(cfg, steps[..|steps| - 1]), steps[|steps| - 1];
      Asked(cfg, steps[..|steps| - 1]) + if Possible(cfg, s, step) then AskedBy(cfg, s, step) else {}
  }

  /** Every connection asked to be cancelled is about to be, or is; and none is about to be unasked. */
  ghost predicate CancelsOk(s: State, asked: set<nat>) {
    s.cancels <= asked && forall i :: i in asked ==> i < |s.all| && (i in s.cancels || !s.all[i].ctx.Live?)
  }

  lemma DeadStaysDead(cfg: Config, c: Conn, a: Action)
    requires Enabled(cfg, c, a) && !c.ctx.Live?
    ensures !Effect(cfg, c, a).ctx.Live?
  {
  }

  lemma StepKeepsCancels(cfg: Config, s: State, step: Step, asked: set<nat>)
    requires Possible(cfg, s, step) && Exact(s) && CancelsOk(s, asked)
    ensures CancelsOk(Result(cfg, s, step), asked + AskedBy(cfg, s, step))
  {
    var t := Result(cfg, s, step);
    forall i | i in asked + AskedBy(cfg, s, step)
      ensures i < |t.all| && (i in t.cancels || !t.all[i].ctx.Live?)
    {
      StepIsItsAction(cfg, s, step, i);
      var a := ActionOn(cfg, s, step, i);
      if a.Some? && !s.all[i].ctx.Live? { DeadStaysDead(cfg, s.all[i], a.value); }
    }
  }

  /** Under every schedule a hub close, a reset or an overflow of a connection is followed by its cancellation: it is
      cancelled or its cancel is outstanding, and no other cancel ever is. */
  lemma {:induction false} CancelsAreNotForgotten(cfg: Config, steps: seq<Step>)
    requires cfg.cap >= 0
    ensures CancelsOk(Run(cfg, steps), Asked(cfg, steps))
  {
    if steps != [] {
      var front, step := steps[..|steps| - 1], steps[|steps| - 1];
      CancelsAreNotForgotten(cfg, front);
      RunInvariant(cfg, front);
      if Possible(cfg, Run(cfg, front), step) { StepKeepsCancels(cfg, Run(cfg, front), step, Asked(cfg, front)); }
    }
  }
}

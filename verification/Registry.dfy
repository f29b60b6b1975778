/** The connection registry of internal/tunnelagent/handler.go as a step machine over every connection: opens,
    frames, hub closes, resets and endings, with each lookup and the action it leads to as separate steps. */
module Registry {
  import opened Common
  import opened ByteMeter
  import opened ConnWriter
  import opened Connection

  /** A frame on its way: the registry lookup is done, the select on the connection's queue is not. */
  datatype Delivery = Delivery(conn: nat, frame: Frame)

  /** `all` holds every connection ever opened, in order, and `conns` the registry proper. */
  datatype State = State(conns: map<string, nat>, all: seq<Conn>, deliveries: seq<Delivery>, cancels: set<nat>)

  const EMPTY: State := State(map[], [], [], {})

  datatype Step =
    | Open(id: string, present: bool, bodyAllowed: bool)
    | LookUp(frame: Option<Frame>, id: string)
    | Push(delivery: nat, dropped: bool)     // the select: queued, dropped because done, or overflow
    | HubClose(id: string)                   // looks the connection up; the cancel is a later step
    | ResetAll                               // copies the registry; the cancels are later steps
    | CancelOne(conn: nat)
    | Local(conn: nat, action: Action)       // a step of one of the connection's own goroutines
    | Deregister(conn: nat)                  // unregister's delete, by id

  /** Steps of the connection's goroutines and its lifetime timer alone: deliveries and cancels come from outside, and
      taking itself off the registry is a step on the registry. */
  predicate OwnAction(a: Action) {
    if a.In? then !(a.inAction.Accept? || a.inAction.Overflow? || a.inAction.CancelConn?) else !a.outAction.Delist?
  }

  predicate CanPush(cfg: Config, s: State, j: nat, dropped: bool) {
    && j < |s.deliveries| && s.deliveries[j].conn < |s.all|
    && |s.deliveries[j].frame.data| <= cfg.longestIn
    && (dropped ==> s.all[s.deliveries[j].conn].doneCloses > 0)
    && (!dropped ==> Enabled(cfg, s.all[s.deliveries[j].conn], PushAction(s, j)))
  }

  function PushAction(s: State, j: nat): (a: Action)
    requires j < |s.deliveries| && s.deliveries[j].conn < |s.all|
    ensures a.In?
  {
    if |s.all[s.deliveries[j].conn].queue| < QUEUE_CAPACITY then In(Accept(s.deliveries[j].frame)) else In(Overflow)
  }

  predicate Possible(cfg: Config, s: State, step: Step) {
    match step
    case Open(_, _, _) => true
    case LookUp(f, id) => f.Some? ==> f.value.connId == id
    case Push(j, dropped) => CanPush(cfg, s, j, dropped)
    case HubClose(_) => true
    case ResetAll => true
    case CancelOne(i) => i in s.cancels && i < |s.all|
    case Local(i, a) => i < |s.all| && OwnAction(a) && Enabled(cfg, s.all[i], a)
    case Deregister(i) => i < |s.all| && s.all[i].main.Unregistering?
  }

  function Act(cfg: Config, s: State, i: nat, a: Action): State
    requires i < |s.all| && Enabled(cfg, s.all[i], a)
  {
    s.(all := s.all[i := Effect(cfg, s.all[i], a)])
  }

  function Result(cfg: Config, s: State, step: Step): State
    requires Possible(cfg, s, step)
  {
    match step
    case Open(id, present, bodyAllowed) =>
      if id == "" || !present || id in s.conns then s
      else s.(conns := s.conns[id := |s.all|], all := s.all + [New(id, bodyAllowed)])
    case LookUp(f, id) =>
      if id in s.conns && f.Some? then s.(deliveries := s.deliveries + [Delivery(s.conns[id], f.value)]) else s
    case Push(j, dropped) =>
      var t := if dropped then s else Act(cfg, s, s.deliveries[j].conn, PushAction(s, j));
      t.(deliveries := s.deliveries[..j] + s.deliveries[j + 1..],
         cancels := if !dropped && PushAction(s, j).inAction.Overflow? then s.cancels + {s.deliveries[j].conn}
                    else s.cancels)
    case HubClose(id) => if id in s.conns then s.(cancels := s.cancels + {s.conns[id]}) else s
    case ResetAll => s.(cancels := s.cancels + s.conns.Values)
    case CancelOne(i) => Act(cfg, s, i, In(CancelConn)).(cancels := s.cancels - {i})
    case Local(i, a) => Act(cfg, s, i, a)
    case Deregister(i) => Act(cfg, s, i, Out(Delist)).(conns := s.conns - {s.all[i].id})
  }

  /** Any sequence of steps is a schedule; steps that are not possible do nothing. */
  function Run(cfg: Config, steps: seq<Step>): State {
    if steps == [] then EMPTY else
      var s, step := Run(cfg, steps[..|steps| - 1]), steps[|steps| - 1];
      if Possible(cfg, s, step) then Result(cfg, s, step) else s
  }

  // ----- the registry is exact

  /** A connection counts as live until it has taken itself out of the registry. */
  predicate LiveConn(c: Conn) {
    !c.main.Signalling? && !c.main.Ended?
  }

  predicate Addressed(c: Conn) {
    forall i :: 0 <= i < |c.accepted| ==> c.accepted[i].connId == c.id
  }

  /** Each id maps to the one live connection of that id, and every live connection is found under its id. */
  ghost predicate Exact(s: State) {
    && (forall id :: id in s.conns ==>
          s.conns[id] < |s.all| && s.all[s.conns[id]].id == id && LiveConn(s.all[s.conns[id]]))
    && (forall i :: 0 <= i < |s.all| && LiveConn(s.all[i]) ==> s.all[i].id in s.conns && s.conns[s.all[i].id] == i)
  }

  ghost predicate Routed(s: State) {
    && (forall j :: 0 <= j < |s.deliveries| ==>
          s.deliveries[j].conn < |s.all| && s.deliveries[j].frame.connId == s.all[s.deliveries[j].conn].id)
    && (forall i :: 0 <= i < |s.all| ==> Addressed(s.all[i]))
  }

  ghost predicate ConnsOk(cfg: Config, s: State) {
    forall i :: 0 <= i < |s.all| ==> ConnOk(cfg, s.all[i])
  }

  /** An action leaves a connection's identity alone and does not deregister it. */
  lemma ActionKeepsIdentity(cfg: Config, c: Conn, a: Action)
    requires Enabled(cfg, c, a)
    ensures Effect(cfg, c, a).id == c.id && (a != Out(Delist) ==> LiveConn(Effect(cfg, c, a)) == LiveConn(c))
  {
    match a {
      case In(i) => InKeepsIdentity(cfg, c, i);
      case Out(o) => OutKeepsIdentity(cfg, c, o);
    }
  }

  lemma InKeepsIdentity(cfg: Config, c: Conn, a: InAction)
    requires InEnabled(cfg, c, a)
    ensures InEffect(cfg, c, a).id == c.id && InEffect(cfg, c, a).main == c.main
  {
  }

  lemma OutKeepsIdentity(cfg: Config, c: Conn, a: OutAction)
    requires OutEnabled(cfg, c, a)
    ensures OutEffect(cfg, c, a).id == c.id && (!a.Delist? ==> LiveConn(OutEffect(cfg, c, a)) == LiveConn(c))
  {
  }

  lemma ActionKeepsAddressed(cfg: Config, c: Conn, a: Action)
    requires Enabled(cfg, c, a) && Addressed(c)
    requires a.In? && a.inAction.Accept? ==> a.inAction.frame.connId == c.id
    ensures Addressed(Effect(cfg, c, a))
  {
  }

  lemma ActKeepsExact(cfg: Config, s: State, i: nat, a: Action)
    requires Exact(s) && i < |s.all| && Enabled(cfg, s.all[i], a) && a != Out(Delist)
    ensures Exact(Act(cfg, s, i, a))
  {
    ActionKeepsIdentity(cfg, s.all[i], a);
  }

  lemma ActKeepsRouted(cfg: Config, s: State, i: nat, a: Action)
    requires Routed(s) && i < |s.all| && Enabled(cfg, s.all[i], a)
    requires a.In? && a.inAction.Accept? ==> a.inAction.frame.connId == s.all[i].id
    ensures Routed(Act(cfg, s, i, a))
  {
    ActionKeepsIdentity(cfg, s.all[i], a);
    ActionKeepsAddressed(cfg, s.all[i], a);
  }

  lemma DeregisterKeepsExact(cfg: Config, s: State, i: nat)
    requires Exact(s) && Possible(cfg, s, Deregister(i))
    ensures Exact(Result(cfg, s, Deregister(i)))
    ensures s.all[i].id in s.conns && s.conns[s.all[i].id] == i
  {
    assert LiveConn(s.all[i]);
  }

  lemma StepKeepsExact(cfg: Config, s: State, step: Step)
    requires Exact(s) && Possible(cfg, s, step)
    ensures Exact(Result(cfg, s, step))
  {
    match step {
      case Push(j, dropped) => if !dropped { ActKeepsExact(cfg, s, s.deliveries[j].conn, PushAction(s, j)); }
      case CancelOne(i) => ActKeepsExact(cfg, s, i, In(CancelConn));
      case Local(i, a) => ActKeepsExact(cfg, s, i, a);
      case Deregister(i) => DeregisterKeepsExact(cfg, s, i);
      case Open(id, present, bodyAllowed) => OpenKeepsExact(cfg, s, id, present, bodyAllowed);
      case _ =>
    }
  }

  lemma OpenKeepsExact(cfg: Config, s: State, id: string, present: bool, bodyAllowed: bool)
    requires Exact(s)
    ensures Exact(Result(cfg, s, Open(id, present, bodyAllowed)))
  {
  }

  lemma StepKeepsRouted(cfg: Config, s: State, step: Step)
    requires Exact(s) && Routed(s) && Possible(cfg, s, step)
    ensures Routed(Result(cfg, s, step))
  {
    match step {
      case Push(j, dropped) => if !dropped { ActKeepsRouted(cfg, s, s.deliveries[j].conn, PushAction(s, j)); }
      case CancelOne(i) => ActKeepsRouted(cfg, s, i, In(CancelConn));
      case Local(i, a) => ActKeepsRouted(cfg, s, i, a);
      case Deregister(i) => ActKeepsRouted(cfg, s, i, Out(Delist));
      case _ =>
    }
  }

  lemma ActKeepsConns(cfg: Config, s: State, i: nat, a: Action)
    requires ConnsOk(cfg, s) && i < |s.all| && Enabled(cfg, s.all[i], a)
    ensures ConnsOk(cfg, Act(cfg, s, i, a))
  {
    StepKeepsConn(cfg, s.all[i], a);
  }

  lemma StepKeepsConns(cfg: Config, s: State, step: Step)
    requires cfg.cap >= 0 && ConnsOk(cfg, s) && Possible(cfg, s, step)
    ensures ConnsOk(cfg, Result(cfg, s, step))
  {
    match step {
      case Open(id, _, bodyAllowed) => NewIsOk(cfg, New(id, bodyAllowed), bodyAllowed);
      case Push(j, dropped) => if !dropped { ActKeepsConns(cfg, s, s.deliveries[j].conn, PushAction(s, j)); }
      case CancelOne(i) => ActKeepsConns(cfg, s, i, In(CancelConn));
      case Local(i, a) => ActKeepsConns(cfg, s, i, a);
      case Deregister(i) => ActKeepsConns(cfg, s, i, Out(Delist));
      case _ =>
    }
  }

  lemma {:induction false} RunInvariant(cfg: Config, steps: seq<Step>)
    requires cfg.cap >= 0
    ensures Exact(Run(cfg, steps)) && Routed(Run(cfg, steps)) && ConnsOk(cfg, Run(cfg, steps))
  {
    if steps != [] {
      var s, step := Run(cfg, steps[..|steps| - 1]), steps[|steps| - 1];
      RunInvariant(cfg, steps[..|steps| - 1]);
      if Possible(cfg, s, step) {
        StepKeepsExact(cfg, s, step);
        StepKeepsRouted(cfg, s, step);
        StepKeepsConns(cfg, s, step);
      }
    }
  }

  // ----- the claims, for every schedule

  /** At most one live connection per id, and the registry finds exactly that one. */
  lemma RegistryFindsTheLiveConnection(cfg: Config, steps: seq<Step>, id: string, i: nat)
    requires cfg.cap >= 0 && i < |Run(cfg, steps).all|
    ensures var s := Run(cfg, steps);
            LiveConn(s.all[i]) && s.all[i].id == id <==> id in s.conns && s.conns[id] == i
  {
    RunInvariant(cfg, steps);
  }

  /** A frame is only ever queued on a connection of the id it was addressed to. */
  lemma FramesReachTheirConnection(cfg: Config, steps: seq<Step>, i: nat, f: Frame)
    requires cfg.cap >= 0 && i < |Run(cfg, steps).all| && f in Run(cfg, steps).all[i].accepted
    ensures f.connId == Run(cfg, steps).all[i].id
  {
    RunInvariant(cfg, steps);
    assert Addressed(Run(cfg, steps).all[i]);
  }

  /** The delete by id that ends a connection removes that connection's own entry and no other, whatever was
      opened, closed or reset meanwhile; its done channel is closed exactly once, afterwards. */
  lemma EndingRemovesOnlyItself(cfg: Config, steps: seq<Step>, i: nat)
    requires cfg.cap >= 0 && Possible(cfg, Run(cfg, steps), Deregister(i))
    ensures var s := Run(cfg, steps); var t := Result(cfg, s, Deregister(i));
            && s.all[i].id in s.conns && s.conns[s.all[i].id] == i && s.all[i].doneCloses == 0
            && t.conns.Keys == s.conns.Keys - {s.all[i].id}
            && forall id :: id in t.conns ==> t.conns[id] == s.conns[id]
  {
    RunInvariant(cfg, steps);
    DeregisterKeepsExact(cfg, Run(cfg, steps), i);
    assert ConnOk(cfg, Run(cfg, steps).all[i]);
  }

  /** An open for a registered id, an empty id or a missing request changes nothing at all; any other open adds
      one connection and touches no existing one. */
  lemma OpenNeverDisturbs(cfg: Config, steps: seq<Step>, id: string, present: bool, bodyAllowed: bool)
    requires cfg.cap >= 0
    ensures var s := Run(cfg, steps); var t := Result(cfg, s, Open(id, present, bodyAllowed));
            Undisturbed(s, t) && (t != s <==> id != "" && present && NoneLive(s, id))
  {
    RunInvariant(cfg, steps);
    FreeMeansNoneLive(Run(cfg, steps), id);
    OpenAdds(cfg, Run(cfg, steps), id, present, bodyAllowed);
  }

  /** Every connection and every registration of s is still there in t. */
  ghost predicate Undisturbed(s: State, t: State) {
    s.all <= t.all && forall k :: k in s.conns ==> k in t.conns && t.conns[k] == s.conns[k]
  }

  ghost predicate NoneLive(s: State, id: string) {
    forall i :: 0 <= i < |s.all| && s.all[i].id == id ==> !LiveConn(s.all[i])
  }

  lemma OpenAdds(cfg: Config, s: State, id: string, present: bool, bodyAllowed: bool)
    ensures var t := Result(cfg, s, Open(id, present, bodyAllowed));
            Undisturbed(s, t) && (t != s <==> id != "" && present && id !in s.conns)
  {
    var t := Result(cfg, s, Open(id, present, bodyAllowed));
    assert t == s || |t.all| == |s.all| + 1;
  }

  lemma FreeMeansNoneLive(s: State, id: string)
    requires Exact(s)
    ensures id !in s.conns <==> NoneLive(s, id)
  {
    if id in s.conns {
      assert LiveConn(s.all[s.conns[id]]) && s.all[s.conns[id]].id == id;
    }
  }

  /** On every connection, at every moment: the bytes written are a prefix of the frames accepted, first the
      first target's and then the socket's, after at most one switch and at most one pipe close. */
  lemma InboundBytesAreAPrefix(cfg: Config, steps: seq<Step>, i: nat)
    requires cfg.cap >= 0 && i < |Run(cfg, steps).all|
    ensures var c := Run(cfg, steps).all[i];
            && c.writer.first + c.writer.socket <= Stream(c.accepted)
            && c.writer.switches <= 1 && c.writer.pipeCloses <= 1
            && (c.writer.switches == 0 ==> c.writer.socket == [])
  {
    RunInvariant(cfg, steps);
    assert ConnOk(cfg, Run(cfg, steps).all[i]);
    WrittenIsPrefix(cfg, Run(cfg, steps).all[i]);
  }

  /** Under every schedule nothing is written after a half-close: the bytes written are a prefix of the data of the
      accepted frames up to and including the first half-close, whatever was accepted behind it. */
  lemma NothingIsWrittenAfterHalfClose(cfg: Config, steps: seq<Step>, i: nat)
    requires cfg.cap >= 0 && i < |Run(cfg, steps).all|
    ensures var c := Run(cfg, steps).all[i];
            c.writer.first + c.writer.socket <= Stream(UpToHalfClose(c.accepted))
  {
    RunInvariant(cfg, steps);
    assert ConnOk(cfg, Run(cfg, steps).all[i]);
    WrittenUpToHalfClose(cfg, Run(cfg, steps).all[i]);
  }

  /** With headroom below 2^63, the two pumps together never relay more than the cap. */
  lemma CapHoldsOnEveryConnection(cfg: Config, steps: seq<Step>, i: nat)
    requires cfg.cap >= 0 && Headroom(cfg.cap, cfg.longestIn, cfg.frameSize) && i < |Run(cfg, steps).all|
    ensures var c := Run(cfg, steps).all[i];
            |c.writer.first| + |c.writer.socket| + |Flatten(c.chunks)| <= cfg.cap
  {
    RunInvariant(cfg, steps);
    assert ConnOk(cfg, Run(cfg, steps).all[i]);
    RelayedWithinCap(cfg, Run(cfg, steps).all[i]);
  }

  /** The trace of every ended connection, and what its frames carry. */
  lemma EndedConnectionsToldTheirStory(cfg: Config, steps: seq<Step>, i: nat)
    requires cfg.cap >= 0 && i < |Run(cfg, steps).all| && Run(cfg, steps).all[i].main.Ended?
    ensures var c := Run(cfg, steps).all[i]; var v := Visible(c.emitted);
            && (|| v == [OpenError, Close(OpenFailure)]
                || v == [OpenResult] + Frames(c.chunks)
                || (exists r :: v == [OpenResult] + Frames(c.chunks) + [Close(r)]
                                && (r == Complete ==> Flatten(c.chunks) == c.body)))
            && (forall k :: 0 <= k < |c.chunks| ==> 1 <= |c.chunks[k]| <= cfg.frameSize)
            && Flatten(c.chunks) <= c.body && |Flatten(c.chunks)| == c.meter.grantedOut
            && c.doneCloses == 1
  {
    RunInvariant(cfg, steps);
    assert ConnOk(cfg, Run(cfg, steps).all[i]);
    EndedTrace(cfg, Run(cfg, steps).all[i]);
  }

  /** Each refused charge is reported exactly once, so at most twice per connection, and cancels it; and a
      connection that ends without a Close of its own had been cancelled or refused, or its open failed. */
  lemma {:induction false} RefusalsAreReportedOnce(cfg: Config, steps: seq<Step>, i: nat)
    requires cfg.cap >= 0 && i < |Run(cfg, steps).all|
    ensures var c := Run(cfg, steps).all[i];
            && CapNotices(c.emitted) == Reported(c.inbound, c.main, c.meter) <= 2
            && (c.meter.refusedIn.Some? && c.inbound.Over? ==> CapNotices(c.emitted) > 0 && !c.ctx.Live?)
            && (c.meter.refusedOut.Some? && c.main.Ended? ==> CapNotices(c.emitted) > 0 && !c.ctx.Live?)
            && (c.farewell.Silent? ==> !c.ctx.Live?)
  {
    RunInvariant(cfg, steps);
    assert ConnOk(cfg, Run(cfg, steps).all[i]);
  }

  /** Before its farewell a connection's visible trace is empty, a failed open's result, or a result and frames. */
  lemma TraceBeforeFarewell(cfg: Config, steps: seq<Step>, i: nat)
    requires cfg.cap >= 0 && i < |Run(cfg, steps).all| && !Parting(Run(cfg, steps).all[i].main)
    ensures var c := Run(cfg, steps).all[i];
            Visible(c.emitted) in {[], [OpenError], [OpenResult] + Frames(c.chunks)} && Flatten(c.chunks) <= c.body
  {
    RunInvariant(cfg, steps);
    assert ConnOk(cfg, Run(cfg, steps).all[i]);
  }

  // ----- what stays put once it has happened

  /** A connection over one step: an action of its own or upon it, its deregistration, or nothing. */
  lemma OneStepOfAConnection(cfg: Config, s: State, step: Step, i: nat)
    requires Possible(cfg, s, step) && i < |s.all|
    ensures i < |Result(cfg, s, step).all|
    ensures var c, d := s.all[i], Result(cfg, s, step).all[i];
            d == c || exists a :: Enabled(cfg, c, a) && d == Effect(cfg, c, a)
  {
    match step {
      case Push(j, dropped) =>
        if !dropped && s.deliveries[j].conn == i { assert Enabled(cfg, s.all[i], PushAction(s, j)); }
      case CancelOne(k) => if k == i { assert Enabled(cfg, s.all[i], In(CancelConn)); }
      case Local(k, a) => if k == i { assert Enabled(cfg, s.all[i], a); }
      case Deregister(k) => if k == i { assert Enabled(cfg, s.all[i], Out(Delist)); }
      case _ =>
    }
  }

  lemma RunSnoc(cfg: Config, steps: seq<Step>, step: Step)
    ensures Run(cfg, steps + [step]) ==
            if Possible(cfg, Run(cfg, steps), step) then Result(cfg, Run(cfg, steps), step) else Run(cfg, steps)
  {
    assert (steps + [step])[..|steps|] == steps;
  }

  /** Once a connection's inbound pump is over, by half-close or otherwise, no schedule writes another byte. */
  lemma {:induction false} NothingIsWrittenAfterPumpEnd(cfg: Config, steps: seq<Step>, more: seq<Step>, i: nat)
    requires i < |Run(cfg, steps).all| && Run(cfg, steps).all[i].inbound.Over?
    ensures i < |Run(cfg, steps + more).all|
    ensures var c, d := Run(cfg, steps).all[i], Run(cfg, steps + more).all[i];
            d.inbound.Over? && d.writer.first == c.writer.first && d.writer.socket == c.writer.socket
  {
    if more == [] {
      assert steps + more == steps;
    } else {
      var front, last := more[..|more| - 1], more[|more| - 1];
      NothingIsWrittenAfterPumpEnd(cfg, steps, front, i);
      assert steps + more == steps + front + [last];
      RunSnoc(cfg, steps + front, last);
      var s := Run(cfg, steps + front);
      if Possible(cfg, s, last) {
        OneStepOfAConnection(cfg, s, last, i);
        var d := Result(cfg, s, last).all[i];
        if d != s.all[i] {
          var a :| Enabled(cfg, s.all[i], a) && d == Effect(cfg, s.all[i], a);
          NothingAfterPumpEnd(cfg, s.all[i], a);
        }
      }
    }
  }

  /** Once one charge on a connection was refused, no schedule grants another, on either side; so each pump is
      refused at most once. */
  lemma {:induction false} NothingIsGrantedAfterRefusal(cfg: Config, steps: seq<Step>, more: seq<Step>, i: nat)
    requires cfg.cap >= 0 && Headroom(cfg.cap, cfg.longestIn, cfg.frameSize) && i < |Run(cfg, steps).all|
    requires var m := Run(cfg, steps).all[i].meter; m.refusedIn.Some? || m.refusedOut.Some?
    ensures i < |Run(cfg, steps + more).all|
    ensures GrantsFrozen(Run(cfg, steps).all[i].meter, Run(cfg, steps + more).all[i].meter)
  {
    if more == [] {
      assert steps + more == steps;
    } else {
      var front, last := more[..|more| - 1], more[|more| - 1];
      NothingIsGrantedAfterRefusal(cfg, steps, front, i);
      assert steps + more == steps + front + [last];
      RunSnoc(cfg, steps + front, last);
      var s := Run(cfg, steps + front);
      RunInvariant(cfg, steps + front);
      if Possible(cfg, s, last) {
        OneStepOfAConnection(cfg, s, last, i);
        var d := Result(cfg, s, last).all[i];
        if d != s.all[i] {
          var a :| Enabled(cfg, s.all[i], a) && d == Effect(cfg, s.all[i], a);
          RefusalIsFinal(cfg, s.all[i], a);
        }
      }
    }
  }

  /** The waits of ResetAll: once every connection that was registered when it copied the registry has closed its
      done channel, none of them is registered any more, so whatever is registered by then was opened since. */
  lemma ResetOutlastsTheOldConnections(cfg: Config, steps: seq<Step>, more: seq<Step>, id: string)
    requires cfg.cap >= 0
    requires var s, t := Run(cfg, steps), Run(cfg, steps + more);
             forall i: nat :: i in s.conns.Values && i < |t.all| ==> t.all[i].doneCloses > 0
    requires id in Run(cfg, steps + more).conns
    ensures Run(cfg, steps + more).conns[id] !in Run(cfg, steps).conns.Values
  {
    RunInvariant(cfg, steps + more);
    var t := Run(cfg, steps + more);
    var i := t.conns[id];
    assert ConnOk(cfg, t.all[i]) && LiveConn(t.all[i]);
  }
}

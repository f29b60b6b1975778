/** What has become of a connection, told from the actions taken: its context, its traffic, its write target and the
    reason it closes with are functions of the actions alone, stated here without the step machine's own definitions. */
module History {
  import opened Common
  import opened ByteMeter
  import opened ConnWriter
  import opened Connection

  /** The connection after a sequence of actions, if each is enabled in its turn. */
  function After(cfg: Config, c: Conn, actions: seq<Action>): Option<Conn> {
    if actions == [] then Some(c) else
      var mid := After(cfg, c, actions[..|actions| - 1]);
      if mid.Some? && Enabled(cfg, mid.value, actions[|actions| - 1])
      then Some(Effect(cfg, mid.value, actions[|actions| - 1])) else Option.None
  }

  // ----- what the actions say

  function Front(actions: seq<Action>): seq<Action>
    requires actions != []
  {
    actions[..|actions| - 1]
  }

  function Last(actions: seq<Action>): Action
    requires actions != []
  {
    actions[|actions| - 1]
  }

  /** The first cancellation or expiry decides. */
  function CtxBy(actions: seq<Action>): Context {
    if actions == [] then Live
    else if !CtxBy(Front(actions)).Live? then CtxBy(Front(actions))
    else
      match Last(actions)
      case In(Expire) => Expired
      case In(CancelConn) => Cancelled
      case In(CutDenied) => Cancelled
      case Out(CutCapped) => Cancelled
      case Out(Leave) => Cancelled
      case _ => Live
  }

  /** The frames that found room, in order. */
  function AcceptedBy(actions: seq<Action>): seq<Frame> {
    if actions == [] then [] else
      AcceptedBy(Front(actions)) +
      match Last(actions)
      case In(Accept(f)) => [f]
      case _ => []
  }

  /** How many frames found the queue full. */
  function OverflowsBy(actions: seq<Action>): nat {
    if actions == [] then 0 else OverflowsBy(Front(actions)) + if Last(actions) == In(Overflow) then 1 else 0
  }

  /** What the response body delivered. */
  function BodyBy(actions: seq<Action>): seq<byte> {
    if actions == [] then [] else
      BodyBy(Front(actions)) +
      match Last(actions)
      case Out(ReadBody(data, _)) => data
      case _ => []
  }

  datatype Dial = Pending | Refused | Answered(upgraded: bool)

  function DialBy(actions: seq<Action>): Dial {
    if actions == [] then Pending else
      match Last(actions)
      case Out(DialFails) => Refused
      case Out(DialSucceeds(upgraded)) => Answered(upgraded)
      case _ => DialBy(Front(actions))
  }

  /** How the last body read ended. */
  function LastRead(actions: seq<Action>): Option<End> {
    if actions == [] then Option.None else
      match Last(actions)
      case Out(ReadBody(_, end)) => Some(end)
      case _ => LastRead(Front(actions))
  }

  /** The context when the end of the last read was looked at. */
  function DecidedIn(actions: seq<Action>): Context {
    if actions == [] then Live
    else if Last(actions) == Out(Decide) then CtxBy(Front(actions))
    else DecidedIn(Front(actions))
  }

  /** An upgraded open has switched the target. */
  function SwitchedBy(actions: seq<Action>): bool {
    actions != [] &&
    (SwitchedBy(Front(actions)) || (Last(actions) == Out(Upgrade) && DialBy(Front(actions)) == Answered(true)))
  }

  function WriteFailedBy(actions: seq<Action>): bool {
    actions != [] &&
    (|| WriteFailedBy(Front(actions))
     || (Last(actions).In? && Last(actions).inAction.WriteFrame? && Last(actions).inAction.fails))
  }

  /** The reason a connection whose charges were granted closes with. */
  function ReasonBy(end: Option<End>, ctx: Context): Option<Reason> {
    if end == Some(Eof) then Some(Complete)
    else if end == Some(ReadError) && ctx == Live then Some(ReadFailure)
    else if end == Some(ReadError) && ctx == Expired then Some(LifetimeExceeded)
    else Option.None
  }

  function Notices(ms: seq<Message>, m: Message): nat {
    if ms == [] then 0 else Notices(ms[..|ms| - 1], m) + if ms[|ms| - 1] == m then 1 else 0
  }

  lemma NoticesSnoc(ms: seq<Message>, m: Message, last: Message)
    ensures Notices(ms + [last], m) == Notices(ms, m) + if last == m then 1 else 0
  {
    assert (ms + [last])[..|ms|] == ms;
  }

  // ----- the machine agrees

  /** The connection's goroutine is where dial, reads and decisions have brought it. */
  predicate MainTold(actions: seq<Action>, main: Main, farewell: Farewell, refused: bool) {
    var dial, reason := DialBy(actions), ReasonBy(LastRead(actions), DecidedIn(actions));
    && (refused ==> main.Capped? || main.CapTold? || main.Finishing? || Parting(main))
    && (farewell.None? <==> !Parting(main))
    && match main
       case Dialing => dial.Pending?
       case DialFailed => dial.Refused?
       case FailureReported => dial.Refused?
       case Dialed(upgraded) => dial == Answered(upgraded)
       case ResultSent(upgraded) => dial == Answered(upgraded)
       case Reading => dial.Answered?
       case Read(_, end) => dial.Answered? && LastRead(actions) == Some(end)
       case Charged(_, end) => dial.Answered? && LastRead(actions) == Some(end)
       case Deciding(end) => dial.Answered? && LastRead(actions) == Some(end)
       case Finishing(r) => dial.Answered? && Concludes(actions, r, refused)
       case Capped => dial.Answered? && refused
       case CapTold => dial.Answered? && refused
       case _ =>
         (match farewell
          case OpenFailed => dial.Refused? && !refused
          case Silent => dial.Answered? && Concludes(actions, Option.None, refused)
          case Said(r) => dial.Answered? && Concludes(actions, Some(r), refused)
          case None => false)
  }

  /** Reading ended by a refusal, or by an end that gives this reason or none. */
  predicate Concludes(actions: seq<Action>, reason: Option<Reason>, refused: bool) {
    if refused then reason == Option.None
    else LastRead(actions) in {Some(Eof), Some(ReadError)} && reason == ReasonBy(LastRead(actions), DecidedIn(actions))
  }

  lemma InLeavesMainTold(cfg: Config, actions: seq<Action>, c: Conn)
    requires actions != [] && Last(actions).In? && InEnabled(cfg, c, Last(actions).inAction)
    requires MainTold(Front(actions), c.main, c.farewell, c.meter.refusedOut.Some?)
    ensures var d := InEffect(cfg, c, Last(actions).inAction);
            MainTold(actions, d.main, d.farewell, d.meter.refusedOut.Some?)
  {
    InStepLeavesMain(cfg, c, Last(actions).inAction);
    InStepLeavesOutMeter(cfg, c, Last(actions).inAction);
  }

  /** What an action of the connection's goroutine adds to dial, reads and decisions. */
  lemma OutObserved(actions: seq<Action>, a: OutAction)
    requires actions != [] && Last(actions) == Out(a)
    ensures DialBy(actions) == match a
                               case DialFails => Refused
                               case DialSucceeds(upgraded) => Answered(upgraded)
                               case _ => DialBy(Front(actions))
    ensures LastRead(actions) == if a.ReadBody? then Some(a.end) else LastRead(Front(actions))
    ensures DecidedIn(actions) == if a.Decide? then CtxBy(Front(actions)) else DecidedIn(Front(actions))
  {
  }

  lemma OutKeepsMainTold(cfg: Config, actions: seq<Action>, c: Conn)
    requires actions != [] && Last(actions).Out? && OutEnabled(cfg, c, Last(actions).outAction)
    requires MainTold(Front(actions), c.main, c.farewell, c.meter.refusedOut.Some?) && c.ctx == CtxBy(Front(actions))
    ensures var d := OutEffect(cfg, c, Last(actions).outAction);
            MainTold(actions, d.main, d.farewell, d.meter.refusedOut.Some?)
  {
    OutObserved(actions, Last(actions).outAction);
  }

  predicate CtxTold(actions: seq<Action>, ctx: Context) {
    ctx == CtxBy(actions)
  }

  lemma StepKeepsCtxTold(cfg: Config, actions: seq<Action>, c: Conn)
    requires actions != [] && Enabled(cfg, c, Last(actions)) && CtxTold(Front(actions), c.ctx)
    ensures CtxTold(actions, Effect(cfg, c, Last(actions)).ctx)
  {
  }

  predicate TrafficTold(actions: seq<Action>, accepted: seq<Frame>, body: seq<byte>, emitted: seq<Message>) {
    && accepted == AcceptedBy(actions) && body == BodyBy(actions)
    && Notices(emitted, OVERFLOW_NOTICE) == OverflowsBy(actions)
  }

  /** What an action of the inbound side adds to the traffic. */
  lemma InTraffic(cfg: Config, c: Conn, a: InAction)
    requires InEnabled(cfg, c, a)
    ensures var d := InEffect(cfg, c, a); d.accepted == c.accepted + (if a.Accept? then [a.frame] else [])
    ensures InEffect(cfg, c, a).emitted ==
            c.emitted + if a.Overflow? then [OVERFLOW_NOTICE] else if a.TellDenied? then [CAP_NOTICE] else []
  {
  }

  lemma InObserved(actions: seq<Action>, a: InAction)
    requires actions != [] && Last(actions) == In(a)
    ensures AcceptedBy(actions) == AcceptedBy(Front(actions)) + (if a.Accept? then [a.frame] else [])
    ensures BodyBy(actions) == BodyBy(Front(actions))
    ensures OverflowsBy(actions) == OverflowsBy(Front(actions)) + if a.Overflow? then 1 else 0
  {
    assert BodyBy(Front(actions)) + [] == BodyBy(Front(actions));
  }

  lemma InKeepsTrafficTold(cfg: Config, actions: seq<Action>, c: Conn)
    requires actions != [] && Last(actions).In? && InEnabled(cfg, c, Last(actions).inAction)
    requires TrafficTold(Front(actions), c.accepted, c.body, c.emitted)
    ensures var d := InEffect(cfg, c, Last(actions).inAction); TrafficTold(actions, d.accepted, d.body, d.emitted)
  {
    var a := Last(actions).inAction;
    InObserved(actions, a);
    InTraffic(cfg, c, a);
    InStepLeavesMain(cfg, c, a);
    if a.Overflow? { NoticesSnoc(c.emitted, OVERFLOW_NOTICE, OVERFLOW_NOTICE); }
    else if a.TellDenied? { NoticesSnoc(c.emitted, OVERFLOW_NOTICE, CAP_NOTICE); }
    else { assert c.emitted + [] == c.emitted; }
  }

  lemma OutKeepsTrafficTold(cfg: Config, actions: seq<Action>, c: Conn)
    requires actions != [] && Last(actions).Out? && OutEnabled(cfg, c, Last(actions).outAction)
    requires TrafficTold(Front(actions), c.accepted, c.body, c.emitted)
    requires c.main.Finishing? ==> c.main.reason != Some(InboundOverflow)
    ensures var d := OutEffect(cfg, c, Last(actions).outAction); TrafficTold(actions, d.accepted, d.body, d.emitted)
  {
    match Last(actions).outAction {
      case ReportFailure => NoticesSnoc(c.emitted, OVERFLOW_NOTICE, OpenError);
      case CloseFailed => NoticesSnoc(c.emitted, OVERFLOW_NOTICE, Close(OpenFailure));
      case ReportResult => NoticesSnoc(c.emitted, OVERFLOW_NOTICE, OpenResult);
      case SendChunk => NoticesSnoc(c.emitted, OVERFLOW_NOTICE, Data(c.main.data));
      case ReportCap => NoticesSnoc(c.emitted, OVERFLOW_NOTICE, CAP_NOTICE);
      case Finish => if c.main.reason.Some? { NoticesSnoc(c.emitted, OVERFLOW_NOTICE, Close(c.main.reason.value)); }
      case _ =>
    }
  }

  /** The target is what the open and the upgrade made it; the pipe is closed just when the target was switched or the
      inbound pump ended other than by a failed write. */
  predicate WriterTold(bodyAllowed: bool, actions: seq<Action>, w: Writer, inbound: Inbound, main: Main) {
    && (SwitchedBy(actions) <==> DialBy(actions) == Answered(true) && Dialled(main) && !main.ResultSent?)
    && w.hasPipe == bodyAllowed
    && w.target == (if SwitchedBy(actions) then Socket else if bodyAllowed then BodyPipe else Discarded)
    && w.switches == (if SwitchedBy(actions) then 1 else 0)
    && (WriteFailedBy(actions) ==> inbound.Over?)
    && (w.pipeClosed <==> bodyAllowed && (SwitchedBy(actions) || (inbound.Over? && !WriteFailedBy(actions))))
  }

  lemma InKeepsWriterTold(cfg: Config, bodyAllowed: bool, actions: seq<Action>, c: Conn)
    requires actions != [] && Last(actions).In? && InEnabled(cfg, c, Last(actions).inAction)
    requires WriterTold(bodyAllowed, Front(actions), c.writer, c.inbound, c.main)
    ensures var d := InEffect(cfg, c, Last(actions).inAction);
            WriterTold(bodyAllowed, actions, d.writer, d.inbound, d.main)
  {
    InStepLeavesMain(cfg, c, Last(actions).inAction);
    assert SwitchedBy(actions) == SwitchedBy(Front(actions)) && DialBy(actions) == DialBy(Front(actions));
  }

  lemma OutKeepsWriterTold(cfg: Config, bodyAllowed: bool, actions: seq<Action>, c: Conn)
    requires actions != [] && Last(actions).Out? && OutEnabled(cfg, c, Last(actions).outAction)
    requires WriterTold(bodyAllowed, Front(actions), c.writer, c.inbound, c.main)
    requires MainTold(Front(actions), c.main, c.farewell, c.meter.refusedOut.Some?)
    ensures var d := OutEffect(cfg, c, Last(actions).outAction);
            WriterTold(bodyAllowed, actions, d.writer, d.inbound, d.main)
  {
    OutObserved(actions, Last(actions).outAction);
    assert WriteFailedBy(actions) == WriteFailedBy(Front(actions));
  }

  ghost predicate Told(bodyAllowed: bool, actions: seq<Action>, c: Conn) {
    && CtxTold(actions, c.ctx)
    && MainTold(actions, c.main, c.farewell, c.meter.refusedOut.Some?)
    && TrafficTold(actions, c.accepted, c.body, c.emitted)
    && WriterTold(bodyAllowed, actions, c.writer, c.inbound, c.main)
  }

  lemma NewIsTold(c: Conn, bodyAllowed: bool)
    requires c == New(c.id, bodyAllowed)
    ensures Told(bodyAllowed, [], c)
  {
  }

  lemma StepKeepsTold(cfg: Config, bodyAllowed: bool, actions: seq<Action>, c: Conn)
    requires actions != [] && Enabled(cfg, c, Last(actions)) && Told(bodyAllowed, Front(actions), c)
    ensures Told(bodyAllowed, actions, Effect(cfg, c, Last(actions)))
  {
    StepKeepsCtxTold(cfg, actions, c);
    if Last(actions).In? {
      InLeavesMainTold(cfg, actions, c);
      InKeepsTrafficTold(cfg, actions, c);
      InKeepsWriterTold(cfg, bodyAllowed, actions, c);
    } else {
      OutKeepsMainTold(cfg, actions, c);
      OutKeepsTrafficTold(cfg, actions, c);
      OutKeepsWriterTold(cfg, bodyAllowed, actions, c);
    }
  }

  /** After every sequence of actions a new connection is as the actions tell. */
  lemma {:induction false} ActionsTell(cfg: Config, start: Conn, bodyAllowed: bool, actions: seq<Action>, c: Conn)
    requires start == New(start.id, bodyAllowed) && After(cfg, start, actions) == Some(c)
    ensures Told(bodyAllowed, actions, c)
  {
    if actions == [] {
      NewIsTold(start, bodyAllowed);
    } else {
      var mid := After(cfg, start, Front(actions)).value;
      ActionsTell(cfg, start, bodyAllowed, Front(actions), mid);
      StepKeepsTold(cfg, bodyAllowed, actions, mid);
    }
  }

  /** How a connection that takes leave closes: as its dial, its last read, the context at that read's end and the byte
      cap have it, each reason exactly in its own case. */
  lemma ReasonsAreTold(bodyAllowed: bool, actions: seq<Action>, c: Conn)
    requires Told(bodyAllowed, actions, c) && Parting(c.main)
    ensures c.farewell == OpenFailed <==> DialBy(actions) == Refused
    ensures c.meter.refusedOut.Some? ==> c.farewell == Silent
    ensures DialBy(actions).Answered? && c.meter.refusedOut.None? ==>
              && (c.farewell == Said(Complete) <==> LastRead(actions) == Some(Eof))
              && (c.farewell == Said(ReadFailure) <==> LastRead(actions) == Some(ReadError) && DecidedIn(actions).Live?)
              && (c.farewell == Said(LifetimeExceeded) <==>
                    LastRead(actions) == Some(ReadError) && DecidedIn(actions).Expired?)
              && (c.farewell == Silent <==> LastRead(actions) == Some(ReadError) && DecidedIn(actions).Cancelled?)
  {
  }
}

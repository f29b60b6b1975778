/** One tunnelled connection of internal/tunnelagent/handler.go as a step machine: the connection's own
    goroutine with its outbound pump, the inbound pump, and events from outside, interleaved in any way. */
module Connection {
  import opened Common
  import opened ByteMeter
  import opened ConnWriter

  const QUEUE_CAPACITY: nat := 64

  /** Effective settings; longestIn bounds the frames of the schedule under consideration. */
  datatype Config = Config(frameSize: nat, cap: int, longestIn: nat)

  /** An inbound frame, with the connection id its message was addressed to. */
  datatype Frame = Frame(connId: string, data: seq<byte>, halfClose: bool)

  /** The reasons a Close carries on the wire: open-failed, complete, read-error, max-lifetime-exceeded,
      byte-cap-exceeded and inbound-overflow. */
  datatype Reason = OpenFailure | Complete | ReadFailure | LifetimeExceeded | CapExceeded | InboundOverflow

  datatype Message = OpenError | OpenResult | Data(data: seq<byte>) | Close(reason: Reason)

  datatype Context = Live | Cancelled | Expired

  /** The inbound pump between two of its actions. */
  datatype Inbound = Idle | Holding(frame: Frame) | Cleared(frame: Frame) | Forwarded(frame: Frame)
                     | Denied | DenialTold | DenialCut | Over

  /** How a body read ends. */
  datatype End = More | Eof | ReadError

  /** The connection's goroutine between two of its actions. */
  datatype Main =
    | Dialing
    | DialFailed
    | FailureReported
    | Dialed(upgraded: bool)
    | ResultSent(upgraded: bool)
    | Reading
    | Read(data: seq<byte>, end: End)
    | Charged(data: seq<byte>, end: End)
    | Capped
    | CapTold
    | Deciding(end: End)
    | Finishing(reason: Option<Reason>)
    | Leaving
    | Unregistering
    | Signalling
    | Ended

  /** How the connection took leave of the hub. */
  datatype Farewell = None | OpenFailed | Silent | Said(reason: Reason)

  /** `accepted` and `eaten` are the frames ever queued and ever dequeued, `body` the bytes read from the
      response, `chunks` the payloads framed; the rest is the connection's own state. */
  datatype Conn = Conn(id: string, ctx: Context, doneCloses: nat,
                       queue: seq<Frame>, accepted: seq<Frame>, eaten: seq<Frame>,
                       meter: Meter, writer: Writer, inbound: Inbound,
                       main: Main, body: seq<byte>, chunks: seq<seq<byte>>, farewell: Farewell,
                       emitted: seq<Message>)

  function New(id: string, bodyAllowed: bool): Conn {
    Conn(id, Live, 0, [], [], [], FRESH, Initial(bodyAllowed), Idle, Dialing, [], [], Farewell.None, [])
  }

  function Cut(ctx: Context): Context {
    if ctx.Live? then Cancelled else ctx
  }

  function Cancel(c: Conn): Conn {
    c.(ctx := Cut(c.ctx))
  }

  function Emit(c: Conn, m: Message): Conn {
    c.(emitted := c.emitted + [m])
  }

  const CAP_NOTICE: Message := Close(CapExceeded)
  const OVERFLOW_NOTICE: Message := Close(InboundOverflow)

  // ----- the inbound pump and events from outside

  datatype InAction =
    | Accept(frame: Frame)               // deliverFrame finds room in the queue
    | Overflow                           // ... or a full queue; the cancel is a later step
    | CancelConn                         // hub close or reset
    | Expire                             // the lifetime ends
    | TakeFrame
    | StopPump                           // context or done channel observed
    | ChargeFrame
    | TellDenied                         // a refused charge is reported,
    | CutDenied                          // cancels the connection,
    | CloseDenied                        // and closes the pipe
    | WriteFrame(n: nat, fails: bool)
    | AfterWrite

  predicate InEnabled(cfg: Config, c: Conn, a: InAction) {
    match a
    case Accept(f) => |c.queue| < QUEUE_CAPACITY && |f.data| <= cfg.longestIn
    case Overflow => |c.queue| >= QUEUE_CAPACITY && c.doneCloses == 0
    case CancelConn => true
    case Expire => c.ctx.Live?
    case TakeFrame => c.inbound.Idle? && c.queue != []
    case StopPump => c.inbound.Idle? && (!c.ctx.Live? || c.doneCloses > 0)
    case ChargeFrame => c.inbound.Holding?
    case TellDenied => c.inbound.Denied?
    case CutDenied => c.inbound.DenialTold?
    case CloseDenied => c.inbound.DenialCut?
    case WriteFrame(n, fails) => c.inbound.Cleared?
      && n <= |c.inbound.frame.data| && (n < |c.inbound.frame.data| ==> fails)
    case AfterWrite => c.inbound.Forwarded?
  }

  function InEffect(cfg: Config, c: Conn, a: InAction): Conn
    requires InEnabled(cfg, c, a)
  {
    match a
    case Accept(f) => c.(queue := c.queue + [f], accepted := c.accepted + [f])
    case Overflow => Emit(c, OVERFLOW_NOTICE)
    case CancelConn => Cancel(c)
    case Expire => c.(ctx := Expired)
    case TakeFrame => c.(queue := c.queue[1..], eaten := c.eaten + [c.queue[0]], inbound := Holding(c.queue[0]))
    case StopPump => c.(writer := PipeShut(c.writer), inbound := Over)
    case ChargeFrame =>
      var f := c.inbound.frame;
      if f.data == [] then c.(inbound := Forwarded(f))
      else c.(meter := Charge(c.meter, cfg.cap, Side.Inbound, |f.data|),
              inbound := if Grants(c.meter, cfg.cap, |f.data|) then Cleared(f) else Denied)
    case TellDenied => Emit(c, CAP_NOTICE).(inbound := DenialTold)
    case CutDenied => Cancel(c).(inbound := DenialCut)
    case CloseDenied => c.(writer := PipeShut(c.writer), inbound := Over)
    case WriteFrame(n, fails) =>
      c.(writer := Wrote(c.writer, c.inbound.frame.data[..n]),
         inbound := if fails then Over else Forwarded(c.inbound.frame))
    case AfterWrite =>
      if c.inbound.frame.halfClose then c.(writer := PipeShut(c.writer), inbound := Over) else c.(inbound := Idle)
  }

  // ----- the connection's own goroutine

  datatype OutAction =
    | DialFails
    | DialSucceeds(upgraded: bool)
    | ReportFailure
    | CloseFailed
    | ReportResult
    | Upgrade
    | ReadBody(data: seq<byte>, end: End)
    | ChargeChunk
    | SendChunk
    | ReportCap
    | CutCapped
    | Decide
    | Finish
    | Leave
    | Delist                             // unregister's delete
    | SignalDone

  predicate OutEnabled(cfg: Config, c: Conn, a: OutAction) {
    match a
    case DialFails => c.main.Dialing?
    case DialSucceeds(_) => c.main.Dialing?
    case ReportFailure => c.main.DialFailed?
    case CloseFailed => c.main.FailureReported?
    case ReportResult => c.main.Dialed?
    case Upgrade => c.main.ResultSent?
    case ReadBody(data, _) => c.main.Reading? && |data| <= cfg.frameSize
    case ChargeChunk => c.main.Read?
    case SendChunk => c.main.Charged?
    case ReportCap => c.main.Capped?
    case CutCapped => c.main.CapTold?
    case Decide => c.main.Deciding?
    case Finish => c.main.Finishing?
    case Leave => c.main.Leaving?
    case Delist => c.main.Unregistering?
    case SignalDone => c.main.Signalling?
  }

  /** What a read's end means: go on, or the reason to close with, if any. */
  function Verdict(end: End, ctx: Context): Main {
    match end
    case More => Reading
    case Eof => Finishing(Some(Complete))
    case ReadError =>
      match ctx
      case Live => Finishing(Some(ReadFailure))
      case Expired => Finishing(Some(LifetimeExceeded))
      case Cancelled => Finishing(Option.None)
  }

  function OutEffect(cfg: Config, c: Conn, a: OutAction): Conn
    requires OutEnabled(cfg, c, a)
  {
    match a
    case DialFails => c.(main := DialFailed)
    case DialSucceeds(upgraded) => c.(main := Dialed(upgraded))
    case ReportFailure => Emit(c, OpenError).(main := FailureReported)
    case CloseFailed => Emit(c, Close(OpenFailure)).(main := Leaving, farewell := OpenFailed)
    case ReportResult => Emit(c, OpenResult).(main := ResultSent(c.main.upgraded))
    case Upgrade => c.(writer := if c.main.upgraded then Upgraded(c.writer) else c.writer, main := Reading)
    case ReadBody(data, end) => c.(body := c.body + data, main := Read(data, end))
    case ChargeChunk =>
      var data, end := c.main.data, c.main.end;
      if data == [] then c.(main := Deciding(end))
      else c.(meter := Charge(c.meter, cfg.cap, Side.Outbound, |data|),
              main := if Grants(c.meter, cfg.cap, |data|) then Charged(data, end) else Capped)
    case SendChunk => Emit(c, Data(c.main.data)).(chunks := c.chunks + [c.main.data], main := Deciding(c.main.end))
    case ReportCap => Emit(c, CAP_NOTICE).(main := CapTold)
    case CutCapped => Cancel(c).(main := Finishing(Option.None))
    case Decide => c.(main := Verdict(c.main.end, c.ctx))
    case Finish =>
      (match c.main.reason
       case Some(r) => Emit(c, Close(r)).(main := Leaving, farewell := Said(r))
       case None => c.(main := Leaving, farewell := Silent))
    case Leave => Cancel(c).(main := Unregistering)
    case Delist => c.(main := Signalling)
    case SignalDone => c.(main := Ended, doneCloses := c.doneCloses + 1)
  }

  // ----- what reaches the write targets

  function Stream(frames: seq<Frame>): seq<byte> {
    if frames == [] then [] else Stream(frames[..|frames| - 1]) + frames[|frames| - 1].data
  }

  lemma {:induction false} StreamConcat(a: seq<Frame>, b: seq<Frame>)
    ensures Stream(a + b) == Stream(a) + Stream(b)
  {
    if b == [] {
      assert a + b == a;
    } else {
      assert (a + b)[..|a + b| - 1] == a + b[..|b| - 1];
      StreamConcat(a, b[..|b| - 1]);
    }
  }

  /** Everything dequeued before the frame in hand has been written in full; once the pump is over, what was
      written is a prefix. The bytes granted cover the bytes written. */
  ghost predicate InboundOk(c: Conn) {
    && c.accepted == c.eaten + c.queue
    && WriterOk(c.writer)
    && var written := Written(c.writer);
       match c.inbound
       case Idle => written == Stream(c.eaten) && |written| <= c.meter.grantedIn
       case Holding(f) => HasInHand(c, f) && |written| <= c.meter.grantedIn
       case Cleared(f) => HasInHand(c, f) && |written| + |f.data| <= c.meter.grantedIn
       case Forwarded(f) => c.eaten != [] && c.eaten[|c.eaten| - 1] == f
         && written == Stream(c.eaten) && |written| <= c.meter.grantedIn
       case _ => written <= Stream(c.eaten) && |written| <= c.meter.grantedIn
  }

  ghost predicate HasInHand(c: Conn, f: Frame) {
    c.eaten != [] && c.eaten[|c.eaten| - 1] == f && Written(c.writer) == Stream(c.eaten[..|c.eaten| - 1])
  }

  lemma WroteGrows(w: Writer, p: seq<byte>)
    requires WriterOk(w)
    ensures Written(Wrote(w, p)) == Written(w) + p && WriterOk(Wrote(w, p))
  {
    if !w.target.Socket? { assert w.first + p + [] == w.first + [] + p; }
  }

  lemma WriteKeepsInbound(cfg: Config, c: Conn, n: nat, fails: bool)
    requires InboundOk(c) && InEnabled(cfg, c, WriteFrame(n, fails))
    ensures InboundOk(InEffect(cfg, c, WriteFrame(n, fails)))
  {
    var f := c.inbound.frame;
    WroteGrows(c.writer, f.data[..n]);
    assert Stream(c.eaten) == Stream(c.eaten[..|c.eaten| - 1]) + f.data;
    if n == |f.data| { assert f.data[..n] == f.data; }
  }

  lemma TakeKeepsInbound(cfg: Config, c: Conn)
    requires InboundOk(c) && InEnabled(cfg, c, TakeFrame)
    ensures InboundOk(InEffect(cfg, c, TakeFrame))
  {
    var f := c.queue[0];
    assert c.eaten + c.queue == c.eaten + [f] + c.queue[1..];
    assert (c.eaten + [f])[..|c.eaten|] == c.eaten;
  }

  lemma ChargeKeepsInbound(cfg: Config, c: Conn)
    requires InboundOk(c) && InEnabled(cfg, c, ChargeFrame)
    ensures InboundOk(InEffect(cfg, c, ChargeFrame))
  {
    assert Stream(c.eaten) == Stream(c.eaten[..|c.eaten| - 1]) + c.inbound.frame.data;
    assert Stream(c.eaten[..|c.eaten| - 1]) + [] == Stream(c.eaten[..|c.eaten| - 1]);
  }

  lemma InStepKeepsInbound(cfg: Config, c: Conn, a: InAction)
    requires InboundOk(c) && InEnabled(cfg, c, a)
    ensures InboundOk(InEffect(cfg, c, a))
  {
    match a {
      case Accept(f) => assert c.eaten + (c.queue + [f]) == c.eaten + c.queue + [f];
      case TakeFrame => TakeKeepsInbound(cfg, c);
      case WriteFrame(n, fails) => WriteKeepsInbound(cfg, c, n, fails);
      case ChargeFrame => ChargeKeepsInbound(cfg, c);
      case _ =>
    }
  }

  lemma OutStepKeepsInbound(cfg: Config, c: Conn, a: OutAction)
    requires InboundOk(c) && OutEnabled(cfg, c, a) && (a.Upgrade? ==> !c.writer.target.Socket?)
    ensures InboundOk(OutEffect(cfg, c, a))
  {
    var d := OutEffect(cfg, c, a);
    assert d.inbound == c.inbound && d.eaten == c.eaten && d.queue == c.queue && d.accepted == c.accepted;
    assert d.meter.grantedIn == c.meter.grantedIn;
    assert Written(d.writer) == Written(c.writer);
  }

  // ----- half-close

  /** Only the last frame dequeued may be a half-close, and a pump that goes on has not met one. */
  predicate HalfCloseOk(inbound: Inbound, eaten: seq<Frame>) {
    && (forall i :: 0 <= i < |eaten| - 1 ==> !eaten[i].halfClose)
    && (inbound.Idle? && eaten != [] ==> !eaten[|eaten| - 1].halfClose)
  }

  lemma InStepKeepsHalfClose(cfg: Config, c: Conn, a: InAction)
    requires InboundOk(c) && HalfCloseOk(c.inbound, c.eaten) && InEnabled(cfg, c, a)
    ensures HalfCloseOk(InEffect(cfg, c, a).inbound, InEffect(cfg, c, a).eaten)
  {
    if a.AfterWrite? { assert c.eaten[|c.eaten| - 1] == c.inbound.frame; }
  }

  lemma OutStepLeavesInbound(cfg: Config, c: Conn, a: OutAction)
    requires OutEnabled(cfg, c, a)
    ensures OutEffect(cfg, c, a).inbound == c.inbound && OutEffect(cfg, c, a).eaten == c.eaten
  {
  }

  /** The frames up to and including the first half-close. */
  function UpToHalfClose(frames: seq<Frame>): seq<Frame> {
    if frames == [] then []
    else if frames[0].halfClose then [frames[0]]
    else [frames[0]] + UpToHalfClose(frames[1..])
  }

  lemma {:induction false} EatenUpToHalfClose(eaten: seq<Frame>, queue: seq<Frame>)
    requires forall i :: 0 <= i < |eaten| - 1 ==> !eaten[i].halfClose
    ensures eaten <= UpToHalfClose(eaten + queue)
  {
    if eaten != [] {
      EatenUpToHalfClose(eaten[1..], queue);
      assert (eaten + queue)[1..] == eaten[1..] + queue;
      assert eaten == [eaten[0]] + eaten[1..];
    }
  }

  lemma StreamOfPrefix(a: seq<Frame>, b: seq<Frame>)
    requires a <= b
    ensures Stream(a) <= Stream(b)
  {
    StreamConcat(a, b[|a|..]);
    assert a + b[|a|..] == b;
  }

  // ----- what is emitted

  predicate IsNotice(m: Message) {
    m == CAP_NOTICE || m == OVERFLOW_NOTICE
  }

  /** The emitted messages without overflow and byte-cap notices. */
  function Visible(ms: seq<Message>): seq<Message> {
    if ms == [] then [] else
      Visible(ms[..|ms| - 1]) + if IsNotice(ms[|ms| - 1]) then [] else [ms[|ms| - 1]]
  }

  lemma VisibleSnoc(ms: seq<Message>, m: Message)
    ensures Visible(ms + [m]) == Visible(ms) + if IsNotice(m) then [] else [m]
  {
    assert (ms + [m])[..|ms|] == ms;
  }

  function Frames(chunks: seq<seq<byte>>): seq<Message> {
    seq(|chunks|, i requires 0 <= i < |chunks| => Data(chunks[i]))
  }

  predicate Dialled(main: Main) {
    !(main.Dialing? || main.DialFailed? || main.FailureReported? || main.Dialed?)
  }

  predicate Parting(main: Main) {
    main.Leaving? || main.Unregistering? || main.Signalling? || main.Ended?
  }

  /** The visible messages a connection has emitted at each point of its life. */
  function Transcript(main: Main, farewell: Farewell, chunks: seq<seq<byte>>): seq<Message> {
    match farewell
    case None =>
      if main.FailureReported? then [OpenError]
      else if !Dialled(main) then []
      else [OpenResult] + Frames(chunks)
    case OpenFailed => [OpenError, Close(OpenFailure)]
    case Silent => [OpenResult] + Frames(chunks)
    case Said(reason) => [OpenResult] + Frames(chunks) + [Close(reason)]
  }

  ghost predicate TranscriptOk(main: Main, farewell: Farewell, chunks: seq<seq<byte>>, emitted: seq<Message>) {
    && Visible(emitted) == Transcript(main, farewell, chunks)
    && (farewell.None? <==> !Parting(main))
    && (!Dialled(main) ==> chunks == [])
    && (main.Finishing? && main.reason.Some? ==> !IsNotice(Close(main.reason.value)))
  }

  lemma InStepKeepsTranscript(cfg: Config, c: Conn, a: InAction)
    requires TranscriptOk(c.main, c.farewell, c.chunks, c.emitted) && InEnabled(cfg, c, a)
    ensures var d := InEffect(cfg, c, a); TranscriptOk(d.main, d.farewell, d.chunks, d.emitted)
  {
    match a {
      case Overflow => VisibleSnoc(c.emitted, OVERFLOW_NOTICE);
      case TellDenied => VisibleSnoc(c.emitted, CAP_NOTICE);
      case _ =>
    }
  }

  lemma FramesSnoc(chunks: seq<seq<byte>>, data: seq<byte>)
    ensures Frames(chunks + [data]) == Frames(chunks) + [Data(data)]
  {
  }

  lemma SaidData(main: Main, chunks: seq<seq<byte>>, emitted: seq<Message>, data: seq<byte>, main': Main)
    requires TranscriptOk(main, Farewell.None, chunks, emitted) && Dialled(main) && main'.Deciding?
    ensures TranscriptOk(main', Farewell.None, chunks + [data], emitted + [Data(data)])
  {
    VisibleSnoc(emitted, Data(data));
    FramesSnoc(chunks, data);
  }

  /** Appending a message the transcript calls for next. */
  lemma Said1(main: Main, farewell: Farewell, chunks: seq<seq<byte>>, emitted: seq<Message>,
              m: Message, main': Main, farewell': Farewell)
    requires TranscriptOk(main, farewell, chunks, emitted) && farewell.None?
    requires Transcript(main', farewell', chunks) ==
             Transcript(main, farewell, chunks) + if IsNotice(m) then [] else [m]
    requires (farewell'.None? <==> !Parting(main')) && (!Dialled(main') ==> chunks == [])
    requires main'.Finishing? ==> main'.reason.None?
    ensures TranscriptOk(main', farewell', chunks, emitted + [m])
  {
    VisibleSnoc(emitted, m);
  }

  predicate Emits(a: OutAction) {
    a.ReportFailure? || a.CloseFailed? || a.ReportResult? || a.SendChunk? || a.ReportCap? || a.Finish?
  }

  /** Points of a connection's life at which the same has been said. */
  predicate SameStage(a: Main, b: Main) {
    && Dialled(a) == Dialled(b) && Parting(a) == Parting(b) && a.FailureReported? == b.FailureReported?
    && (b.Finishing? && b.reason.Some? ==> !IsNotice(Close(b.reason.value)))
  }

  lemma QuietStepKeepsStage(cfg: Config, c: Conn, a: OutAction)
    requires OutEnabled(cfg, c, a) && !Emits(a)
    ensures var d := OutEffect(cfg, c, a);
            SameStage(c.main, d.main) && d.farewell == c.farewell && d.chunks == c.chunks && d.emitted == c.emitted
  {
  }

  lemma SameStageSameTranscript(a: Main, b: Main, farewell: Farewell, chunks: seq<seq<byte>>, emitted: seq<Message>)
    requires SameStage(a, b) && TranscriptOk(a, farewell, chunks, emitted)
    ensures TranscriptOk(b, farewell, chunks, emitted)
  {
  }

  lemma QuietStepKeepsTranscript(cfg: Config, c: Conn, a: OutAction)
    requires TranscriptOk(c.main, c.farewell, c.chunks, c.emitted) && OutEnabled(cfg, c, a) && !Emits(a)
    ensures var d := OutEffect(cfg, c, a); TranscriptOk(d.main, d.farewell, d.chunks, d.emitted)
  {
    QuietStepKeepsStage(cfg, c, a);
    SameStageSameTranscript(c.main, OutEffect(cfg, c, a).main, c.farewell, c.chunks, c.emitted);
  }

  lemma FinishKeepsTranscript(cfg: Config, c: Conn)
    requires TranscriptOk(c.main, c.farewell, c.chunks, c.emitted) && OutEnabled(cfg, c, Finish)
    ensures var d := OutEffect(cfg, c, Finish); TranscriptOk(d.main, d.farewell, d.chunks, d.emitted)
  {
    if c.main.reason.Some? {
      var r := c.main.reason.value;
      Said1(c.main, c.farewell, c.chunks, c.emitted, Close(r), Leaving, Said(r));
    }
  }

  lemma FailureKeepsTranscript(cfg: Config, c: Conn)
    requires TranscriptOk(c.main, c.farewell, c.chunks, c.emitted) && OutEnabled(cfg, c, CloseFailed)
    ensures var d := OutEffect(cfg, c, CloseFailed); TranscriptOk(d.main, d.farewell, d.chunks, d.emitted)
  {
    Said1(c.main, c.farewell, c.chunks, c.emitted, Close(OpenFailure), Leaving, OpenFailed);
  }

  lemma ResultKeepsTranscript(cfg: Config, c: Conn)
    requires TranscriptOk(c.main, c.farewell, c.chunks, c.emitted) && OutEnabled(cfg, c, ReportResult)
    ensures var d := OutEffect(cfg, c, ReportResult); TranscriptOk(d.main, d.farewell, d.chunks, d.emitted)
  {
    assert [OpenResult] + Frames([]) == [OpenResult];
    Said1(c.main, c.farewell, c.chunks, c.emitted, OpenResult, ResultSent(c.main.upgraded), c.farewell);
  }

  lemma OutStepKeepsTranscript(cfg: Config, c: Conn, a: OutAction)
    requires TranscriptOk(c.main, c.farewell, c.chunks, c.emitted) && OutEnabled(cfg, c, a)
    ensures var d := OutEffect(cfg, c, a); TranscriptOk(d.main, d.farewell, d.chunks, d.emitted)
  {
    match a {
      case ReportFailure => Said1(c.main, c.farewell, c.chunks, c.emitted, OpenError, FailureReported, c.farewell);
      case CloseFailed => FailureKeepsTranscript(cfg, c);
      case ReportResult => ResultKeepsTranscript(cfg, c);
      case SendChunk => SaidData(c.main, c.chunks, c.emitted, c.main.data, Deciding(c.main.end));
      case ReportCap => Said1(c.main, c.farewell, c.chunks, c.emitted, CAP_NOTICE, CapTold, c.farewell);
      case Finish => FinishKeepsTranscript(cfg, c);
      case _ => QuietStepKeepsTranscript(cfg, c, a);
    }
  }

  // ----- what the frames carry

  /** The payload read but not framed yet. */
  function Pending(main: Main): seq<byte> {
    match main
    case Read(data, _) => data
    case Charged(data, _) => data
    case _ => []
  }

  /** `framed` are the bytes put into frames so far: with the payload in hand they are a prefix of the body, and
      all of it unless the cap cut the connection off. */
  predicate PayloadOk(main: Main, farewell: Farewell, framed: seq<byte>, body: seq<byte>,
                      granted: nat, refused: Option<nat>) {
    && framed + Pending(main) <= body
    && (refused.None? ==> framed + Pending(main) == body)
    && granted == |framed| + (if main.Charged? then |main.data| else 0)
    && (refused.Some? ==> main.Capped? || main.CapTold? || main == Finishing(Option.None) || farewell == Silent)
    && (main.Capped? || main.CapTold? ==> refused.Some?)
    && (farewell.None? <==> !Parting(main))
  }

  predicate SizesOk(cfg: Config, main: Main, chunks: seq<seq<byte>>) {
    && (forall i :: 0 <= i < |chunks| ==> 1 <= |chunks[i]| <= cfg.frameSize)
    && |Pending(main)| <= cfg.frameSize
    && (main.Charged? ==> main.data != [])
  }

  ghost predicate OutboundOk(cfg: Config, c: Conn) {
    && TranscriptOk(c.main, c.farewell, c.chunks, c.emitted)
    && SizesOk(cfg, c.main, c.chunks)
    && PayloadOk(c.main, c.farewell, Flatten(c.chunks), c.body, c.meter.grantedOut, c.meter.refusedOut)
    && c.doneCloses == (if c.main.Ended? then 1 else 0)
  }

  /** The inbound pump and the outside world leave the connection's own goroutine alone. */
  lemma InStepLeavesMain(cfg: Config, c: Conn, a: InAction)
    requires InEnabled(cfg, c, a)
    ensures var d := InEffect(cfg, c, a);
            d.main == c.main && d.farewell == c.farewell && d.chunks == c.chunks
            && d.body == c.body && d.doneCloses == c.doneCloses
  {
  }

  lemma InStepLeavesOutMeter(cfg: Config, c: Conn, a: InAction)
    requires InEnabled(cfg, c, a)
    ensures var d := InEffect(cfg, c, a);
            d.meter.grantedOut == c.meter.grantedOut && d.meter.refusedOut == c.meter.refusedOut
  {
  }

  lemma InStepKeepsOutbound(cfg: Config, c: Conn, a: InAction)
    requires OutboundOk(cfg, c) && InEnabled(cfg, c, a)
    ensures OutboundOk(cfg, InEffect(cfg, c, a))
  {
    InStepLeavesMain(cfg, c, a);
    InStepLeavesOutMeter(cfg, c, a);
    InStepKeepsTranscript(cfg, c, a);
  }

  /** Framing moves the payload in hand behind what was framed before. */
  lemma PayloadSend(main: Main, framed: seq<byte>, body: seq<byte>, granted: nat, refused: Option<nat>)
    requires main.Charged? && PayloadOk(main, Farewell.None, framed, body, granted, refused)
    ensures PayloadOk(Deciding(main.end), Farewell.None, framed + main.data, body, granted, refused)
  {
    assert framed + main.data + [] == framed + main.data;
  }

  lemma PayloadStep(cfg: Config, c: Conn, a: OutAction, framed: seq<byte>)
    requires PayloadOk(c.main, c.farewell, framed, c.body, c.meter.grantedOut, c.meter.refusedOut)
    requires OutEnabled(cfg, c, a) && !a.SendChunk?
    ensures var d := OutEffect(cfg, c, a);
            d.chunks == c.chunks
            && PayloadOk(d.main, d.farewell, framed, d.body, d.meter.grantedOut, d.meter.refusedOut)
  {
    assert framed + [] == framed;
    if a.ReadBody? { assert framed + a.data == framed + [] + a.data; }
  }

  lemma OutStepKeepsSizes(cfg: Config, c: Conn, a: OutAction)
    requires SizesOk(cfg, c.main, c.chunks) && OutEnabled(cfg, c, a)
    ensures SizesOk(cfg, OutEffect(cfg, c, a).main, OutEffect(cfg, c, a).chunks)
    ensures !a.SignalDone? ==> OutEffect(cfg, c, a).doneCloses == c.doneCloses && !OutEffect(cfg, c, a).main.Ended?
  {
  }

  lemma OutStepKeepsOutbound(cfg: Config, c: Conn, a: OutAction)
    requires OutboundOk(cfg, c) && OutEnabled(cfg, c, a)
    ensures OutboundOk(cfg, OutEffect(cfg, c, a))
  {
    OutStepKeepsTranscript(cfg, c, a);
    OutStepKeepsSizes(cfg, c, a);
    if a.SendChunk? {
      FlattenSnoc(c.chunks, c.main.data);
      PayloadSend(c.main, Flatten(c.chunks), c.body, c.meter.grantedOut, c.meter.refusedOut);
    } else {
      PayloadStep(cfg, c, a, Flatten(c.chunks));
    }
  }

  // ----- the write target switches at most once, and the cap is kept

  predicate SwitchOk(c: Conn) {
    && c.writer.switches <= 1
    && (!Dialled(c.main) || c.main.ResultSent? ==> c.writer.switches == 0)
  }

  /** The inbound pump will forward nothing more. */
  predicate Stopping(inbound: Inbound) {
    inbound.Denied? || inbound.DenialTold? || inbound.DenialCut? || inbound.Over?
  }

  /** The two pumps share the meter: each stops at its first refusal. */
  predicate ChargesOk(cfg: Config, c: Conn) {
    && MeterOk(c.meter, cfg.cap, cfg.longestIn, cfg.frameSize)
    && (c.meter.refusedIn.Some? ==> Stopping(c.inbound))
    && (c.inbound.Holding? ==> |c.inbound.frame.data| <= cfg.longestIn)
    && (forall i :: 0 <= i < |c.queue| ==> |c.queue[i].data| <= cfg.longestIn)
  }

  lemma InStepKeepsCharges(cfg: Config, c: Conn, a: InAction)
    requires ChargesOk(cfg, c) && InEnabled(cfg, c, a) && Headroom(cfg.cap, cfg.longestIn, cfg.frameSize)
    ensures ChargesOk(cfg, InEffect(cfg, c, a))
  {
    if a.ChargeFrame? && c.inbound.frame.data != [] {
      ChargeKeepsCap(c.meter, cfg.cap, cfg.longestIn, cfg.frameSize, Side.Inbound, |c.inbound.frame.data|);
    }
  }

  /** A chunk in hand fits a frame, and a pump that was refused holds none. */
  predicate MayCharge(cfg: Config, c: Conn) {
    c.main.Read? ==> |c.main.data| <= cfg.frameSize && c.meter.refusedOut.None?
  }

  lemma OutboundMayCharge(cfg: Config, c: Conn)
    requires OutboundOk(cfg, c)
    ensures MayCharge(cfg, c)
  {
  }

  lemma OutStepKeepsCharges(cfg: Config, c: Conn, a: OutAction)
    requires ChargesOk(cfg, c) && OutEnabled(cfg, c, a) && Headroom(cfg.cap, cfg.longestIn, cfg.frameSize)
    requires MayCharge(cfg, c)
    ensures ChargesOk(cfg, OutEffect(cfg, c, a))
  {
    if a.ChargeChunk? && c.main.data != [] {
      ChargeKeepsCap(c.meter, cfg.cap, cfg.longestIn, cfg.frameSize, Side.Outbound, |c.main.data|);
    }
  }

  // ----- teardown

  function CapNotices(ms: seq<Message>): nat {
    if ms == [] then 0 else CapNotices(ms[..|ms| - 1]) + if ms[|ms| - 1] == CAP_NOTICE then 1 else 0
  }

  lemma CapNoticesSnoc(ms: seq<Message>, m: Message)
    ensures CapNotices(ms + [m]) == CapNotices(ms) + if m == CAP_NOTICE then 1 else 0
  {
    assert (ms + [m])[..|ms|] == ms;
  }

  /** How many refusals have been reported to the hub. */
  function Reported(inbound: Inbound, main: Main, m: Meter): nat {
    (if m.refusedIn.Some? && !inbound.Denied? then 1 else 0) + (if m.refusedOut.Some? && !main.Capped? then 1 else 0)
  }

  /** Some pump has both reported its refusal and cancelled the connection. */
  predicate CutOff(inbound: Inbound, main: Main, m: Meter) {
    || (m.refusedIn.Some? && (inbound.DenialCut? || inbound.Over?))
    || (m.refusedOut.Some? && !main.Capped? && !main.CapTold?)
  }

  /** A refused pump stops where it was refused. */
  predicate RefusalsOk(inbound: Inbound, main: Main, m: Meter) {
    && (m.refusedIn.Some? ==> Stopping(inbound))
    && (inbound.Denied? || inbound.DenialTold? || inbound.DenialCut? ==> m.refusedIn.Some?)
    && (m.refusedOut.Some? ==> main.Capped? || main.CapTold? || main == Finishing(Option.None) || Parting(main))
    && (main.Capped? || main.CapTold? ==> m.refusedOut.Some?)
  }

  /** A connection that was cut off is cancelled; it goes without a Close of its own only when it is cancelled;
      and whoever leaves has cancelled. */
  predicate ContextOk(ctx: Context, main: Main, farewell: Farewell, cutOff: bool) {
    && (cutOff ==> !ctx.Live?)
    && (main == Finishing(Option.None) || farewell == Silent ==> !ctx.Live?)
    && (main.Unregistering? || main.Signalling? || main.Ended? ==> !ctx.Live?)
  }

  /** Each refusal is reported once and cancels the connection. */
  predicate TeardownOk(c: Conn) {
    && RefusalsOk(c.inbound, c.main, c.meter)
    && CapNotices(c.emitted) == Reported(c.inbound, c.main, c.meter)
    && ContextOk(c.ctx, c.main, c.farewell, CutOff(c.inbound, c.main, c.meter))
  }

  lemma InStepNotices(cfg: Config, c: Conn, a: InAction)
    requires InEnabled(cfg, c, a)
    ensures CapNotices(InEffect(cfg, c, a).emitted) == CapNotices(c.emitted) + if a.TellDenied? then 1 else 0
  {
    match a {
      case Overflow => CapNoticesSnoc(c.emitted, OVERFLOW_NOTICE);
      case TellDenied => CapNoticesSnoc(c.emitted, CAP_NOTICE);
      case _ =>
    }
  }

  lemma InStepRefusals(cfg: Config, c: Conn, a: InAction)
    requires InEnabled(cfg, c, a) && RefusalsOk(c.inbound, c.main, c.meter)
    ensures var d := InEffect(cfg, c, a);
            && RefusalsOk(d.inbound, d.main, d.meter)
            && Reported(d.inbound, d.main, d.meter) ==
               Reported(c.inbound, c.main, c.meter) + (if a.TellDenied? then 1 else 0)
            && CutOff(d.inbound, d.main, d.meter) == (CutOff(c.inbound, c.main, c.meter) || a.CutDenied?)
  {
  }

  lemma InStepContext(cfg: Config, c: Conn, a: InAction, cutOff: bool)
    requires InEnabled(cfg, c, a) && ContextOk(c.ctx, c.main, c.farewell, cutOff)
    ensures ContextOk(InEffect(cfg, c, a).ctx, InEffect(cfg, c, a).main,
                      InEffect(cfg, c, a).farewell, cutOff || a.CutDenied?)
  {
  }

  lemma InStepKeepsTeardown(cfg: Config, c: Conn, a: InAction)
    requires TeardownOk(c) && InEnabled(cfg, c, a)
    ensures TeardownOk(InEffect(cfg, c, a))
  {
    InStepNotices(cfg, c, a);
    InStepRefusals(cfg, c, a);
    InStepContext(cfg, c, a, CutOff(c.inbound, c.main, c.meter));
  }

  lemma OutStepNotices(cfg: Config, c: Conn, a: OutAction)
    requires OutEnabled(cfg, c, a) && (c.main.Finishing? && c.main.reason.Some? ==> c.main.reason.value != CapExceeded)
    ensures CapNotices(OutEffect(cfg, c, a).emitted) == CapNotices(c.emitted) + if a.ReportCap? then 1 else 0
  {
    match a {
      case ReportFailure => CapNoticesSnoc(c.emitted, OpenError);
      case CloseFailed => CapNoticesSnoc(c.emitted, Close(OpenFailure));
      case ReportResult => CapNoticesSnoc(c.emitted, OpenResult);
      case SendChunk => CapNoticesSnoc(c.emitted, Data(c.main.data));
      case ReportCap => CapNoticesSnoc(c.emitted, CAP_NOTICE);
      case Finish => if c.main.reason.Some? { CapNoticesSnoc(c.emitted, Close(c.main.reason.value)); }
      case _ =>
    }
  }

  lemma OutStepRefusals(cfg: Config, c: Conn, a: OutAction)
    requires OutEnabled(cfg, c, a) && RefusalsOk(c.inbound, c.main, c.meter)
    ensures var d := OutEffect(cfg, c, a);
            && RefusalsOk(d.inbound, d.main, d.meter)
            && Reported(d.inbound, d.main, d.meter) ==
               Reported(c.inbound, c.main, c.meter) + (if a.ReportCap? then 1 else 0)
            && CutOff(d.inbound, d.main, d.meter) == (CutOff(c.inbound, c.main, c.meter) || a.CutCapped?)
  {
  }

  lemma OutStepContext(cfg: Config, c: Conn, a: OutAction, cutOff: bool)
    requires OutEnabled(cfg, c, a) && ContextOk(c.ctx, c.main, c.farewell, cutOff)
    ensures ContextOk(OutEffect(cfg, c, a).ctx, OutEffect(cfg, c, a).main,
                      OutEffect(cfg, c, a).farewell, cutOff || a.CutCapped?)
  {
  }

  lemma OutStepKeepsTeardown(cfg: Config, c: Conn, a: OutAction)
    requires TeardownOk(c) && OutEnabled(cfg, c, a)
    requires c.main.Finishing? && c.main.reason.Some? ==> c.main.reason.value != CapExceeded
    ensures TeardownOk(OutEffect(cfg, c, a))
  {
    OutStepNotices(cfg, c, a);
    OutStepRefusals(cfg, c, a);
    OutStepContext(cfg, c, a, CutOff(c.inbound, c.main, c.meter));
  }

  // ----- all of it

  datatype Action = In(inAction: InAction) | Out(outAction: OutAction)

  predicate Enabled(cfg: Config, c: Conn, a: Action) {
    match a
    case In(i) => InEnabled(cfg, c, i)
    case Out(o) => OutEnabled(cfg, c, o)
  }

  function Effect(cfg: Config, c: Conn, a: Action): Conn
    requires Enabled(cfg, c, a)
  {
    match a
    case In(i) => InEffect(cfg, c, i)
    case Out(o) => OutEffect(cfg, c, o)
  }

  ghost predicate ConnOk(cfg: Config, c: Conn) {
    && InboundOk(c) && HalfCloseOk(c.inbound, c.eaten) && OutboundOk(cfg, c) && SwitchOk(c) && TeardownOk(c)
    && (Headroom(cfg.cap, cfg.longestIn, cfg.frameSize) ==> ChargesOk(cfg, c))
  }

  lemma NewInbound(c: Conn, bodyAllowed: bool)
    requires c == New(c.id, bodyAllowed)
    ensures InboundOk(c)
  {
    assert Written(c.writer) == [] == Stream(c.eaten);
  }

  lemma NewOutbound(cfg: Config, c: Conn, bodyAllowed: bool)
    requires c == New(c.id, bodyAllowed)
    ensures OutboundOk(cfg, c)
  {
    assert TranscriptOk(c.main, c.farewell, c.chunks, c.emitted);
    assert Flatten(c.chunks) == [];
    assert PayloadOk(c.main, c.farewell, [], [], 0, Option.None);
  }

  lemma NewCharges(cfg: Config, c: Conn)
    requires MeterOk(c.meter, cfg.cap, cfg.longestIn, cfg.frameSize) && c.meter.refusedIn.None?
    requires |c.queue| == 0 && c.inbound.Idle?
    ensures ChargesOk(cfg, c)
  {
  }

  lemma NewTeardown(c: Conn, bodyAllowed: bool)
    requires c == New(c.id, bodyAllowed)
    ensures TeardownOk(c)
  {
    assert CapNotices(c.emitted) == 0;
  }

  lemma NewIsOk(cfg: Config, c: Conn, bodyAllowed: bool)
    requires cfg.cap >= 0 && c == New(c.id, bodyAllowed)
    ensures ConnOk(cfg, c)
  {
    NewInbound(c, bodyAllowed);
    NewOutbound(cfg, c, bodyAllowed);
    FreshMeterOk(cfg.cap, cfg.longestIn, cfg.frameSize);
    NewCharges(cfg, c);
    assert SwitchOk(c);
    NewTeardown(c, bodyAllowed);
  }

  lemma StepKeepsSwitch(cfg: Config, c: Conn, a: Action)
    requires SwitchOk(c) && Enabled(cfg, c, a)
    ensures SwitchOk(Effect(cfg, c, a))
  {
  }

  /** Every action of either goroutine, and every event from outside, keeps the connection's invariant. */
  lemma StepKeepsConn(cfg: Config, c: Conn, a: Action)
    requires ConnOk(cfg, c) && Enabled(cfg, c, a)
    ensures ConnOk(cfg, Effect(cfg, c, a))
  {
    StepKeepsSwitch(cfg, c, a);
    match a {
      case In(i) =>
        InStepKeepsInbound(cfg, c, i);
        InStepKeepsHalfClose(cfg, c, i);
        InStepKeepsOutbound(cfg, c, i);
        InStepKeepsTeardown(cfg, c, i);
        if Headroom(cfg.cap, cfg.longestIn, cfg.frameSize) { InStepKeepsCharges(cfg, c, i); }
      case Out(o) =>
        OutStepKeepsInbound(cfg, c, o);
        OutStepLeavesInbound(cfg, c, o);
        OutStepKeepsOutbound(cfg, c, o);
        OutStepKeepsTeardown(cfg, c, o);
        if Headroom(cfg.cap, cfg.longestIn, cfg.frameSize) {
          OutboundMayCharge(cfg, c);
          OutStepKeepsCharges(cfg, c, o);
        }
    }
  }

  // ----- what the invariant means

  /** The bytes that reached the write targets are a prefix of the accepted frames' data, first target first. */
  lemma WrittenIsPrefix(cfg: Config, c: Conn)
    requires ConnOk(cfg, c)
    ensures c.writer.first + c.writer.socket <= Stream(c.accepted)
    ensures c.writer.pipeCloses <= 1 && c.writer.switches <= 1
  {
    StreamConcat(c.eaten, c.queue);
    if c.inbound.Holding? || c.inbound.Cleared? {
      assert Stream(c.eaten) == Stream(c.eaten[..|c.eaten| - 1]) + c.eaten[|c.eaten| - 1].data;
    }
  }

  /** Bytes written inbound and bytes framed outbound together stay within the cap. */
  lemma RelayedWithinCap(cfg: Config, c: Conn)
    requires ConnOk(cfg, c) && Headroom(cfg.cap, cfg.longestIn, cfg.frameSize)
    ensures |c.writer.first + c.writer.socket| + |Flatten(c.chunks)| <= cfg.cap
  {
  }

  /** Once the inbound pump has propagated a half-close, or ended for any other reason, nothing more is written. */
  lemma NothingAfterPumpEnd(cfg: Config, c: Conn, a: Action)
    requires c.inbound.Over? && Enabled(cfg, c, a)
    ensures var d := Effect(cfg, c, a);
            d.inbound.Over? && d.writer.first == c.writer.first && d.writer.socket == c.writer.socket
  {
    match a {
      case In(i) =>
        var d := InEffect(cfg, c, i);
        assert d.inbound == c.inbound && d.writer == c.writer;
      case Out(o) =>
        var d := OutEffect(cfg, c, o);
        assert d.inbound == c.inbound && (d.writer == c.writer || d.writer == Upgraded(c.writer));
    }
  }

  /** Nothing of a frame behind a half-close is ever written. */
  lemma WrittenUpToHalfClose(cfg: Config, c: Conn)
    requires ConnOk(cfg, c)
    ensures c.writer.first + c.writer.socket <= Stream(UpToHalfClose(c.accepted))
  {
    EatenUpToHalfClose(c.eaten, c.queue);
    StreamOfPrefix(c.eaten, UpToHalfClose(c.accepted));
    if c.inbound.Holding? || c.inbound.Cleared? {
      assert Stream(c.eaten) == Stream(c.eaten[..|c.eaten| - 1]) + c.eaten[|c.eaten| - 1].data;
    }
  }

  /** Once the target is switched nothing more reaches the first target, and it stays switched. */
  lemma SwitchedForGood(cfg: Config, c: Conn, a: Action)
    requires c.writer.target.Socket? && Enabled(cfg, c, a)
    ensures var d := Effect(cfg, c, a); d.writer.target.Socket? && d.writer.first == c.writer.first
  {
    match a {
      case In(i) =>
        var d := InEffect(cfg, c, i);
        assert d.writer == c.writer || d.writer == PipeShut(c.writer) ||
               (i.WriteFrame? && d.writer == Wrote(c.writer, c.inbound.frame.data[..i.n]));
      case Out(o) =>
        var d := OutEffect(cfg, c, o);
        assert d.writer == c.writer || d.writer == Upgraded(c.writer);
    }
  }

  /** After a refusal the grants stand still, and so does a refusal already made. */
  predicate GrantsFrozen(m: Meter, m': Meter) {
    && m'.grantedIn == m.grantedIn && m'.grantedOut == m.grantedOut
    && (m.refusedIn.Some? ==> m'.refusedIn == m.refusedIn)
    && (m.refusedOut.Some? ==> m'.refusedOut == m.refusedOut)
  }

  lemma InRefusalIsFinal(cfg: Config, c: Conn, a: InAction)
    requires ChargesOk(cfg, c) && Headroom(cfg.cap, cfg.longestIn, cfg.frameSize) && InEnabled(cfg, c, a)
    requires c.meter.refusedIn.Some? || c.meter.refusedOut.Some?
    ensures GrantsFrozen(c.meter, InEffect(cfg, c, a).meter)
  {
    if a.ChargeFrame? && c.inbound.frame.data != [] {
      ChargeKeepsCap(c.meter, cfg.cap, cfg.longestIn, cfg.frameSize, Side.Inbound, |c.inbound.frame.data|);
    }
  }

  lemma OutRefusalIsFinal(cfg: Config, c: Conn, a: OutAction)
    requires ChargesOk(cfg, c) && Headroom(cfg.cap, cfg.longestIn, cfg.frameSize) && OutEnabled(cfg, c, a)
    requires MayCharge(cfg, c) && (c.meter.refusedIn.Some? || c.meter.refusedOut.Some?)
    ensures GrantsFrozen(c.meter, OutEffect(cfg, c, a).meter)
  {
    if a.ChargeChunk? && c.main.data != [] {
      ChargeKeepsCap(c.meter, cfg.cap, cfg.longestIn, cfg.frameSize, Side.Outbound, |c.main.data|);
    }
  }

  /** Once any charge was refused, no later charge of either pump is granted, and each pump is refused at
      most once. */
  lemma RefusalIsFinal(cfg: Config, c: Conn, a: Action)
    requires ConnOk(cfg, c) && Headroom(cfg.cap, cfg.longestIn, cfg.frameSize) && Enabled(cfg, c, a)
    requires c.meter.refusedIn.Some? || c.meter.refusedOut.Some?
    ensures GrantsFrozen(c.meter, Effect(cfg, c, a).meter)
  {
    OutboundMayCharge(cfg, c);
    match a {
      case In(i) => InRefusalIsFinal(cfg, c, i);
      case Out(o) => OutRefusalIsFinal(cfg, c, o);
    }
  }

  /** An ended connection's visible trace: a failed open, or a result, frames, and at most one final Close. */
  lemma EndedTrace(cfg: Config, c: Conn)
    requires ConnOk(cfg, c) && c.main.Ended?
    ensures var v := Visible(c.emitted);
            || v == [OpenError, Close(OpenFailure)]
            || v == [OpenResult] + Frames(c.chunks)
            || (exists r :: v == [OpenResult] + Frames(c.chunks) + [Close(r)]
                            && (r == Complete ==> Flatten(c.chunks) == c.body))
    ensures forall i :: 0 <= i < |c.chunks| ==> 1 <= |c.chunks[i]| <= cfg.frameSize
    ensures Flatten(c.chunks) <= c.body && |Flatten(c.chunks)| == c.meter.grantedOut
    ensures c.doneCloses == 1
  {
    assert Flatten(c.chunks) + [] == Flatten(c.chunks);
    if c.farewell.Said? {
      assert Visible(c.emitted) == [OpenResult] + Frames(c.chunks) + [Close(c.farewell.reason)];
    }
  }
}

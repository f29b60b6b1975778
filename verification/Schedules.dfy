/** The pumps of Handler are schedules of the step machine: what each loop computes, while the other pump charges the
    same counter and the connection's goroutine may switch the target, is reached by a sequence of Connection's
    steps, so the machine's theorems speak about the loops. */
module Schedules {
  import opened Common
  import opened ByteMeter
  import opened ConnWriter
  import opened Connection
  import opened History
  import opened Handler

  ghost predicate Reaches(cfg: Config, c: Conn, d: Conn) {
    exists actions :: After(cfg, c, actions) == Some(d)
  }

  lemma ReachesItself(cfg: Config, c: Conn)
    ensures Reaches(cfg, c, c)
  {
    assert After(cfg, c, []) == Some(c);
  }

  lemma Extend(cfg: Config, c: Conn, d: Conn, a: Action)
    requires Reaches(cfg, c, d) && Enabled(cfg, d, a)
    ensures Reaches(cfg, c, Effect(cfg, d, a))
  {
    var actions :| After(cfg, c, actions) == Some(d);
    assert (actions + [a])[..|actions|] == actions;
    assert After(cfg, c, actions + [a]) == Some(Effect(cfg, d, a));
  }

  /** Contexts only ever go from live to cancelled or expired. */
  predicate Moves(before: Context, after: Context) {
    after == before || before.Live?
  }

  /** The outside world moves a context along. */
  lemma MoveContext(cfg: Config, c: Conn, d: Conn, ctx: Context) returns (e: Conn)
    requires Reaches(cfg, c, d) && Moves(d.ctx, ctx)
    ensures Reaches(cfg, c, e) && e == d.(ctx := ctx)
  {
    e := d;
    if ctx != d.ctx {
      var a := if ctx.Cancelled? then In(CancelConn) else In(Expire);
      Extend(cfg, c, d, a);
      e := Effect(cfg, d, a);
    }
  }

  function Zeros(n: nat): (data: seq<byte>)
    ensures |data| == n
  {
    seq(n, _ => 0 as byte)
  }

  // ----- the outbound pump, with the inbound pump charging meanwhile

  /** The inbound pump between two frames, with these frames queued, or stopped for good. */
  datatype Partner = Up(queue: seq<Frame>) | Gone

  predicate Stands(d: Conn, p: Partner) {
    p.Up? ==> d.inbound.Idle? && d.queue == p.queue
  }

  function PartnerOf(c: Conn): Partner {
    if c.inbound.Idle? then Up(c.queue) else Gone
  }

  /** Queued frames without data that charge nothing and go by. */
  function Skip(queue: seq<Frame>): seq<Frame> {
    if queue != [] && queue[0].data == [] && !queue[0].halfClose then Skip(queue[1..]) else queue
  }

  /** The pump's next charge is that of the next queued frame with data, or of a frame yet to arrive. */
  predicate CanCharge(longest: nat, p: Partner, n: nat) {
    && p.Up? && n >= 1
    && var queue := Skip(p.queue); if queue == [] then n <= longest else |queue[0].data| == n
  }

  /** A refusal stops the pump, and so does a half-close. */
  function Charging(cap: int, counter: int, p: Partner, n: nat): Partner
    requires p.Up?
  {
    var queue := Skip(p.queue);
    if Add64(counter, n) > cap || (queue != [] && queue[0].halfClose) then Gone
    else Up(if queue == [] then [] else queue[1..])
  }

  predicate CanChargeAll(cap: int, longest: nat, counter: int, p: Partner, charges: seq<nat>)
    decreases charges
  {
    charges != [] ==>
      && CanCharge(longest, p, charges[0])
      && CanChargeAll(cap, longest, Add64(counter, charges[0]), Charging(cap, counter, p, charges[0]), charges[1..])
  }

  function ChargingAll(cap: int, counter: int, p: Partner, charges: seq<nat>): Partner
    decreases charges
  {
    if charges == [] || p.Gone? then p
    else ChargingAll(cap, Add64(counter, charges[0]), Charging(cap, counter, p, charges[0]), charges[1..])
  }

  /** Nothing that the outbound pump works with has changed, but for the counter. */
  predicate SameOutbound(d: Conn, e: Conn) {
    && e.main == d.main && e.chunks == d.chunks && e.body == d.body && e.emitted == d.emitted && e.ctx == d.ctx
  }

  /** The pump takes the next frame off its queue and charges it. */
  lemma TakeAndCharge(cfg: Config, c: Conn, d: Conn) returns (e: Conn)
    requires Reaches(cfg, c, d) && d.inbound.Idle? && d.queue != []
    ensures Reaches(cfg, c, e) && SameOutbound(d, e) && e.queue == d.queue[1..]
    ensures var f := d.queue[0];
            if f.data == [] then e.inbound == Forwarded(f) && e.meter == d.meter
            else && e.meter.counter == Add64(d.meter.counter, |f.data|)
                 && e.inbound == (if e.meter.counter <= cfg.cap then Cleared(f) else Denied)
  {
    Extend(cfg, c, d, In(TakeFrame));
    e := Effect(cfg, d, In(TakeFrame));
    Extend(cfg, c, e, In(ChargeFrame));
    e := Effect(cfg, e, In(ChargeFrame));
  }

  /** A forwarded frame leaves the pump idle, unless it is a half-close. */
  lemma FramePasses(cfg: Config, c: Conn, d: Conn) returns (e: Conn)
    requires Reaches(cfg, c, d) && d.inbound.Forwarded?
    ensures Reaches(cfg, c, e) && SameOutbound(d, e) && e.queue == d.queue && e.meter == d.meter
    ensures e.inbound == if d.inbound.frame.halfClose then Over else Idle
  {
    Extend(cfg, c, d, In(AfterWrite));
    e := Effect(cfg, d, In(AfterWrite));
  }

  lemma FrameIsWritten(cfg: Config, c: Conn, d: Conn) returns (e: Conn)
    requires Reaches(cfg, c, d) && d.inbound.Cleared?
    ensures Reaches(cfg, c, e) && SameOutbound(d, e) && e.queue == d.queue && e.meter == d.meter
    ensures e.inbound == Forwarded(d.inbound.frame)
  {
    var a := In(WriteFrame(|d.inbound.frame.data|, false));
    Extend(cfg, c, d, a);
    e := Effect(cfg, d, a);
  }

  lemma {:induction false} FramesGoBy(cfg: Config, c: Conn, d: Conn) returns (e: Conn)
    requires Reaches(cfg, c, d) && d.inbound.Idle?
    ensures Reaches(cfg, c, e) && SameOutbound(d, e) && e.meter == d.meter && Stands(e, Up(Skip(d.queue)))
    decreases |d.queue|
  {
    e := d;
    if d.queue != [] && d.queue[0].data == [] && !d.queue[0].halfClose {
      e := TakeAndCharge(cfg, c, d);
      e := FramePasses(cfg, c, e);
      e := FramesGoBy(cfg, c, e);
    }
  }

  /** There is a frame of that size to charge: the next queued one, or one that arrives now. */
  lemma FrameIsThere(cfg: Config, c: Conn, d: Conn, n: nat) returns (e: Conn)
    requires Reaches(cfg, c, d) && d.inbound.Idle? && n >= 1
    requires if d.queue == [] then n <= cfg.longestIn else |d.queue[0].data| == n
    ensures Reaches(cfg, c, e) && SameOutbound(d, e) && e.meter == d.meter && e.inbound.Idle?
    ensures e.queue != [] && |e.queue[0].data| == n
    ensures d.queue == [] ==> |e.queue| == 1 && !e.queue[0].halfClose
    ensures d.queue != [] ==> e.queue == d.queue
  {
    e := d;
    if d.queue == [] {
      var a := In(Accept(Frame(d.id, Zeros(n), false)));
      Extend(cfg, c, d, a);
      e := Effect(cfg, d, a);
    }
  }

  /** The inbound pump makes one charge: it forwards the frame, or is stopped by the refusal. */
  lemma InboundCharges(cfg: Config, c: Conn, d: Conn, p: Partner, n: nat) returns (e: Conn)
    requires Reaches(cfg, c, d) && Stands(d, p) && CanCharge(cfg.longestIn, p, n)
    ensures Reaches(cfg, c, e) && SameOutbound(d, e) && e.meter.counter == Add64(d.meter.counter, n)
    ensures Stands(e, Charging(cfg.cap, d.meter.counter, p, n))
  {
    e := FramesGoBy(cfg, c, d);
    e := FrameIsThere(cfg, c, e, n);
    e := TakeAndCharge(cfg, c, e);
    if e.inbound.Cleared? {
      e := FrameIsWritten(cfg, c, e);
      e := FramePasses(cfg, c, e);
    }
  }

  lemma {:induction false} InboundChargesAll(cfg: Config, c: Conn, d: Conn, p: Partner, charges: seq<nat>)
    returns (e: Conn)
    requires Reaches(cfg, c, d) && Stands(d, p)
    requires CanChargeAll(cfg.cap, cfg.longestIn, d.meter.counter, p, charges)
    ensures Reaches(cfg, c, e) && SameOutbound(d, e) && e.meter.counter == AddAll(d.meter.counter, charges)
    ensures Stands(e, ChargingAll(cfg.cap, d.meter.counter, p, charges))
    decreases charges
  {
    e := d;
    if charges != [] {
      e := InboundCharges(cfg, c, d, p, charges[0]);
      e := InboundChargesAll(cfg, c, e, Charging(cfg.cap, d.meter.counter, p, charges[0]), charges[1..]);
    }
  }

  /** A read by itself: the pump has the data in hand, not charged yet. */
  lemma ReadStep(cfg: Config, c: Conn, d: Conn, r: BodyRead) returns (e: Conn)
    requires Reaches(cfg, c, d) && d.main.Reading? && |r.data| <= cfg.frameSize
    ensures Reaches(cfg, c, e) && e == d.(body := d.body + r.data, main := Read(r.data, r.end))
  {
    var a := Out(ReadBody(r.data, r.end));
    Extend(cfg, c, d, a);
    e := Effect(cfg, d, a);
  }

  /** What the read turns into: nothing to frame, a frame, or a refusal that is reported and cancels. */
  lemma ChargeSteps(cfg: Config, c: Conn, d: Conn) returns (e: Conn)
    requires Reaches(cfg, c, d) && d.main.Read?
    ensures Reaches(cfg, c, e) && e.inbound == d.inbound && e.queue == d.queue
    ensures d.main.data == [] ==> e == d.(main := Deciding(d.main.end))
    ensures d.main.data != [] ==> e.meter.counter == Add64(d.meter.counter, |d.main.data|)
    ensures d.main.data != [] && e.meter.counter <= cfg.cap ==>
              && e.main == Deciding(d.main.end) && e.chunks == d.chunks + [d.main.data]
              && e.emitted == d.emitted + [Data(d.main.data)] && e.ctx == d.ctx
    ensures d.main.data != [] && e.meter.counter > cfg.cap ==>
              && e.main == Finishing(Option.None) && e.chunks == d.chunks
              && e.emitted == d.emitted + [CAP_NOTICE] && e.ctx == Cut(d.ctx)
  {
    Extend(cfg, c, d, Out(ChargeChunk));
    e := Effect(cfg, d, Out(ChargeChunk));
    if e.main.Charged? {
      Extend(cfg, c, e, Out(SendChunk));
      e := Effect(cfg, e, Out(SendChunk));
    } else if e.main.Capped? {
      Extend(cfg, c, e, Out(ReportCap));
      e := Effect(cfg, e, Out(ReportCap));
      Extend(cfg, c, e, Out(CutCapped));
      e := Effect(cfg, e, Out(CutCapped));
    }
  }

  /** The machine's state agrees with the loop's progress since c. */
  ghost predicate Pumps(c: Conn, d: Conn, p: Progress, ctx: Context) {
    && d.main == p.main && d.chunks == c.chunks + p.chunks && d.meter.counter == p.counter
    && d.emitted == c.emitted + Frames(p.chunks) + (if p.refused then [CAP_NOTICE] else [])
    && (if p.refused then !d.ctx.Live? else d.ctx == ctx)
  }

  /** One read and what it turns into, the inbound pump's charges being done. */
  lemma ReadSteps(cfg: Config, c: Conn, d: Conn, p: Progress, ctx: Context, r: BodyRead) returns (e: Conn)
    requires Reaches(cfg, c, d) && Pumps(c, d, p, ctx) && p.main.Reading? && !p.refused
    requires |r.data| <= cfg.frameSize && r.meanwhile == [] && Moves(ctx, r.ctx)
    ensures Reaches(cfg, c, e) && Pumps(c, e, AfterRead(cfg.cap, p, r), r.ctx)
    ensures e.inbound == d.inbound && e.queue == d.queue
  {
    e := ReadStep(cfg, c, d, r);
    e := ChargeSteps(cfg, c, e);
    FramesSnoc(p.chunks, r.data);
    if e.main.Deciding? {
      e := MoveContext(cfg, c, e, r.ctx);
      Extend(cfg, c, e, Out(Decide));
      e := Effect(cfg, e, Out(Decide));
    }
  }

  lemma ReadIsItsSteps(cfg: Config, c: Conn, d: Conn, p: Progress, ctx: Context, partner: Partner, r: BodyRead)
    returns (e: Conn)
    requires Reaches(cfg, c, d) && Pumps(c, d, p, ctx) && p.main.Reading? && !p.refused && Stands(d, partner)
    requires |r.data| <= cfg.frameSize && Moves(ctx, r.ctx)
    requires CanChargeAll(cfg.cap, cfg.longestIn, p.counter, partner, r.meanwhile)
    ensures Reaches(cfg, c, e) && Pumps(c, e, AfterRead(cfg.cap, p, r), r.ctx)
    ensures Stands(e, ChargingAll(cfg.cap, p.counter, partner, r.meanwhile))
  {
    e := InboundChargesAll(cfg, c, d, partner, r.meanwhile);
    var q := p.(counter := AddAll(p.counter, r.meanwhile));
    e := ReadSteps(cfg, c, e, q, ctx, r.(meanwhile := []));
    assert AfterRead(cfg.cap, q, r.(meanwhile := [])) == AfterRead(cfg.cap, p, r);
  }

  /** The context before read i. */
  function CtxBefore(ctx: Context, bodyReads: seq<BodyRead>, i: nat): Context
    requires i <= |bodyReads|
  {
    if i == 0 then ctx else bodyReads[i - 1].ctx
  }

  /** Where the inbound pump is after these reads. */
  function PartnerBy(cap: int, counter: int, partner: Partner, bodyReads: seq<BodyRead>): Partner {
    if bodyReads == [] then partner else
      var front, r := bodyReads[..|bodyReads| - 1], bodyReads[|bodyReads| - 1];
      var p, q := Pumped(cap, counter, front), PartnerBy(cap, counter, partner, front);
      if p.main.Reading? then ChargingAll(cap, p.counter, q, r.meanwhile) else q
  }

  /** A course of reads the code can meet: reads fit the buffer, the context only moves forward, and in between the
      inbound pump charges the frames of its queue and those that arrive, until a refusal or half-close stops it. */
  predicate CanRead(cfg: Config, partner: Partner, counter: int, ctx: Context, bodyReads: seq<BodyRead>) {
    bodyReads != [] ==>
      var front, r := bodyReads[..|bodyReads| - 1], bodyReads[|bodyReads| - 1];
      var p, q := Pumped(cfg.cap, counter, front), PartnerBy(cfg.cap, counter, partner, front);
      && CanRead(cfg, partner, counter, ctx, front)
      && (p.main.Reading? ==>
            && |r.data| <= cfg.frameSize && Moves(CtxBefore(ctx, front, |front|), r.ctx)
            && CanChargeAll(cfg.cap, cfg.longestIn, p.counter, q, r.meanwhile))
  }

  lemma {:induction false} ReadingIsNotRefused(cap: int, counter: int, bodyReads: seq<BodyRead>)
    requires Pumped(cap, counter, bodyReads).main.Reading?
    ensures !Pumped(cap, counter, bodyReads).refused
  {
    if bodyReads != [] { ReadingIsNotRefused(cap, counter, bodyReads[..|bodyReads| - 1]); }
  }

  /** The whole outbound loop, with the inbound pump charging in between, is a schedule of the machine: from any state
      in which the connection's goroutine is about to read, some sequence of steps reaches what the loop computes and
      has emitted what the loop hands to Send. */
  lemma {:induction false} OutboundPumpIsASchedule(cfg: Config, c: Conn, bodyReads: seq<BodyRead>) returns (d: Conn)
    requires c.main.Reading? && CanRead(cfg, PartnerOf(c), c.meter.counter, c.ctx, bodyReads)
    ensures Reaches(cfg, c, d)
    ensures var p := Pumped(cfg.cap, c.meter.counter, bodyReads);
            && d.main == p.main && d.chunks == c.chunks + p.chunks && d.meter.counter == p.counter
            && d.emitted == c.emitted + Frames(p.chunks) + (if p.refused then [CAP_NOTICE] else [])
            && (p.main.Reading? ==> Pumps(c, d, p, CtxBefore(c.ctx, bodyReads, |bodyReads|)))
            && (p.main.Reading? ==> Stands(d, PartnerBy(cfg.cap, c.meter.counter, PartnerOf(c), bodyReads)))
  {
    if bodyReads == [] {
      ReachesItself(cfg, c);
      d := c;
      assert c.emitted + Frames([]) + [] == c.emitted && c.chunks + [] == c.chunks;
    } else {
      var front, r := bodyReads[..|bodyReads| - 1], bodyReads[|bodyReads| - 1];
      d := OutboundPumpIsASchedule(cfg, c, front);
      var p := Pumped(cfg.cap, c.meter.counter, front);
      if p.main.Reading? {
        ReadingIsNotRefused(cfg.cap, c.meter.counter, front);
        var partner := PartnerBy(cfg.cap, c.meter.counter, PartnerOf(c), front);
        d := ReadIsItsSteps(cfg, c, d, p, CtxBefore(c.ctx, front, |front|), partner, r);
      }
    }
  }

  // ----- the inbound pump, with the connection's goroutine upgrading and charging meanwhile

  /** Charges a pump can make in a row: sized, and each but the last granted, since a refusal stops the pump. */
  predicate Plausible(cap: int, longest: nat, counter: int, charges: seq<nat>)
    decreases charges
  {
    charges == [] ||
    (&& 1 <= charges[0] <= longest
     && (|charges| > 1 ==> Add64(counter, charges[0]) <= cap)
     && Plausible(cap, longest, Add64(counter, charges[0]), charges[1..]))
  }

  /** The last of these charges is refused. */
  predicate Refuses(cap: int, counter: int, charges: seq<nat>) {
    charges != [] && AddAll(counter, charges) > cap
  }

  /** Nothing that the inbound pump works with has changed, but for the counter. */
  predicate SameInbound(d: Conn, e: Conn) {
    && e.inbound == d.inbound && e.queue == d.queue && e.eaten == d.eaten && e.writer == d.writer && e.ctx == d.ctx
    && CapNotices(e.emitted) == CapNotices(d.emitted)
  }

  /** A frame that was granted goes out, and the pump reads on. */
  lemma ChunkGoesOut(cfg: Config, c: Conn, d: Conn) returns (e: Conn)
    requires Reaches(cfg, c, d) && d.main.Charged? && d.main.end.More?
    ensures Reaches(cfg, c, e) && SameInbound(d, e) && e.main.Reading? && e.meter == d.meter
  {
    CapNoticesSnoc(d.emitted, Data(d.main.data));
    Extend(cfg, c, d, Out(SendChunk));
    e := Effect(cfg, d, Out(SendChunk));
    Extend(cfg, c, e, Out(Decide));
    e := Effect(cfg, e, Out(Decide));
  }

  /** The outbound pump makes one charge: it frames what it read, or is stopped by the refusal. */
  lemma OutboundCharges(cfg: Config, c: Conn, d: Conn, n: nat) returns (e: Conn)
    requires Reaches(cfg, c, d) && d.main.Reading? && 1 <= n <= cfg.frameSize
    ensures Reaches(cfg, c, e) && SameInbound(d, e) && e.meter.counter == Add64(d.meter.counter, n)
    ensures e.main == if e.meter.counter <= cfg.cap then Reading else Capped
  {
    var a := Out(ReadBody(Zeros(n), More));
    Extend(cfg, c, d, a);
    e := Effect(cfg, d, a);
    Extend(cfg, c, e, Out(ChargeChunk));
    e := Effect(cfg, e, Out(ChargeChunk));
    if e.main.Charged? {
      e := ChunkGoesOut(cfg, c, e);
    }
  }

  lemma {:induction false} OutboundChargesAll(cfg: Config, c: Conn, d: Conn, charges: seq<nat>) returns (e: Conn)
    requires Reaches(cfg, c, d) && (charges != [] ==> d.main.Reading?)
    requires Plausible(cfg.cap, cfg.frameSize, d.meter.counter, charges)
    ensures Reaches(cfg, c, e) && SameInbound(d, e) && e.meter.counter == AddAll(d.meter.counter, charges)
    ensures e.main == if Refuses(cfg.cap, d.meter.counter, charges) then Capped else d.main
    decreases charges
  {
    e := d;
    if charges != [] {
      e := OutboundCharges(cfg, c, d, charges[0]);
      e := OutboundChargesAll(cfg, c, e, charges[1..]);
    }
  }

  /** The machine's state agrees with the loop's progress since c. */
  ghost predicate Drains(c: Conn, d: Conn, p: Intake) {
    && d.writer == p.writer && d.meter.counter == p.counter
    && p.eaten <= |c.queue| && d.queue == c.queue[p.eaten..] && d.eaten == c.eaten + c.queue[..p.eaten]
    && d.inbound == (if p.over then Over else Idle)
    && CapNotices(d.emitted) == CapNotices(c.emitted) + (if p.refused then 1 else 0)
    && (p.refused ==> p.over && !d.ctx.Live?)
  }

  /** What the connection's goroutine does before a turn, and where that leaves it. */
  function MainAfter(cap: int, main: Main, counter: int, t: Turn): Main {
    if Refuses(cap, counter, t.meanwhile) then Capped else if t.upgrade then Reading else main
  }

  predicate CanAct(cfg: Config, main: Main, counter: int, t: Turn) {
    && (t.upgrade ==> main == ResultSent(true))
    && (t.meanwhile != [] ==> t.upgrade || main.Reading?)
    && Plausible(cfg.cap, cfg.frameSize, counter, t.meanwhile)
  }

  lemma PartnerSteps(cfg: Config, c: Conn, d: Conn, p: Intake, t: Turn) returns (e: Conn)
    requires Reaches(cfg, c, d) && Drains(c, d, p) && !p.over && CanAct(cfg, d.main, p.counter, t)
    ensures Reaches(cfg, c, e) && Drains(c, e, AfterPartner(p, t)) && e.main == MainAfter(cfg.cap, d.main, p.counter, t)
  {
    e := d;
    if t.upgrade {
      Extend(cfg, c, d, Out(Upgrade));
      e := Effect(cfg, d, Out(Upgrade));
    }
    e := OutboundChargesAll(cfg, c, e, t.meanwhile);
  }

  lemma TakeStep(cfg: Config, c: Conn, d: Conn) returns (e: Conn)
    requires Reaches(cfg, c, d) && d.inbound.Idle? && d.queue != []
    ensures Reaches(cfg, c, e)
    ensures e == d.(queue := d.queue[1..], eaten := d.eaten + [d.queue[0]], inbound := Holding(d.queue[0]))
  {
    Extend(cfg, c, d, In(TakeFrame));
    e := Effect(cfg, d, In(TakeFrame));
  }

  /** A refused frame is reported, cancels the connection and closes the pipe. */
  lemma DenialSteps(cfg: Config, c: Conn, d: Conn) returns (e: Conn)
    requires Reaches(cfg, c, d) && d.inbound.Denied?
    ensures Reaches(cfg, c, e) && e.queue == d.queue && e.eaten == d.eaten && e.main == d.main && e.meter == d.meter
    ensures e.inbound == Over && e.writer == PipeShut(d.writer) && !e.ctx.Live?
    ensures CapNotices(e.emitted) == CapNotices(d.emitted) + 1
  {
    CapNoticesSnoc(d.emitted, CAP_NOTICE);
    Extend(cfg, c, d, In(TellDenied));
    e := Effect(cfg, d, In(TellDenied));
    Extend(cfg, c, e, In(CutDenied));
    e := Effect(cfg, e, In(CutDenied));
    Extend(cfg, c, e, In(CloseDenied));
    e := Effect(cfg, e, In(CloseDenied));
  }

  /** Charging the frame in hand: cleared to write, nothing to write, or refused. */
  lemma ChargeFrameSteps(cfg: Config, c: Conn, d: Conn) returns (e: Conn)
    requires Reaches(cfg, c, d) && d.inbound.Holding?
    ensures Reaches(cfg, c, e) && e.queue == d.queue && e.eaten == d.eaten && e.main == d.main
    ensures d.inbound.frame.data == [] ==> e == d.(inbound := Forwarded(d.inbound.frame))
    ensures d.inbound.frame.data != [] ==> e.meter.counter == Add64(d.meter.counter, |d.inbound.frame.data|)
    ensures d.inbound.frame.data != [] && e.meter.counter <= cfg.cap ==>
              e.inbound == Cleared(d.inbound.frame) && e.writer == d.writer && e.emitted == d.emitted
    ensures d.inbound.frame.data != [] && e.meter.counter > cfg.cap ==>
              && e.inbound == Over && e.writer == PipeShut(d.writer) && !e.ctx.Live?
              && CapNotices(e.emitted) == CapNotices(d.emitted) + 1
  {
    Extend(cfg, c, d, In(ChargeFrame));
    e := Effect(cfg, d, In(ChargeFrame));
    if e.inbound.Denied? {
      e := DenialSteps(cfg, c, e);
    }
  }

  lemma WriteStep(cfg: Config, c: Conn, d: Conn, n: nat, fails: bool) returns (e: Conn)
    requires Reaches(cfg, c, d) && InEnabled(cfg, d, WriteFrame(n, fails))
    ensures Reaches(cfg, c, e)
    ensures e == d.(writer := Wrote(d.writer, d.inbound.frame.data[..n]),
                    inbound := if fails then Over else Forwarded(d.inbound.frame))
  {
    Extend(cfg, c, d, In(WriteFrame(n, fails)));
    e := Effect(cfg, d, In(WriteFrame(n, fails)));
  }

  lemma AfterWriteStep(cfg: Config, c: Conn, d: Conn) returns (e: Conn)
    requires Reaches(cfg, c, d) && d.inbound.Forwarded?
    ensures Reaches(cfg, c, e)
    ensures e == if d.inbound.frame.halfClose then d.(writer := PipeShut(d.writer), inbound := Over)
                 else d.(inbound := Idle)
  {
    Extend(cfg, c, d, In(AfterWrite));
    e := Effect(cfg, d, In(AfterWrite));
  }

  lemma FrameIsItsSteps(cfg: Config, c: Conn, d: Conn, p: Intake, t: Turn) returns (e: Conn)
    requires Reaches(cfg, c, d) && Drains(c, d, p) && !p.over && p.eaten < |c.queue| && TargetOpen(p.writer)
    ensures Reaches(cfg, c, e) && Drains(c, e, AfterFrame(cfg.cap, p, c.queue[p.eaten], t)) && e.main == d.main
  {
    var f := c.queue[p.eaten];
    e := TakeStep(cfg, c, d);
    assert c.queue[..p.eaten + 1] == c.queue[..p.eaten] + [f];
    assert e.eaten == c.eaten + c.queue[..p.eaten + 1];
    e := ChargeFrameSteps(cfg, c, e);
    if e.inbound.Cleared? {
      var (n, err) := Taken(p.writer, |f.data|, Min(t.takes, |f.data|), t.fails);
      e := WriteStep(cfg, c, e, n, err);
    }
    if e.inbound.Forwarded? {
      e := AfterWriteStep(cfg, c, e);
    }
  }

  /** The context ends and the pump sees it. */
  lemma StopIsItsSteps(cfg: Config, c: Conn, d: Conn, p: Intake) returns (e: Conn)
    requires Reaches(cfg, c, d) && Drains(c, d, p) && !p.over
    ensures Reaches(cfg, c, e) && Drains(c, e, p.(writer := PipeShut(p.writer), over := true)) && e.main == d.main
  {
    e := MoveContext(cfg, c, d, Cut(d.ctx));
    Extend(cfg, c, e, In(StopPump));
    e := Effect(cfg, e, In(StopPump));
  }

  lemma TurnIsItsSteps(cfg: Config, c: Conn, d: Conn, p: Intake, t: Turn) returns (e: Conn)
    requires Reaches(cfg, c, d) && Drains(c, d, p) && !p.over
    requires CanAct(cfg, d.main, p.counter, t) && TargetOpen(p.writer)
    ensures Reaches(cfg, c, e) && Drains(c, e, AfterTurn(cfg.cap, c.queue, p, t))
    ensures e.main == MainAfter(cfg.cap, d.main, p.counter, t)
  {
    e := PartnerSteps(cfg, c, d, p, t);
    var q := AfterPartner(p, t);
    if t.stop {
      e := StopIsItsSteps(cfg, c, e, q);
    } else if q.eaten < |c.queue| {
      e := FrameIsItsSteps(cfg, c, e, q, t);
    }
  }

  /** Where the connection's goroutine is after these turns. */
  function MainBy(cap: int, queue: seq<Frame>, start: Intake, main: Main, turns: seq<Turn>): Main {
    if turns == [] then main else
      var front, t := turns[..|turns| - 1], turns[|turns| - 1];
      var p, m := Drained(cap, queue, start, front), MainBy(cap, queue, start, main, front);
      if p.over then m else MainAfter(cap, m, p.counter, t)
  }

  /** Turns the code can meet: the target is switched at most once, after the result of an upgraded open was sent, and
      the outbound pump charges in between while it is reading, until one of its charges is refused. */
  predicate CanTurn(cfg: Config, queue: seq<Frame>, start: Intake, main: Main, turns: seq<Turn>) {
    turns != [] ==>
      var front, t := turns[..|turns| - 1], turns[|turns| - 1];
      var p := Drained(cfg.cap, queue, start, front);
      && CanTurn(cfg, queue, start, main, front)
      && (!p.over ==> CanAct(cfg, MainBy(cfg.cap, queue, start, main, front), p.counter, t))
  }

  lemma {:induction false} StaysOpen(cap: int, queue: seq<Frame>, start: Intake, turns: seq<Turn>)
    requires TargetOpen(start.writer)
    ensures var p := Drained(cap, queue, start, turns); !p.over ==> TargetOpen(p.writer)
  {
    if turns != [] { StaysOpen(cap, queue, start, turns[..|turns| - 1]); }
  }

  /** The whole inbound loop, with the target switched and the outbound pump charging in between, is a schedule of the
      machine too. */
  lemma {:induction false} InboundPumpIsASchedule(cfg: Config, c: Conn, turns: seq<Turn>) returns (d: Conn)
    requires c.inbound.Idle? && TargetOpen(c.writer)
    requires CanTurn(cfg, c.queue, Intake(c.writer, c.meter.counter, 0, false, false), c.main, turns)
    ensures Reaches(cfg, c, d)
    ensures var start := Intake(c.writer, c.meter.counter, 0, false, false);
            && Drains(c, d, Drained(cfg.cap, c.queue, start, turns))
            && d.main == MainBy(cfg.cap, c.queue, start, c.main, turns)
  {
    var start := Intake(c.writer, c.meter.counter, 0, false, false);
    if turns == [] {
      ReachesItself(cfg, c);
      d := c;
    } else {
      var front, t := turns[..|turns| - 1], turns[|turns| - 1];
      d := InboundPumpIsASchedule(cfg, c, front);
      var p := Drained(cfg.cap, c.queue, start, front);
      if !p.over {
        StaysOpen(cfg.cap, c.queue, start, front);
        d := TurnIsItsSteps(cfg, c, d, p, t);
      }
    }
  }

  // ----- every connection can end

  /** How far the connection's goroutine is from its end. */
  function Ahead(main: Main): nat {
    match main
    case Dialing => 12
    case DialFailed => 6
    case FailureReported => 5
    case Dialed(_) => 11
    case ResultSent(_) => 10
    case Reading => 9
    case Read(_, _) => 8
    case Charged(_, _) => 7
    case Capped => 7
    case CapTold => 6
    case Deciding(end) => if end.More? then 10 else 6
    case Finishing(_) => 5
    case Leaving => 4
    case Unregistering => 3
    case Signalling => 2
    case Ended => 0
  }

  /** The next action on the way, with the response at its end. */
  function Onward(main: Main): OutAction
    requires !main.Ended?
  {
    match main
    case Dialing => DialSucceeds(false)
    case DialFailed => ReportFailure
    case FailureReported => CloseFailed
    case Dialed(_) => ReportResult
    case ResultSent(_) => Upgrade
    case Reading => ReadBody([], Eof)
    case Read(_, _) => ChargeChunk
    case Charged(_, _) => SendChunk
    case Capped => ReportCap
    case CapTold => CutCapped
    case Deciding(_) => Decide
    case Finishing(_) => Finish
    case Leaving => Leave
    case Unregistering => Delist
    case Signalling => SignalDone
  }

  /** With no more to come, each action leads on. */
  predicate Drying(main: Main) {
    match main
    case Read(_, end) => !end.More?
    case Charged(_, end) => !end.More?
    case _ => true
  }

  lemma OnwardLeadsOn(cfg: Config, c: Conn)
    requires !c.main.Ended? && Drying(c.main)
    ensures OutEnabled(cfg, c, Onward(c.main))
    ensures var d := OutEffect(cfg, c, Onward(c.main)); Ahead(d.main) < Ahead(c.main) && Drying(d.main)
  {
  }

  lemma {:induction false} EndsFrom(cfg: Config, c: Conn, d: Conn) returns (e: Conn)
    requires Reaches(cfg, c, d) && Drying(d.main)
    ensures Reaches(cfg, c, e) && e.main.Ended?
    decreases Ahead(d.main)
  {
    e := d;
    if !d.main.Ended? {
      OnwardLeadsOn(cfg, d);
      Extend(cfg, c, d, Out(Onward(d.main)));
      e := EndsFrom(cfg, c, Effect(cfg, d, Out(Onward(d.main))));
    }
  }

  /** The machine never gets stuck: from every state some continuation takes the connection to its end. */
  lemma EveryConnectionCanEnd(cfg: Config, c: Conn) returns (d: Conn)
    ensures Reaches(cfg, c, d) && d.main.Ended?
  {
    ReachesItself(cfg, c);
    d := c;
    while !Drying(d.main)
      invariant Reaches(cfg, c, d)
      decreases match d.main case Read(_, _) => 2 case Charged(_, _) => 1 case _ => 0
    {
      Extend(cfg, c, d, Out(Onward(d.main)));
      d := Effect(cfg, d, Out(Onward(d.main)));
    }
    d := EndsFrom(cfg, c, d);
  }
}

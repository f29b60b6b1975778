/** The Handler of internal/tunnelagent/handler.go in its own form: a registry updated in place, a charged
    counter, and an outbound pump that reuses one read buffer. */
module Handler {
  import opened Common
  import opened ByteMeter
  import opened ConnWriter
  import opened Connection

  const DEFAULT_FRAME_SIZE: nat := 32768

  class ConnState {
    const id: string
    var ctx: Context
    var queue: seq<Frame>
    var doneCloses: nat
    var bytes: int

    constructor (id: string)
      ensures this.id == id && ctx.Live? && queue == [] && doneCloses == 0 && bytes == 0
    {
      this.id := id;
      ctx, queue, doneCloses, bytes := Live, [], 0, 0;
    }

    method Cancel()
      modifies this`ctx
      ensures ctx == Cut(old(ctx))
    {
      if ctx.Live? { ctx := Cancelled; }
    }
  }

  /** One read of the response body: what the inbound pump charged since the previous read, what the read delivers,
      how it ends, and the state of the context when its error is looked at. */
  datatype BodyRead = BodyRead(meanwhile: seq<nat>, data: seq<byte>, end: End, ctx: Context)

  /** One turn of the inbound pump: whether the connection's goroutine switched the target to the upgraded socket
      and what the outbound pump charged since the last turn, whether the pump sees the context or done channel,
      and how many bytes the target takes of a write and whether that fails. */
  datatype Turn = Turn(upgrade: bool, meanwhile: seq<nat>, stop: bool, takes: nat, fails: bool)

  /** Progress of the inbound pump: its write target, the counter, how many frames it has taken off the queue,
      whether it is over, and whether that was because a charge was refused. */
  datatype Intake = Intake(writer: Writer, counter: int, eaten: nat, over: bool, refused: bool)

  /** One frame: charged, written, and a half-close passed on. */
  function AfterFrame(cap: int, p: Intake, f: Frame, t: Turn): Intake {
    var q := p.(eaten := p.eaten + 1);
    if f.data == [] then AfterForwarding(q, f.halfClose)
    else
      var charged := q.(counter := Add64(p.counter, |f.data|));
      if charged.counter > cap then charged.(writer := PipeShut(p.writer), over := true, refused := true)
      else
        var (n, err) := Taken(p.writer, |f.data|, Min(t.takes, |f.data|), t.fails);
        var wrote := charged.(writer := Wrote(p.writer, f.data[..n]));
        if err then wrote.(over := true) else AfterForwarding(wrote, f.halfClose)
  }

  function AfterForwarding(p: Intake, halfClose: bool): Intake {
    if halfClose then p.(writer := PipeShut(p.writer), over := true) else p
  }

  /** The connection's goroutine acts first. */
  function AfterPartner(p: Intake, t: Turn): Intake {
    p.(writer := if t.upgrade then Upgraded(p.writer) else p.writer, counter := AddAll(p.counter, t.meanwhile))
  }

  function AfterTurn(cap: int, queue: seq<Frame>, p: Intake, t: Turn): Intake {
    var q := AfterPartner(p, t);
    if t.stop then q.(writer := PipeShut(q.writer), over := true)
    else if q.eaten < |queue| then AfterFrame(cap, q, queue[q.eaten], t)
    else q
  }

  /** The pump over a sequence of turns; turns after its end do not happen. */
  function Drained(cap: int, queue: seq<Frame>, start: Intake, turns: seq<Turn>): Intake {
    if turns == [] then start else
      var p := Drained(cap, queue, start, turns[..|turns| - 1]);
      if p.over then p else AfterTurn(cap, queue, p, turns[|turns| - 1])
  }

  /** What the pump wrote is a prefix of the frames it took off the queue, all of it while it goes on; and it
      takes nothing after a half-close. */
  ghost predicate Faithful(queue: seq<Frame>, start: seq<byte>, p: Intake) {
    && WriterOk(p.writer) && p.eaten <= |queue|
    && start <= Written(p.writer) <= start + Stream(queue[..p.eaten])
    && (!p.over ==> Written(p.writer) == start + Stream(queue[..p.eaten]))
    && (forall i :: 0 <= i < p.eaten && queue[i].halfClose ==> p.over && i == p.eaten - 1)
  }

  lemma StreamNext(queue: seq<Frame>, k: nat)
    requires k < |queue|
    ensures Stream(queue[..k + 1]) == Stream(queue[..k]) + queue[k].data
  {
    assert queue[..k + 1][..k] == queue[..k];
  }

  /** What one frame adds to what was written. */
  lemma FrameWrites(cap: int, p: Intake, f: Frame, t: Turn)
    requires WriterOk(p.writer) && !p.over
    ensures var q := AfterFrame(cap, p, f, t);
            && WriterOk(q.writer) && q.eaten == p.eaten + 1 && (f.halfClose ==> q.over)
            && Written(p.writer) <= Written(q.writer) <= Written(p.writer) + f.data
            && (!q.over ==> Written(q.writer) == Written(p.writer) + f.data)
  {
    if f.data != [] {
      var (n, _) := Taken(p.writer, |f.data|, Min(t.takes, |f.data|), t.fails);
      WroteGrows(p.writer, f.data[..n]);
      assert f.data[..|f.data|] == f.data;
    } else {
      assert Written(p.writer) + f.data == Written(p.writer);
    }
  }

  lemma SwitchWritesNothing(w: Writer)
    requires WriterOk(w)
    ensures WriterOk(Upgraded(w)) && Written(Upgraded(w)) == Written(w)
  {
  }

  lemma Between(start: seq<byte>, before: seq<byte>, data: seq<byte>, now: seq<byte>)
    requires start + before <= now <= start + before + data
    ensures start <= now <= start + (before + data)
  {
    assert start + before + data == start + (before + data);
  }

  lemma FrameKeepsFaithful(cap: int, queue: seq<Frame>, start: seq<byte>, p: Intake, t: Turn)
    requires Faithful(queue, start, p) && !p.over && p.eaten < |queue|
    ensures Faithful(queue, start, AfterFrame(cap, p, queue[p.eaten], t))
  {
    var f := queue[p.eaten];
    var q := AfterFrame(cap, p, f, t);
    FrameWrites(cap, p, f, t);
    StreamNext(queue, p.eaten);
    Between(start, Stream(queue[..p.eaten]), f.data, Written(q.writer));
    assert start + Stream(queue[..p.eaten]) + f.data == start + (Stream(queue[..p.eaten]) + f.data);
  }

  lemma {:induction false} DrainedIsFaithful(cap: int, queue: seq<Frame>, start: Intake, turns: seq<Turn>)
    requires WriterOk(start.writer) && start.eaten == 0
    ensures Faithful(queue, Written(start.writer), Drained(cap, queue, start, turns))
  {
    if turns == [] {
      assert Written(start.writer) + Stream([]) == Written(start.writer);
    } else {
      var p := Drained(cap, queue, start, turns[..|turns| - 1]);
      var t := turns[|turns| - 1];
      DrainedIsFaithful(cap, queue, start, turns[..|turns| - 1]);
      SwitchWritesNothing(p.writer);
      if !p.over && !t.stop && p.eaten < |queue| {
        FrameKeepsFaithful(cap, queue, Written(start.writer), AfterPartner(p, t), t);
      }
    }
  }

  /** Everything charged over these turns besides the frames. */
  function PartnerTotal(turns: seq<Turn>): nat {
    if turns == [] then 0 else PartnerTotal(turns[..|turns| - 1]) + Sum(turns[|turns| - 1].meanwhile)
  }

  /** A turn on which nothing stands in the way of these frames. */
  predicate Willing(t: Turn, queue: seq<Frame>) {
    !t.stop && !t.fails && forall k :: 0 <= k < |queue| ==> t.takes >= |queue[k].data|
  }

  /** The target still takes bytes. */
  predicate TargetOpen(w: Writer) {
    !(w.target.BodyPipe? && w.pipeClosed)
  }

  /** All frames taken so far went through whole, and the pump goes on; `others` is what was charged besides them. */
  ghost predicate Through(queue: seq<Frame>, start: seq<byte>, others: int, p: Intake) {
    && !p.over && !p.refused && p.eaten <= |queue| && WriterOk(p.writer) && TargetOpen(p.writer)
    && Written(p.writer) == start + Stream(queue[..p.eaten])
    && p.counter == others + |Stream(queue[..p.eaten])|
  }

  lemma WholeFrameIsWritten(cap: int, p: Intake, f: Frame, t: Turn)
    requires WriterOk(p.writer) && !p.over && TargetOpen(p.writer)
    requires !t.fails && t.takes >= |f.data| && !f.halfClose && 0 <= p.counter && p.counter + |f.data| <= cap < TWO63
    ensures var q := AfterFrame(cap, p, f, t);
            && !q.over && q.refused == p.refused && q.eaten == p.eaten + 1 && q.counter == p.counter + |f.data|
            && WriterOk(q.writer) && Written(q.writer) == Written(p.writer) + f.data && TargetOpen(q.writer)
  {
    assert Add64(p.counter, |f.data|) == p.counter + |f.data|;
    assert f.data[..|f.data|] == f.data;
    if f.data == [] {
      assert Written(p.writer) + f.data == Written(p.writer);
    } else {
      WroteGrows(p.writer, f.data);
    }
  }

  lemma PartnerKeepsThrough(queue: seq<Frame>, start: seq<byte>, others: nat, p: Intake, t: Turn)
    requires Through(queue, start, others, p) && others + Sum(t.meanwhile) + |Stream(queue)| < TWO63
    ensures Through(queue, start, others + Sum(t.meanwhile), AfterPartner(p, t)) && AfterPartner(p, t).eaten == p.eaten
  {
    StreamOfPrefix(queue[..p.eaten], queue);
    AddAllIsSum(p.counter, t.meanwhile);
    SwitchWritesNothing(p.writer);
  }

  lemma StreamGrows(queue: seq<Frame>, start: seq<byte>, k: nat)
    requires k < |queue|
    ensures start + Stream(queue[..k]) + queue[k].data == start + Stream(queue[..k + 1])
    ensures |Stream(queue[..k])| + |queue[k].data| == |Stream(queue[..k + 1])| <= |Stream(queue)|
  {
    StreamNext(queue, k);
    StreamOfPrefix(queue[..k + 1], queue);
    assert start + Stream(queue[..k]) + queue[k].data == start + (Stream(queue[..k]) + queue[k].data);
  }

  lemma FrameKeepsThrough(cap: int, queue: seq<Frame>, start: seq<byte>, others: nat, p: Intake, t: Turn)
    requires Through(queue, start, others, p) && p.eaten < |queue| && others + |Stream(queue)| <= cap < TWO63
    requires Willing(t, queue) && !queue[p.eaten].halfClose
    ensures Through(queue, start, others, AfterFrame(cap, p, queue[p.eaten], t))
    ensures AfterFrame(cap, p, queue[p.eaten], t).eaten == p.eaten + 1
  {
    StreamGrows(queue, start, p.eaten);
    WholeFrameIsWritten(cap, p, queue[p.eaten], t);
  }

  /** Frames that fit the cap get through: on turns that let them, with everything charged in between still within the
      cap, each turn writes one whole frame until the queue is empty. */
  lemma {:induction false} WholeQueueIsWritten(cap: int, queue: seq<Frame>, start: Intake, turns: seq<Turn>)
    requires Through(queue, Written(start.writer), start.counter, start) && start.eaten == 0 && start.counter >= 0
    requires start.counter + PartnerTotal(turns) + |Stream(queue)| <= cap < TWO63
    requires forall i :: 0 <= i < |turns| ==> Willing(turns[i], queue)
    requires forall k :: 0 <= k < |queue| ==> !queue[k].halfClose
    ensures var p := Drained(cap, queue, start, turns);
            && Through(queue, Written(start.writer), start.counter + PartnerTotal(turns), p)
            && p.eaten == Min(|turns|, |queue|)
  {
    if turns != [] {
      var front, t := turns[..|turns| - 1], turns[|turns| - 1];
      WholeQueueIsWritten(cap, queue, start, front);
      var p := Drained(cap, queue, start, front);
      PartnerKeepsThrough(queue, Written(start.writer), start.counter + PartnerTotal(front), p, t);
      if p.eaten < |queue| {
        var others := start.counter + PartnerTotal(turns);
        FrameKeepsThrough(cap, queue, Written(start.writer), others, AfterPartner(p, t), t);
      }
    }
  }

  lemma DrainOneMore(cap: int, queue: seq<Frame>, start: Intake, turns: seq<Turn>, i: nat)
    requires i < |turns|
    ensures Drained(cap, queue, start, turns[..i + 1]) ==
            var p := Drained(cap, queue, start, turns[..i]); if p.over then p else AfterTurn(cap, queue, p, turns[i])
  {
    assert turns[..i + 1][..i] == turns[..i];
  }

  /** Once the pump is over, further turns change nothing. */
  lemma {:induction false} DrainStopsAt(cap: int, queue: seq<Frame>, start: Intake, turns: seq<Turn>, i: nat)
    requires i <= |turns| && (i == |turns| || Drained(cap, queue, start, turns[..i]).over)
    ensures Drained(cap, queue, start, turns) == Drained(cap, queue, start, turns[..i])
    decreases |turns| - i
  {
    if i == |turns| {
      assert turns[..i] == turns;
    } else {
      DrainOneMore(cap, queue, start, turns, i);
      DrainStopsAt(cap, queue, start, turns, i + 1);
    }
  }

  /** Progress of the outbound pump: the chunks framed, whether it goes on or how it ends, the counter, and
      whether a charge was refused. */
  datatype Progress = Progress(chunks: seq<seq<byte>>, main: Main, counter: int, refused: bool)

  function AfterRead(cap: int, p: Progress, r: BodyRead): Progress {
    var before := AddAll(p.counter, r.meanwhile);
    if r.data == [] then Progress(p.chunks, Verdict(r.end, r.ctx), before, false)
    else
      var counter := Add64(before, |r.data|);
      if counter <= cap then Progress(p.chunks + [r.data], Verdict(r.end, r.ctx), counter, false)
      else Progress(p.chunks, Finishing(Option.None), counter, true)
  }

  /** The pump over a sequence of reads; reads after its end do not happen. */
  function Pumped(cap: int, counter: int, bodyReads: seq<BodyRead>): Progress {
    if bodyReads == [] then Progress([], Reading, counter, false) else
      var p := Pumped(cap, counter, bodyReads[..|bodyReads| - 1]);
      if p.main.Reading? then AfterRead(cap, p, bodyReads[|bodyReads| - 1]) else p
  }

  function Body(bodyReads: seq<BodyRead>): seq<byte> {
    if bodyReads == [] then [] else Body(bodyReads[..|bodyReads| - 1]) + bodyReads[|bodyReads| - 1].data
  }

  ghost predicate WellFramed(frameSize: nat, body: seq<byte>, p: Progress) {
    && (forall i :: 0 <= i < |p.chunks| ==> 1 <= |p.chunks[i]| <= frameSize)
    && Flatten(p.chunks) <= body
    && (p.main.Reading? ==> Flatten(p.chunks) == body)
    && (p.main.Reading? || p.main.Finishing?)
  }

  lemma ReadKeepsWellFramed(cap: int, frameSize: nat, body: seq<byte>, p: Progress, r: BodyRead)
    requires WellFramed(frameSize, body, p) && p.main.Reading? && |r.data| <= frameSize
    ensures WellFramed(frameSize, body + r.data, AfterRead(cap, p, r))
  {
    FlattenSnoc(p.chunks, r.data);
    if r.data == [] { assert body + r.data == body; }
  }

  /** Frames are never empty and never larger than the reads; together they are a prefix of the body, and all of
      it as long as the pump goes on. */
  lemma {:induction false} PumpedSpec(cap: int, counter: int, frameSize: nat, bodyReads: seq<BodyRead>)
    requires forall i :: 0 <= i < |bodyReads| ==> |bodyReads[i].data| <= frameSize
    ensures WellFramed(frameSize, Body(bodyReads), Pumped(cap, counter, bodyReads))
  {
    if bodyReads != [] {
      var front, r := bodyReads[..|bodyReads| - 1], bodyReads[|bodyReads| - 1];
      PumpedSpec(cap, counter, frameSize, front);
      if Pumped(cap, counter, front).main.Reading? {
        ReadKeepsWellFramed(cap, frameSize, Body(front), Pumped(cap, counter, front), r);
      }
    }
  }

  /** A pump that closes with "complete" has framed everything up to and including its last read, which was the
      one that reached the end of the body. */
  lemma CompleteMeansWholeBody(cap: int, counter: int, bodyReads: seq<BodyRead>)
    requires bodyReads != [] && Pumped(cap, counter, bodyReads[..|bodyReads| - 1]).main.Reading?
    requires Pumped(cap, counter, bodyReads).main == Finishing(Some(Complete))
    ensures Flatten(Pumped(cap, counter, bodyReads).chunks) == Body(bodyReads) && bodyReads[|bodyReads| - 1].end.Eof?
  {
    var front, r := bodyReads[..|bodyReads| - 1], bodyReads[|bodyReads| - 1];
    AllReading(cap, counter, front);
    FlattenSnoc(Pumped(cap, counter, front).chunks, r.data);
    assert Body(front) + [] == Body(front);
  }

  lemma {:induction false} AllReading(cap: int, counter: int, bodyReads: seq<BodyRead>)
    requires Pumped(cap, counter, bodyReads).main.Reading?
    ensures Flatten(Pumped(cap, counter, bodyReads).chunks) == Body(bodyReads)
  {
    if bodyReads != [] {
      var front, r := bodyReads[..|bodyReads| - 1], bodyReads[|bodyReads| - 1];
      AllReading(cap, counter, front);
      FlattenSnoc(Pumped(cap, counter, front).chunks, r.data);
      assert Body(front) + [] == Body(front);
    }
  }

  /** How the pump takes a read: refused exactly when the read has data that, with everything charged so far, exceeds
      the cap; otherwise it goes on exactly after a read with more to come, and closes with the reason that belongs to
      the read's end and the context at that moment. */
  lemma PumpEndsAsItsRead(cap: int, counter: int, bodyReads: seq<BodyRead>)
    requires bodyReads != [] && Pumped(cap, counter, bodyReads[..|bodyReads| - 1]).main.Reading?
    ensures var before, p := Pumped(cap, counter, bodyReads[..|bodyReads| - 1]), Pumped(cap, counter, bodyReads);
            var r := bodyReads[|bodyReads| - 1];
            && (p.refused <==> r.data != [] && Add64(AddAll(before.counter, r.meanwhile), |r.data|) > cap)
            && (p.refused ==> p.main == Finishing(Option.None))
            && (!p.refused ==>
                  && (p.main == Reading <==> r.end.More?)
                  && (p.main == Finishing(Some(Complete)) <==> r.end.Eof?)
                  && (p.main == Finishing(Some(ReadFailure)) <==> r.end.ReadError? && r.ctx.Live?)
                  && (p.main == Finishing(Some(LifetimeExceeded)) <==> r.end.ReadError? && r.ctx.Expired?)
                  && (p.main == Finishing(Option.None) <==> r.end.ReadError? && r.ctx.Cancelled?))
  {
  }

  /** Everything charged over these reads: what they deliver and what the inbound pump charged. */
  function ReadTotal(bodyReads: seq<BodyRead>): nat {
    if bodyReads == [] then 0 else
      var r := bodyReads[|bodyReads| - 1];
      ReadTotal(bodyReads[..|bodyReads| - 1]) + Sum(r.meanwhile) + |r.data|
  }

  /** A body that fits the cap is framed whole: as long as more is to come the pump reads on, and nothing of what the
      reads delivered is withheld. */
  lemma {:induction false} WholeBodyIsFramed(cap: int, counter: nat, bodyReads: seq<BodyRead>)
    requires counter + ReadTotal(bodyReads) <= cap < TWO63
    requires forall i :: 0 <= i < |bodyReads| - 1 ==> bodyReads[i].end.More?
    ensures var p := Pumped(cap, counter, bodyReads);
            && p.counter == counter + ReadTotal(bodyReads) && !p.refused && Flatten(p.chunks) == Body(bodyReads)
            && (bodyReads == [] || bodyReads[|bodyReads| - 1].end.More? ==> p.main == Reading)
  {
    if bodyReads != [] {
      var front, r := bodyReads[..|bodyReads| - 1], bodyReads[|bodyReads| - 1];
      WholeBodyIsFramed(cap, counter, front);
      var p := Pumped(cap, counter, front);
      assert front != [] ==> front[|front| - 1] == bodyReads[|bodyReads| - 2];
      AddAllIsSum(p.counter, r.meanwhile);
      FlattenSnoc(p.chunks, r.data);
      assert Body(front) + [] == Body(front);
    }
  }

  /** A message handed to Send; a frame's payload is passed by reference. */
  datatype Outgoing = Note(connId: string, message: Message) | Payload(connId: string, data: array<byte>)

  class Handler {
    const frameSize: nat
    const cap: int
    var conns: map<string, ConnState>
    /** What has been handed to Send, in order. */
    var sent: seq<Outgoing>

    constructor (frameSize: int, maxConnBytes: int)
      ensures conns == map[] && sent == [] && Valid()
      ensures this.frameSize == if frameSize > 0 then frameSize else 32 * 1024
      ensures cap == if maxConnBytes > 0 then maxConnBytes else 1024 * 1024 * 1024
    {
      this.frameSize := if frameSize <= 0 then DEFAULT_FRAME_SIZE else frameSize;
      cap := Cap(maxConnBytes);
      conns, sent := map[], [];
    }

    /** Registered connections are filed under their own id and have not closed their done channel. */
    ghost predicate Valid()
      reads this, conns.Values
    {
      forall id :: id in conns ==> conns[id].id == id && conns[id].doneCloses == 0
    }

    method OpenConn(id: string, present: bool) returns (cs: ConnState?)
      requires Valid()
      modifies this`conns
      ensures Valid()
      ensures id == "" || !present || id in old(conns) ==> cs == null && conns == old(conns)
      ensures !(id == "" || !present || id in old(conns)) ==>
                cs != null && fresh(cs) && cs.id == id && conns == old(conns)[id := cs]
    {
      if id == "" || !present { return null; }
      var conn := new ConnState(id);
      if id in conns { return null; }
      conns := conns[id := conn];
      cs := conn;
    }

    /** Removes whatever is registered under the connection's id and signals done. */
    method Unregister(cs: ConnState)
      requires Valid()
      modifies this`conns, cs`doneCloses
      ensures Valid() && conns == old(conns) - {cs.id} && cs.doneCloses == old(cs.doneCloses) + 1
    {
      conns := conns - {cs.id};
      cs.doneCloses := cs.doneCloses + 1;
    }

    method LookUp(id: string) returns (cs: ConnState?)
      requires Valid()
      ensures if id in conns then cs == conns[id] && cs.id == id else cs == null
    {
      cs := if id in conns then conns[id] else null;
    }

    /** The select on a looked-up connection, which may have ended meanwhile: queued if there is room, dropped if it
        is done (either one when both are possible), and otherwise the connection is reported full and cancelled. */
    method Push(cs: ConnState, f: Frame, preferDone: bool)
      modifies this`sent, cs`queue, cs`ctx
      ensures var room, done := old(|cs.queue|) < QUEUE_CAPACITY, cs.doneCloses > 0;
              if room && !(done && preferDone)
              then cs.queue == old(cs.queue) + [f] && sent == old(sent) && cs.ctx == old(cs.ctx)
              else if done
              then cs.queue == old(cs.queue) && sent == old(sent) && cs.ctx == old(cs.ctx)
              else cs.queue == old(cs.queue) && sent == old(sent) + [Note(cs.id, OVERFLOW_NOTICE)]
                   && cs.ctx == Cut(old(cs.ctx))
    {
      if |cs.queue| < QUEUE_CAPACITY && !(cs.doneCloses > 0 && preferDone) {
        cs.queue := cs.queue + [f];
      } else if cs.doneCloses == 0 {
        sent := sent + [Note(cs.id, OVERFLOW_NOTICE)];
        cs.Cancel();
      }
    }

    /** Queues the frame on the connection registered under its id, or ends that connection when it is full. */
    method DeliverFrame(id: string, f: Option<Frame>)
      requires Valid()
      modifies this`sent, (if id in conns && f.Some? then {conns[id]} else {})`queue,
               (if id in conns && f.Some? then {conns[id]} else {})`ctx
      ensures Valid()
      ensures id !in conns || f.None? ==> sent == old(sent)
      ensures id in conns && f.Some? ==>
                if old(|conns[id].queue|) < QUEUE_CAPACITY
                then conns[id].queue == old(conns[id].queue) + [f.value] && sent == old(sent)
                     && conns[id].ctx == old(conns[id].ctx)
                else conns[id].queue == old(conns[id].queue) && sent == old(sent) + [Note(id, OVERFLOW_NOTICE)]
                     && conns[id].ctx == Cut(old(conns[id].ctx))
    {
      var cs := LookUp(id);
      if cs == null || f.None? { return; }
      Push(cs, f.value, false);
    }

    /** A hub close cancels the connection and echoes nothing. */
    method CloseFromHub(id: string)
      requires Valid()
      modifies (if id in conns then {conns[id]} else {})`ctx
      ensures Valid() && (id in conns ==> conns[id].ctx == Cut(old(conns[id].ctx)))
    {
      if id in conns { conns[id].Cancel(); }
    }

    /** Cancels every registered connection without notifying the hub. */
    method ResetAll()
      requires Valid()
      modifies conns.Values`ctx
      ensures Valid() && forall id :: id in conns ==> conns[id].ctx == Cut(old(conns[id].ctx))
    {
      var todo := conns.Keys;
      while todo != {}
        invariant todo <= conns.Keys && Valid()
        invariant forall id :: id in conns ==>
                    conns[id].ctx == if id in todo then old(conns[id].ctx) else Cut(old(conns[id].ctx))
        decreases todo
      {
        var id :| id in todo;
        todo := todo - {id};
        conns[id].Cancel();
      }
    }

    /** Charges the shared counter; a refused charge notifies the hub and cancels the connection. */
    method ChargeBytes(cs: ConnState, n: nat) returns (ok: bool)
      modifies this`sent, cs`bytes, cs`ctx
      ensures cs.bytes == Add64(old(cs.bytes), n) && ok == (cs.bytes <= cap)
      ensures ok ==> sent == old(sent) && cs.ctx == old(cs.ctx)
      ensures !ok ==> sent == old(sent) + [Note(cs.id, CAP_NOTICE)] && cs.ctx == Cut(old(cs.ctx))
    {
      cs.bytes := Add64(cs.bytes, n);
      if cs.bytes <= cap { return true; }
      sent := sent + [Note(cs.id, CAP_NOTICE)];
      cs.Cancel();
      ok := false;
    }

    /** Forwards one dequeued frame to the write target. */
    method ForwardOne(cs: ConnState, w: ConnWriter, f: Frame, t: Turn, ghost eaten: nat)
      returns (over: bool, refused: bool)
      requires WriterOk(w.View())
      modifies this`sent, cs`bytes, cs`ctx, w
      ensures WriterOk(w.View())
      ensures Intake(w.View(), cs.bytes, eaten + 1, over, refused) ==
              AfterFrame(cap, Intake(old(w.View()), old(cs.bytes), eaten, false, false), f, t)
      ensures sent == old(sent) + if refused then [Note(cs.id, CAP_NOTICE)] else []
      ensures cs.ctx == if refused then Cut(old(cs.ctx)) else old(cs.ctx)
    {
      if |f.data| > 0 {
        var ok := ChargeBytes(cs, |f.data|);
        if !ok {
          w.ClosePipe();
          return true, true;
        }
        var _, err := w.Write(f.data, Min(t.takes, |f.data|), t.fails);
        if err { return true, false; }
      }
      if f.halfClose {
        var _ := w.HalfClose();
      }
      over, refused := f.halfClose, false;
    }

    /** One turn of the inbound pump. */
    method TakeTurn(cs: ConnState, w: ConnWriter, t: Turn, eaten: nat, ghost queue: seq<Frame>)
      returns (over: bool, refused: bool, now: nat)
      requires WriterOk(w.View()) && eaten <= |queue| && cs.queue == queue[eaten..]
      modifies this`sent, cs`queue, cs`bytes, cs`ctx, w
      ensures WriterOk(w.View()) && now <= |queue| && cs.queue == queue[now..]
      ensures Intake(w.View(), cs.bytes, now, over, refused) ==
              AfterTurn(cap, queue, Intake(old(w.View()), old(cs.bytes), eaten, false, false), t)
      ensures sent == old(sent) + if refused then [Note(cs.id, CAP_NOTICE)] else []
      ensures cs.ctx == if refused then Cut(old(cs.ctx)) else old(cs.ctx)
    {
      over, refused, now := false, false, eaten;
      if t.upgrade { w.UpgradeTo(); }
      cs.bytes := AddAll(cs.bytes, t.meanwhile);
      if t.stop {
        w.ClosePipe();
        over := true;
      } else if cs.queue != [] {
        var f := cs.queue[0];
        cs.queue := cs.queue[1..];
        over, refused := ForwardOne(cs, w, f, t, eaten);
        now := eaten + 1;
      }
    }

    /** Drains the queue into the write target until told to stop, a half-close, a refusal or a failed write. */
    method InboundPump(cs: ConnState, w: ConnWriter, turns: seq<Turn>) returns (over: bool, refused: bool, eaten: nat)
      requires WriterOk(w.View())
      modifies this`sent, cs`queue, cs`bytes, cs`ctx, w
      ensures Intake(w.View(), cs.bytes, eaten, over, refused) ==
              Drained(cap, old(cs.queue), Intake(old(w.View()), old(cs.bytes), 0, false, false), turns)
      ensures eaten <= old(|cs.queue|) && cs.queue == old(cs.queue)[eaten..]
      ensures sent == old(sent) + if refused then [Note(cs.id, CAP_NOTICE)] else []
      ensures cs.ctx == if refused then Cut(old(cs.ctx)) else old(cs.ctx)
    {
      over, refused, eaten := false, false, 0;
      ghost var start, queue := Intake(w.View(), cs.bytes, 0, false, false), cs.queue;
      var i := 0;
      while i < |turns| && !over
        invariant i <= |turns| && eaten <= |queue| && cs.queue == queue[eaten..] && WriterOk(w.View())
        invariant Intake(w.View(), cs.bytes, eaten, over, refused) == Drained(cap, queue, start, turns[..i])
        invariant refused ==> over
        invariant sent == old(sent) + if refused then [Note(cs.id, CAP_NOTICE)] else []
        invariant cs.ctx == if refused then Cut(old(cs.ctx)) else old(cs.ctx)
      {
        DrainOneMore(cap, queue, start, turns, i);
        over, refused, eaten := TakeTurn(cs, w, turns[i], eaten, queue);
        i := i + 1;
      }
      DrainStopsAt(cap, queue, start, turns, i);
    }

    /** One body read into the shared buffer. */
    method ReadInto(buf: array<byte>, data: seq<byte>) returns (n: nat)
      requires |data| <= buf.Length
      modifies buf
      ensures n == |data| && buf[..n] == data
    {
      n := |data|;
      for i := 0 to n
        invariant buf[..i] == data[..i]
      {
        buf[i] := data[i];
      }
    }

    /** A copy of the buffer's first n bytes that later reads cannot touch. */
    method CopyOf(buf: array<byte>, n: nat) returns (data: array<byte>)
      requires n <= buf.Length
      ensures fresh(data) && data[..] == buf[..n]
    {
      data := new byte[n];
      for i := 0 to n
        invariant data[..i] == buf[..i]
      {
        data[i] := buf[i];
      }
      assert data[..n] == data[..];
    }

    /** One read of the pump: charge it, copy it out of the shared buffer, hand it to Send. */
    method RelayOne(cs: ConnState, buf: array<byte>, r: BodyRead)
      returns (main: Main, frame: Option<array<byte>>, refused: bool)
      requires |r.data| <= buf.Length
      modifies this`sent, cs`bytes, cs`ctx, buf
      ensures frame.Some? ==> fresh(frame.value) && frame.value[..] == r.data
      ensures AfterRead(cap, Progress([], Reading, old(cs.bytes), false), r) ==
              Progress(if frame.Some? then [r.data] else [], main, cs.bytes, refused)
      ensures sent == old(sent) + if frame.Some? then [Payload(cs.id, frame.value)]
                                  else if refused then [Note(cs.id, CAP_NOTICE)] else []
      ensures cs.ctx == if refused then Cut(old(cs.ctx)) else old(cs.ctx)
    {
      cs.bytes := AddAll(cs.bytes, r.meanwhile);
      frame, refused := Option.None, false;
      var n := ReadInto(buf, r.data);
      if n > 0 {
        var ok := ChargeBytes(cs, n);
        if !ok { return Finishing(Option.None), Option.None, true; }
        var data := CopyOf(buf, n);
        frame := Some(data);
        sent := sent + [Payload(cs.id, data)];
      }
      main := Verdict(r.end, r.ctx);
    }

    /** Streams the response into frames. Every frame still holds, at the end, the bytes of the read it was cut
        from, although all reads went through one buffer; and they were handed to Send in order. */
    method OutboundPump(cs: ConnState, bodyReads: seq<BodyRead>)
      returns (main: Main, frames: seq<array<byte>>, refused: bool)
      requires forall i :: 0 <= i < |bodyReads| ==> |bodyReads[i].data| <= frameSize
      modifies this`sent, cs`bytes, cs`ctx
      ensures var p := Pumped(cap, old(cs.bytes), bodyReads);
              && main == p.main && cs.bytes == p.counter && refused == p.refused && |frames| == |p.chunks|
              && forall k :: 0 <= k < |frames| ==> frames[k][..] == p.chunks[k]
      ensures sent == old(sent) + Payloads(cs.id, frames) + if refused then [Note(cs.id, CAP_NOTICE)] else []
      ensures cs.ctx == if refused then Cut(old(cs.ctx)) else old(cs.ctx)
    {
      var buf := new byte[frameSize];
      main, frames, refused := Reading, [], false;
      ghost var chunks: seq<seq<byte>> := [];
      var i := 0;
      while i < |bodyReads| && main.Reading?
        invariant i <= |bodyReads| && (refused ==> !main.Reading?)
        invariant Pumped(cap, old(cs.bytes), bodyReads[..i]) == Progress(chunks, main, cs.bytes, refused)
        invariant |frames| == |chunks|
        invariant forall k :: 0 <= k < |frames| ==> fresh(frames[k]) && frames[k] != buf && frames[k][..] == chunks[k]
        invariant sent == old(sent) + Payloads(cs.id, frames) + if refused then [Note(cs.id, CAP_NOTICE)] else []
        invariant cs.ctx == if refused then Cut(old(cs.ctx)) else old(cs.ctx)
      {
        PumpOneMore(cap, old(cs.bytes), bodyReads, i);
        var frame;
        main, frame, refused := RelayOne(cs, buf, bodyReads[i]);
        if frame.Some? {
          PayloadsSnoc(cs.id, frames, frame.value);
          frames := frames + [frame.value];
          chunks := chunks + [bodyReads[i].data];
        }
        i := i + 1;
      }
      StopsAt(cap, old(cs.bytes), bodyReads, i);
    }
  }

  function Payloads(id: string, frames: seq<array<byte>>): seq<Outgoing> {
    seq(|frames|, i requires 0 <= i < |frames| => Payload(id, frames[i]))
  }

  lemma PayloadsSnoc(id: string, frames: seq<array<byte>>, data: array<byte>)
    ensures Payloads(id, frames + [data]) == Payloads(id, frames) + [Payload(id, data)]
  {
  }

  /** One more read, expressed from an empty list of chunks. */
  lemma PumpOneMore(cap: int, counter: int, bodyReads: seq<BodyRead>, i: nat)
    requires i < |bodyReads| && Pumped(cap, counter, bodyReads[..i]).main.Reading?
    ensures var p := Pumped(cap, counter, bodyReads[..i]);
            var q := AfterRead(cap, Progress([], Reading, p.counter, false), bodyReads[i]);
            Pumped(cap, counter, bodyReads[..i + 1]) == Progress(p.chunks + q.chunks, q.main, q.counter, q.refused)
  {
    assert bodyReads[..i + 1][..i] == bodyReads[..i];
    var p := Pumped(cap, counter, bodyReads[..i]);
    assert p.chunks + [] == p.chunks;
  }

  /** Once the pump has ended, further reads change nothing. */
  lemma {:induction false} StopsAt(cap: int, counter: int, bodyReads: seq<BodyRead>, i: nat)
    requires i <= |bodyReads| && (i == |bodyReads| || !Pumped(cap, counter, bodyReads[..i]).main.Reading?)
    ensures Pumped(cap, counter, bodyReads) == Pumped(cap, counter, bodyReads[..i])
    decreases |bodyReads| - i
  {
    if i == |bodyReads| {
      assert bodyReads[..i] == bodyReads;
    } else {
      assert bodyReads[..i + 1][..i] == bodyReads[..i];
      StopsAt(cap, counter, bodyReads, i + 1);
    }
  }
}

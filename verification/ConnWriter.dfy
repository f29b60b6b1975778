/** The write target of one tunnelled connection (internal/tunnelagent/handler.go): request body, then socket. */
module ConnWriter {
  import opened Common

  newtype byte = x: int | 0 <= x < 256

  datatype Target = BodyPipe | Discarded | Socket

  /** What the writer points at and what has happened to its targets so far: the bytes that reached the first
      target and the upgraded socket, and how often the pipe was closed and the target switched. */
  datatype Writer = Writer(target: Target, hasPipe: bool, pipeClosed: bool,
                           first: seq<byte>, socket: seq<byte>, pipeCloses: nat, switches: nat)

  /** Methods without a body discard inbound frames instead of feeding a pipe. */
  function Initial(bodyAllowed: bool): Writer {
    Writer(if bodyAllowed then BodyPipe else Discarded, bodyAllowed, false, [], [], 0, 0)
  }

  function Written(w: Writer): seq<byte> {
    w.first + w.socket
  }

  function Wrote(w: Writer, p: seq<byte>): Writer {
    if w.target.Socket? then w.(socket := w.socket + p) else w.(first := w.first + p)
  }

  /** How many of `size` bytes reach a target willing to take n, and whether the write fails; a closed pipe
      takes none. */
  function Taken(w: Writer, size: nat, n: nat, fails: bool): (nat, bool)
    requires n <= size
  {
    if w.target.BodyPipe? && w.pipeClosed then (0, true) else (n, fails || n < size)
  }

  function PipeShut(w: Writer): Writer {
    if !w.pipeClosed && w.hasPipe then w.(pipeClosed := true, pipeCloses := w.pipeCloses + 1) else w
  }

  function Upgraded(w: Writer): Writer {
    PipeShut(w).(target := Socket, switches := w.switches + 1)
  }

  /** The pipe is closed at most once, and nothing reaches the socket before the switch. */
  predicate WriterOk(w: Writer) {
    && w.pipeCloses == (if w.pipeClosed then 1 else 0)
    && (w.pipeClosed ==> w.hasPipe)
    && (w.target.Socket? <==> w.switches > 0)
    && (!w.target.Socket? ==> w.socket == [])
  }

  class ConnWriter {
    var target: Target
    const hasPipe: bool
    var pipeClosed: bool
    var first: seq<byte>
    var socket: seq<byte>
    var pipeCloses: nat
    ghost var switches: nat

    constructor (bodyAllowed: bool)
      ensures View() == Initial(bodyAllowed) && WriterOk(View())
    {
      target, hasPipe := if bodyAllowed then BodyPipe else Discarded, bodyAllowed;
      pipeClosed, first, socket, pipeCloses, switches := false, [], [], 0, 0;
    }

    ghost function View(): Writer
      reads this
    {
      Writer(target, hasPipe, pipeClosed, first, socket, pipeCloses, switches)
    }

    /** Writes to the current target, which takes n bytes and may fail; a closed pipe takes none. */
    method Write(p: seq<byte>, n: nat, fails: bool) returns (written: nat, err: bool)
      requires n <= |p| && WriterOk(View())
      modifies this
      ensures WriterOk(View()) && (written, err) == Taken(old(View()), |p|, n, fails)
      ensures View() == Wrote(old(View()), p[..written])
    {
      if target.BodyPipe? && pipeClosed {
        assert p[..0] == [] && first + [] == first;
        return 0, true;
      }
      if target.Socket? {
        socket := socket + p[..n];
      } else {
        first := first + p[..n];
      }
      written, err := n, fails || n < |p|;
    }

    method ClosePipe()
      requires WriterOk(View())
      modifies this
      ensures WriterOk(View()) && View() == PipeShut(old(View()))
      ensures (hasPipe ==> pipeClosed) && target == old(target) && first == old(first) && socket == old(socket)
    {
      if !pipeClosed && hasPipe {
        pipeClosed := true;
        pipeCloses := pipeCloses + 1;
      }
    }

    method UpgradeTo()
      requires WriterOk(View())
      modifies this
      ensures WriterOk(View()) && View() == Upgraded(old(View()))
      ensures target.Socket? && switches == old(switches) + 1 && (hasPipe ==> pipeClosed)
      ensures first == old(first) && socket == old(socket)
    {
      ClosePipe();
      target := Socket;
      switches := switches + 1;
    }

    /** EOF on the body pipe; the socket's write side is shut down when it supports that. */
    method HalfClose() returns (shutdownSocket: bool)
      requires WriterOk(View())
      modifies this
      ensures WriterOk(View()) && View() == PipeShut(old(View()))
      ensures (hasPipe ==> pipeClosed) && target == old(target) && first == old(first) && socket == old(socket)
      ensures shutdownSocket <==> target.Socket?
    {
      ClosePipe();
      shutdownSocket := target.Socket?;
    }
  }
}

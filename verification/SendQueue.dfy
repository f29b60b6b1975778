/** The send path of internal/stream/client_connect.go as a step machine: senders, the shared queue, and one
    send pump per session, interleaved in any way. */
module SendQueue {
  import opened Common

  const CAPACITY: nat := 256

  /** Pongs carry sequence number zero. */
  datatype Event = Event(seqNo: nat, body: string)

  /** A session's pump: what it has taken, as positions in queue order, and how far that got. The event after
      the wire, if any, is in the pump's hand while it lives and is the one it failed to send once it is over. */
  datatype Pump = Pump(taken: seq<nat>, wire: nat, over: bool)

  /** `accepted` is everything ever put on the queue, and owner[p] the pump that took position p; the queue is
      what no pump has taken yet. */
  datatype State = State(stamped: nat, sending: seq<Event>, accepted: seq<Event>, owner: seq<nat>, pumps: seq<Pump>)

  const INITIAL: State := State(0, [], [], [], [])

  function Queued(s: State): int {
    |s.accepted| - |s.owner|
  }

  datatype Action =
    | Stamp(body: string)          // Send assigns the next number
    | Enqueue(sender: nat)         // ... and its select takes the queue slot
    | Abandon(sender: nat)         // ... or the context ends first
    | Pong(body: string)           // answer to a ping: queued if there is room, dropped otherwise
    | Open                         // a session starts its pump
    | Take(pump: nat)              // a pump receives the head of the queue
    | Put(pump: nat, ok: bool)     // its stream send succeeds, or fails and ends the pump
    | Stop(pump: nat)              // the session's context ends an idle pump

  function Without(xs: seq<Event>, i: nat): seq<Event>
    requires i < |xs|
  {
    xs[..i] + xs[i + 1..]
  }

  predicate Enabled(s: State, a: Action) {
    match a
    case Stamp(_) => true
    case Enqueue(i) => i < |s.sending| && Queued(s) < CAPACITY
    case Abandon(i) => i < |s.sending|
    case Pong(_) => true
    case Open => true
    case Take(k) => k < |s.pumps| && !s.pumps[k].over && s.pumps[k].wire == |s.pumps[k].taken| && Queued(s) > 0
    case Put(k, _) => k < |s.pumps| && !s.pumps[k].over && s.pumps[k].wire < |s.pumps[k].taken|
    case Stop(k) => k < |s.pumps| && !s.pumps[k].over && s.pumps[k].wire == |s.pumps[k].taken|
  }

  function Effect(s: State, a: Action): State
    requires Enabled(s, a)
  {
    match a
    case Stamp(body) => s.(stamped := s.stamped + 1, sending := s.sending + [Event(s.stamped + 1, body)])
    case Enqueue(i) => s.(sending := Without(s.sending, i), accepted := s.accepted + [s.sending[i]])
    case Abandon(i) => s.(sending := Without(s.sending, i))
    case Pong(body) => if Queued(s) < CAPACITY then s.(accepted := s.accepted + [Event(0, body)]) else s
    case Open => s.(pumps := s.pumps + [Pump([], 0, false)])
    case Take(k) =>
      s.(owner := s.owner + [k], pumps := s.pumps[k := s.pumps[k].(taken := s.pumps[k].taken + [|s.owner|])])
    case Put(k, ok) =>
      s.(pumps := s.pumps[k := if ok then s.pumps[k].(wire := s.pumps[k].wire + 1) else s.pumps[k].(over := true)])
    case Stop(k) => s.(pumps := s.pumps[k := s.pumps[k].(over := true)])
  }

  /** Any sequence of actions is a schedule; actions that are not enabled do nothing. */
  function Run(actions: seq<Action>): State {
    if actions == [] then INITIAL else
      var s, a := Run(actions[..|actions| - 1]), actions[|actions| - 1];
      if Enabled(s, a) then Effect(s, a) else s
  }

  // ----- where accepted events are

  predicate Increasing(xs: seq<nat>) {
    forall i, j :: 0 <= i < j < |xs| ==> xs[i] < xs[j]
  }

  /** A pump holds, in queue order, positions it owns, and all but at most the last are on its wire. */
  ghost predicate PumpOk(s: State, k: nat)
    requires k < |s.pumps|
  {
    var p := s.pumps[k];
    && p.wire <= |p.taken| <= p.wire + 1
    && Increasing(p.taken)
    && forall i :: 0 <= i < |p.taken| ==> p.taken[i] < |s.owner| && s.owner[p.taken[i]] == k
  }

  /** Every position is either still queued or with its owner, which is a pump. */
  ghost predicate Conserved(s: State) {
    && 0 <= Queued(s) <= CAPACITY
    && (forall k :: 0 <= k < |s.pumps| ==> PumpOk(s, k))
    && (forall p :: 0 <= p < |s.owner| ==> s.owner[p] < |s.pumps| && p in s.pumps[s.owner[p]].taken)
  }

  /** Stamped numbers are handed out once: in the senders' hands and on the queue they never repeat. */
  ghost predicate Numbered(s: State) {
    && (forall i :: 0 <= i < |s.sending| ==> 1 <= s.sending[i].seqNo <= s.stamped)
    && (forall i :: 0 <= i < |s.accepted| ==> s.accepted[i].seqNo <= s.stamped)
    && (forall i, j :: 0 <= i < j < |s.sending| ==> s.sending[i].seqNo != s.sending[j].seqNo)
    && (forall i, j :: 0 <= i < |s.sending| && 0 <= j < |s.accepted| ==> s.sending[i].seqNo != s.accepted[j].seqNo)
    && (forall i, j :: 0 <= i < j < |s.accepted| && s.accepted[i].seqNo > 0 ==>
          s.accepted[i].seqNo != s.accepted[j].seqNo)
  }

  lemma StepKeepsConserved(s: State, a: Action)
    requires Conserved(s) && Enabled(s, a)
    ensures Conserved(Effect(s, a))
  {
    var t := Effect(s, a);
    forall k | 0 <= k < |t.pumps|
      ensures PumpOk(t, k)
    {
      if k < |s.pumps| { assert PumpOk(s, k); }
    }
    if a.Take? {
      var taken := s.pumps[a.pump].taken;
      assert forall p :: p in taken + [|s.owner|] <==> p in taken || p == |s.owner|;
    }
  }

  lemma EnqueueKeepsNumbered(s: State, i: nat)
    requires Numbered(s) && Enabled(s, Enqueue(i))
    ensures Numbered(Effect(s, Enqueue(i)))
  {
    var t := Effect(s, Enqueue(i));
    assert forall j :: 0 <= j < |t.sending| ==> t.sending[j] == s.sending[if j < i then j else j + 1];
  }

  lemma AbandonKeepsNumbered(s: State, i: nat)
    requires Numbered(s) && Enabled(s, Abandon(i))
    ensures Numbered(Effect(s, Abandon(i)))
  {
    var t := Effect(s, Abandon(i));
    assert forall j :: 0 <= j < |t.sending| ==> t.sending[j] == s.sending[if j < i then j else j + 1];
  }

  lemma PongKeepsNumbered(s: State, body: string)
    requires Numbered(s)
    ensures Numbered(Effect(s, Pong(body)))
  {
  }

  lemma StampKeepsNumbered(s: State, body: string)
    requires Numbered(s)
    ensures Numbered(Effect(s, Stamp(body)))
  {
  }

  lemma StepKeepsNumbered(s: State, a: Action)
    requires Numbered(s) && Enabled(s, a)
    ensures Numbered(Effect(s, a))
  {
    match a {
      case Enqueue(i) => EnqueueKeepsNumbered(s, i);
      case Abandon(i) => AbandonKeepsNumbered(s, i);
      case Pong(body) => PongKeepsNumbered(s, body);
      case Stamp(body) => StampKeepsNumbered(s, body);
      case _ =>
    }
  }

  lemma {:induction false} RunInvariant(actions: seq<Action>)
    ensures Conserved(Run(actions)) && Numbered(Run(actions))
  {
    if actions != [] {
      var s, a := Run(actions[..|actions| - 1]), actions[|actions| - 1];
      RunInvariant(actions[..|actions| - 1]);
      if Enabled(s, a) {
        StepKeepsConserved(s, a);
        StepKeepsNumbered(s, a);
      }
    }
  }

  // ----- the claims

  datatype Place = Waiting | Wired(pump: nat, index: nat) | InHand(pump: nat) | FailedBy(pump: nat)

  predicate At(s: State, p: nat, place: Place) {
    match place
    case Waiting => p >= |s.owner|
    case Wired(k, i) => k < |s.pumps| && i < s.pumps[k].wire <= |s.pumps[k].taken| && s.pumps[k].taken[i] == p
    case InHand(k) => k < |s.pumps| && !s.pumps[k].over && Last(s.pumps[k], p)
    case FailedBy(k) => k < |s.pumps| && s.pumps[k].over && Last(s.pumps[k], p)
  }

  predicate Last(pump: Pump, p: nat) {
    pump.wire < |pump.taken| && pump.taken[pump.wire] == p
  }

  /** Where position p is. */
  ghost function PlaceOf(s: State, p: nat): (place: Place)
    requires Conserved(s)
    ensures At(s, p, place)
  {
    if p >= |s.owner| then Waiting
    else
      var k := s.owner[p];
      assert PumpOk(s, k);
      var i: nat :| i < |s.pumps[k].taken| && s.pumps[k].taken[i] == p;
      if i < s.pumps[k].wire then Wired(k, i) else if s.pumps[k].over then FailedBy(k) else InHand(k)
  }

  lemma PlaceIsUnique(s: State, p: nat, a: Place, b: Place)
    requires Conserved(s) && At(s, p, a) && At(s, p, b)
    ensures a == b
  {
    assert a.Waiting? || PumpOk(s, a.pump);
    assert b.Waiting? || PumpOk(s, b.pump);
  }

  /** Under every schedule each accepted event is in exactly one place: still queued, on exactly one session's
      wire once, in one pump's hand, or the single event that pump failed to send. */
  lemma EveryEventIsInOnePlace(actions: seq<Action>, p: nat)
    requires p < |Run(actions).accepted|
    ensures exists place :: At(Run(actions), p, place)
    ensures forall a, b :: At(Run(actions), p, a) && At(Run(actions), p, b) ==> a == b
  {
    var s := Run(actions);
    RunInvariant(actions);
    var place := PlaceOf(s, p);
    forall a, b | At(s, p, a) && At(s, p, b)
      ensures a == b
    {
      PlaceIsUnique(s, p, a, b);
    }
  }

  /** Under every schedule each wire is a subsequence of queue order, and no stamped number is in two places
      of any wires. */
  lemma WiresFollowQueueOrder(actions: seq<Action>, p: nat, q: nat, k: nat, i: nat, l: nat, j: nat)
    requires At(Run(actions), p, Wired(k, i)) && At(Run(actions), q, Wired(l, j))
    ensures p < |Run(actions).accepted| && q < |Run(actions).accepted|
    ensures k == l && i < j ==> p < q
    ensures (k, i) != (l, j) && Run(actions).accepted[p].seqNo > 0
            ==> Run(actions).accepted[p].seqNo != Run(actions).accepted[q].seqNo
  {
    var s := Run(actions);
    RunInvariant(actions);
    assert PumpOk(s, k) && PumpOk(s, l);
    if p == q {
      PlaceIsUnique(s, p, Wired(k, i), Wired(l, j));
    }
  }

  // ----- where the numbers come from

  /** What Send was asked to send, in the order in which it stamped. */
  function Stamps(actions: seq<Action>): seq<string> {
    if actions == [] then [] else
      Stamps(actions[..|actions| - 1]) +
      match actions[|actions| - 1]
      case Stamp(body) => [body]
      case _ => []
  }

  /** A number n > 0 belongs to the n-th stamped event; number zero to a pong. */
  ghost predicate Accounted(actions: seq<Action>, e: Event) {
    if e.seqNo > 0 then e.seqNo <= |Stamps(actions)| && e.body == Stamps(actions)[e.seqNo - 1]
    else Pong(e.body) in actions
  }

  lemma AccountedLater(actions: seq<Action>, e: Event)
    requires actions != [] && Accounted(actions[..|actions| - 1], e)
    ensures Accounted(actions, e)
  {
  }

  ghost predicate AllAccounted(actions: seq<Action>, s: State) {
    && s.stamped == |Stamps(actions)|
    && (forall i :: 0 <= i < |s.sending| ==> s.sending[i].seqNo > 0 && Accounted(actions, s.sending[i]))
    && (forall i :: 0 <= i < |s.accepted| ==> Accounted(actions, s.accepted[i]))
  }

  /** Under every schedule the sequence counter is the number of Sends, whatever pongs were answered or dropped and
      whatever the pumps did; the event numbered n is the n-th one Send stamped, and events without a number are
      pongs. */
  lemma {:induction false} OnlySendsConsumeNumbers(actions: seq<Action>)
    ensures AllAccounted(actions, Run(actions))
  {
    if actions != [] {
      var front, a := actions[..|actions| - 1], actions[|actions| - 1];
      var s, t := Run(front), Run(actions);
      OnlySendsConsumeNumbers(front);
      forall e | Accounted(front, e)
        ensures Accounted(actions, e)
      {
        AccountedLater(actions, e);
      }
      if a.Enqueue? || a.Abandon? {
        assert a.sender < |s.sending| ==>
          forall j :: 0 <= j < |t.sending| ==> t.sending[j] in s.sending;
      }
    }
  }

  // ----- nothing handed to Send is lost

  /** The numbers of events whose sender gave up. */
  function Abandoned(actions: seq<Action>): set<nat> {
    if actions == [] then {} else
      var s, a := Run(actions[..|actions| - 1]), actions[|actions| - 1];
      Abandoned(actions[..|actions| - 1]) + if Enabled(s, a) then AbandonedAt(s, a) else {}
  }

  function AbandonedAt(s: State, a: Action): set<nat>
    requires Enabled(s, a)
  {
    if a.Abandon? then {s.sending[a.sender].seqNo} else {}
  }

  /** Where a stamped event can be: in its sender's hand, accepted at a position of the queue, or given up. */
  datatype Station = InSend(sender: nat) | AcceptedAt(position: nat) | GivenUp

  predicate Stands(s: State, gone: set<nat>, n: nat, station: Station) {
    match station
    case InSend(i) => i < |s.sending| && s.sending[i].seqNo == n
    case AcceptedAt(p) => p < |s.accepted| && s.accepted[p].seqNo == n
    case GivenUp => n in gone
  }

  ghost predicate Somewhere(s: State, gone: set<nat>, n: nat) {
    exists station :: Stands(s, gone, n, station)
  }

  /** Where an event goes when a sender's select is decided. */
  function Moved(s: State, a: Action, station: Station): Station {
    match station
    case InSend(i) =>
      if a.Enqueue? && i == a.sender then AcceptedAt(|s.accepted|)
      else if a.Abandon? && i == a.sender then GivenUp
      else if (a.Enqueue? || a.Abandon?) && i > a.sender then InSend(i - 1)
      else station
    case _ => station
  }

  /** Every number handed out is somewhere, and what was given up is nowhere else. */
  ghost predicate AllStand(s: State, gone: set<nat>) {
    && (forall n: nat :: 1 <= n <= s.stamped ==> Somewhere(s, gone, n))
    && (forall n :: n in gone ==> 1 <= n <= s.stamped)
    && (forall i :: 0 <= i < |s.sending| ==> s.sending[i].seqNo !in gone)
    && (forall i :: 0 <= i < |s.accepted| ==> s.accepted[i].seqNo !in gone)
  }

  lemma MoveStands(s: State, a: Action, gone: set<nat>, n: nat, station: Station)
    requires Enabled(s, a) && Stands(s, gone, n, station)
    ensures Stands(Effect(s, a), gone + AbandonedAt(s, a), n, Moved(s, a, station))
  {
  }

  lemma StepKeepsExclusion(s: State, a: Action, gone: set<nat>)
    requires Enabled(s, a) && Numbered(s) && AllStand(s, gone)
    ensures var t, gone' := Effect(s, a), gone + AbandonedAt(s, a);
            && (forall n :: n in gone' ==> 1 <= n <= t.stamped)
            && (forall i :: 0 <= i < |t.sending| ==> t.sending[i].seqNo !in gone')
            && (forall i :: 0 <= i < |t.accepted| ==> t.accepted[i].seqNo !in gone')
  {
    var t := Effect(s, a);
    if a.Enqueue? || a.Abandon? {
      assert forall j :: 0 <= j < |t.sending| ==> t.sending[j] == s.sending[if j < a.sender then j else j + 1];
    }
  }

  lemma StepKeepsAllStand(s: State, a: Action, gone: set<nat>)
    requires Enabled(s, a) && Numbered(s) && AllStand(s, gone)
    ensures AllStand(Effect(s, a), gone + AbandonedAt(s, a))
  {
    var t, gone' := Effect(s, a), gone + AbandonedAt(s, a);
    StepKeepsExclusion(s, a, gone);
    forall n: nat | 1 <= n <= t.stamped
      ensures Somewhere(t, gone', n)
    {
      if n <= s.stamped {
        assert Somewhere(s, gone, n);
        var station :| Stands(s, gone, n, station);
        MoveStands(s, a, gone, n, station);
      } else {
        assert Stands(t, gone', n, InSend(|s.sending|));
      }
    }
  }

  lemma {:induction false} RunAllStand(actions: seq<Action>)
    ensures AllStand(Run(actions), Abandoned(actions))
  {
    if actions != [] {
      var s, a := Run(actions[..|actions| - 1]), actions[|actions| - 1];
      RunAllStand(actions[..|actions| - 1]);
      RunInvariant(actions[..|actions| - 1]);
      if Enabled(s, a) {
        StepKeepsAllStand(s, a, Abandoned(actions[..|actions| - 1]));
      } else {
        assert Abandoned(actions) == Abandoned(actions[..|actions| - 1]);
      }
    }
  }

  lemma StationIsUnique(s: State, gone: set<nat>, n: nat, a: Station, b: Station)
    requires Numbered(s) && AllStand(s, gone) && n > 0 && Stands(s, gone, n, a) && Stands(s, gone, n, b)
    ensures a == b
  {
  }

  /** Under every schedule each event stamped by Send is in exactly one place: still in its sender's hand, accepted at
      exactly one position of the queue, or given up because its context ended first. */
  lemma NoSendIsLost(actions: seq<Action>, n: nat)
    requires 1 <= n <= |Stamps(actions)|
    ensures Somewhere(Run(actions), Abandoned(actions), n)
    ensures forall a, b :: Stands(Run(actions), Abandoned(actions), n, a) ==>
              Stands(Run(actions), Abandoned(actions), n, b) ==> a == b
  {
    var s, gone := Run(actions), Abandoned(actions);
    OnlySendsConsumeNumbers(actions);
    RunAllStand(actions);
    RunInvariant(actions);
    forall a, b | Stands(s, gone, n, a) && Stands(s, gone, n, b)
      ensures a == b
    {
      StationIsUnique(s, gone, n, a, b);
    }
  }

  // ----- every action counts

  /** Sends that got a slot and that gave up, pongs that found room, takes, and sessions begun. */
  datatype Tally = Tally(enqueued: nat, abandoned: nat, ponged: nat, taken: nat, begun: nat)

  function Counted(t: Tally, s: State, a: Action): Tally {
    match a
    case Enqueue(_) => t.(enqueued := t.enqueued + 1)
    case Abandon(_) => t.(abandoned := t.abandoned + 1)
    case Pong(_) => if |s.accepted| - |s.owner| < 256 then t.(ponged := t.ponged + 1) else t
    case Take(_) => t.(taken := t.taken + 1)
    case Open => t.(begun := t.begun + 1)
    case _ => t
  }

  function TallyOf(actions: seq<Action>): Tally {
    if actions == [] then Tally(0, 0, 0, 0, 0) else
      var s, a := Run(actions[..|actions| - 1]), actions[|actions| - 1];
      var t := TallyOf(actions[..|actions| - 1]);
      if Enabled(s, a) then Counted(t, s, a) else t
  }

  predicate Tallies(s: State, t: Tally) {
    && |s.accepted| == t.enqueued + t.ponged
    && |s.sending| + t.enqueued + t.abandoned == s.stamped
    && |s.owner| == t.taken && |s.pumps| == t.begun
  }

  lemma StepTallies(s: State, a: Action, t: Tally)
    requires Enabled(s, a) && Tallies(s, t)
    ensures Tallies(Effect(s, a), Counted(t, s, a))
  {
  }

  /** Under every schedule the queue has accepted every send that got a slot and every pong that found room, all other
      sends are in hand or given up, and what left the queue is what pumps took. */
  lemma {:induction false} EveryActionCounts(actions: seq<Action>)
    ensures Tallies(Run(actions), TallyOf(actions))
  {
    if actions != [] {
      var s, a := Run(actions[..|actions| - 1]), actions[|actions| - 1];
      EveryActionCounts(actions[..|actions| - 1]);
      if Enabled(s, a) { StepTallies(s, a, TallyOf(actions[..|actions| - 1])); }
    }
  }

  function SentBy(actions: seq<Action>, k: nat): nat {
    if actions == [] then 0 else
      var s, a := Run(actions[..|actions| - 1]), actions[|actions| - 1];
      SentBy(actions[..|actions| - 1], k) + if Enabled(s, a) && a == Put(k, true) then 1 else 0
  }

  function EndedBy(actions: seq<Action>, k: nat): bool {
    actions != [] &&
    var s, a := Run(actions[..|actions| - 1]), actions[|actions| - 1];
    EndedBy(actions[..|actions| - 1], k) || (Enabled(s, a) && (a == Put(k, false) || a == Stop(k)))
  }

  /** Under every schedule a pump's wire carries exactly as many events as its stream took, and the pump is over
      exactly when a send failed or its session ended. */
  lemma {:induction false} WiresCarryWhatWasSent(actions: seq<Action>, k: nat)
    ensures k < |Run(actions).pumps| ==>
              Run(actions).pumps[k].wire == SentBy(actions, k) && Run(actions).pumps[k].over == EndedBy(actions, k)
    ensures k >= |Run(actions).pumps| ==> SentBy(actions, k) == 0 && !EndedBy(actions, k)
  {
    if actions != [] { WiresCarryWhatWasSent(actions[..|actions| - 1], k); }
  }
}

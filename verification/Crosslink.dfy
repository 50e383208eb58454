/** One crosslink in full: two circuit managers, any number of circuits placed by either end, and
    a pair of reliable FIFO links that all of them share.

    Every frame in flight and every circuit carries the number of the connection it belongs to,
    and every circuit what its session has written. No step reads these: they are history. */
module Crosslink {
  import opened Prelude
  import opened Frames
  import opened Circuit
  import opened ManagerSteps

  datatype Record = Record(conn: nat, wrote: seq<byte>, modest: bool)

  /** One end: its manager, the history of each of its circuits, and the connections it placed. */
  datatype Side = Side(m: Mgr, records: seq<Record>, placed: set<nat>)

  datatype Sent = Sent(frame: L3Frame, conn: nat)

  datatype Net = Net(x: Side, y: Side, xy: seq<Sent>, yx: seq<Sent>, count: nat)

  /** A step of an end's own, or the arrival of the next frame. */
  datatype Act = Does(e: Event) | Receives

  datatype Move = AtX(act: Act) | AtY(act: Act)

  function Turned(n: Net): Net { Net(n.y, n.x, n.yx, n.xy, n.count) }

  /** Frames come from the link, which stays up; a session has a circuit's streams once the call
      that placed it has returned. */
  predicate Allowed(m: Mgr, e: Event)
  {
    && Enabled(m, e) && !e.Dispatch? && !e.Link?
    && (e.Session? ==> e.c !in m.awaiting && m.heap[e.c].state != AwaitingConnect)
  }

  function SentBy(out: seq<L3Frame>, conn: nat): seq<Sent>
  {
    seq(|out|, i requires 0 <= i < |out| => Sent(out[i], conn))
  }

  function Noted(records: seq<Record>, t: Mgr, conn: nat): seq<Record>
  {
    if |t.heap| > |records| then records + [Record(conn, [], true)] else records
  }

  /** The manager at x has made a step for connection `conn`. */
  function Stepped(n: Net, o: Outcome, conn: nat): Net
  {
    n.(x := n.x.(m := o.m, records := Noted(n.x.records, o.m, conn)), xy := n.xy + SentBy(o.out, conn))
  }

  /** A write that queued its data. */
  function Written(d: Side, t: Mgr, c: nat, data: seq<byte>): seq<Record>
  {
    if c < |d.records| == |d.m.heap| == |t.heap| && t.heap[c] != d.m.heap[c] then
      var r := d.records[c];
      d.records[c := r.(wrote := r.wrote + data, modest := r.modest && |data| <= MAX_REASSEMBLY_BYTES)]
    else d.records
  }

  function ConnOf(d: Side, c: nat): nat { if c < |d.records| then d.records[c].conn else 0 }

  function DoX(n: Net, e: Event): (t: Net)
    requires Rooted(n.x.m)
    ensures Rooted(t.x.m) && t.y == n.y
  {
    if !Allowed(n.x.m, e) then n
    else
      StepRooted(n.x.m, e);
      var o := Step(n.x.m, e);
      match e
      case Originate(_, _, _) =>
        var t := Stepped(n, o, n.count);
        if |o.m.heap| == |n.x.m.heap| then t
        else t.(x := t.x.(placed := t.x.placed + {n.count}), count := n.count + 1)
      case OriginateResumes(c) => Stepped(n, o, ConnOf(n.x, c))
      case GuardFires(c) => Stepped(n, o, ConnOf(n.x, c))
      case Session(c, act) =>
        var t := Stepped(n, o, ConnOf(n.x, c));
        if act.Writes? then t.(x := t.x.(records := Written(n.x, o.m, c, act.data))) else t
      case _ => n
  }

  function ReceiveX(n: Net): (t: Net)
    requires Rooted(n.x.m)
    ensures Rooted(t.x.m) && t.y == n.y
  {
    if n.yx == [] then n
    else
      StepRooted(n.x.m, Dispatch(n.yx[0].frame));
      Stepped(n.(yx := n.yx[1..]), Step(n.x.m, Dispatch(n.yx[0].frame)), n.yx[0].conn)
  }

  function StepX(n: Net, act: Act): (t: Net)
    requires Rooted(n.x.m)
    ensures Rooted(t.x.m) && t.y == n.y
  {
    match act
    case Does(e) => DoX(n, e)
    case Receives => ReceiveX(n)
  }

  predicate BothRooted(n: Net) { Rooted(n.x.m) && Rooted(n.y.m) }

  function Next(n: Net, move: Move): (t: Net)
    requires BothRooted(n)
    ensures BothRooted(t)
  {
    match move
    case AtX(act) => StepX(n, act)
    case AtY(act) => Turned(StepX(Turned(n), act))
  }

  function Run(n: Net, moves: seq<Move>): (t: Net)
    requires BothRooted(n)
    ensures BothRooted(t)
    decreases |moves|
  {
    if moves == [] then n else Next(Run(n, moves[..|moves| - 1]), moves[|moves| - 1])
  }

  function NewSide(call: string, mtu: Mtu, timeout: bool): Side
  {
    Side(NewManager(call, mtu, timeout), [], {})
  }

  /** Two managers on a crosslink that has just come up. */
  function NewNet(callX: string, mtuX: Mtu, timeoutX: bool, callY: string, mtuY: Mtu, timeoutY: bool): Net
  {
    Net(NewSide(callX, mtuX, timeoutX), NewSide(callY, mtuY, timeoutY), [], [], 0)
  }

  // ---------- Connections ----------

  /** The circuit of connection k at this end. */
  function At(records: seq<Record>, k: nat): (i: Option<nat>)
    ensures i.Some? ==> i.value < |records| && records[i.value].conn == k
    ensures i.None? ==> forall j :: 0 <= j < |records| ==> records[j].conn != k
    decreases |records|
  {
    if records == [] then None
    else if records[|records| - 1].conn == k then Some(|records| - 1)
    else At(records[..|records| - 1], k)
  }

  /** The frames of connection k on a link, in order. */
  function Of(link: seq<Sent>, k: nat): seq<L3Frame>
    decreases |link|
  {
    if link == [] then []
    else (if link[0].conn == k then [link[0].frame] else []) + Of(link[1..], k)
  }

  predicate Gone(d: Side, k: nat)
  {
    var i := At(d.records, k);
    i.Some? ==> !Listed(d.m, i.value) && i.value !in d.m.awaiting
  }

  /** Connection k is over: neither end lists its circuit or waits for it, and no frame of it is on
      its way. */
  predicate Over(n: Net, k: nat)
  {
    Gone(n.x, k) && Gone(n.y, k) && Of(n.xy, k) == [] && Of(n.yx, k) == []
  }

  /** A key that the step hands out at x is not that of a circuit whose connection is not over. */
  predicate FreshX(n: Net, act: Act)
    requires Rooted(n.x.m)
  {
    var t := StepX(n, act);
    |t.x.m.heap| == |n.x.m.heap| + 1 ==>
      forall i :: 0 <= i < |n.x.m.heap| && i < |n.x.records|
                  && LocalKey(n.x.m.heap[i]) == LocalKey(t.x.m.heap[|n.x.m.heap|])
                  ==> Over(n, n.x.records[i].conn)
  }

  predicate Fresh(n: Net, move: Move)
    requires BothRooted(n)
  {
    match move
    case AtX(act) => FreshX(n, act)
    case AtY(act) => FreshX(Turned(n), act)
  }

  /** No key is handed out again before the connection that had it is over. */
  predicate FreshKeys(n: Net, moves: seq<Move>)
    requires BothRooted(n)
    decreases |moves|
  {
    moves == [] ||
    (FreshKeys(n, moves[..|moves| - 1]) && Fresh(Run(n, moves[..|moves| - 1]), moves[|moves| - 1]))
  }
}

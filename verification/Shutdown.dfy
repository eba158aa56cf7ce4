/** Graceful shutdown of the listener (src/astropath/data_plane/server.py): the accepting flags,
    the sets of UDP handlers and TCP connections, `stop_accepting`, `drain` and `close`, as a
    state machine over what happens between two await points.

    A run starts once `serve` has bound both sockets and reported ready, and `serve` is not
    entered again.  Handlers that are cancelled end; they never swallow the cancellation. */
module Shutdown {

  /** Where a TCP connection's task is.  It is registered from its first step on, unless that
      step finds the server draining. */
  datatype Conn = Conn(phase: Phase, registered: bool, replies: nat, late: nat)

  datatype Phase =
    | Created    // the task exists but has not run yet
    | Reading    // waiting for a message
    | Handling   // the pipeline is working on a message
    | Flushing   // the reply is written, `writer.drain()` is pending
    | Closing    // `wait_closed()` is pending
    | Ended

  /** The drain call: the handlers it captured, and whether it has cancelled the stragglers. */
  datatype Drain = Idle | Waiting(udp: set<nat>, tcp: set<nat>, cancelled: bool) | Returned

  /** `late` in a connection counts replies written after `stop_accepting`.  `open` is
      false once `close` has closed the sockets and dropped the UDP protocol.  `stoppedFirst` and
      `openFirst` remember the flags when the drain began. */
  datatype State = State(
    accepting: bool,
    udpAccepting: bool,
    open: bool,
    udpRunning: set<nat>,
    udpEver: set<nat>,
    conns: map<nat, Conn>,
    drain: Drain,
    stoppedFirst: bool,
    openFirst: bool)

  const SERVING := State(true, true, true, {}, {}, map[], Idle, false, false)

  datatype Step =
    | Datagram(id: nat) | UdpDone(id: nat)
    | Connect(id: nat) | ConnStart(id: nat) | Message(id: nat) | PeerCloses(id: nat)
    | Reply(id: nat) | NoReply(id: nat) | Flushed(id: nat) | Broken(id: nat) | Closed(id: nat)
    | CancelledConn(id: nat)
    | Stop | Close
    | DrainStart | DrainTimeout | DrainReturn

  predicate Running(c: Conn) { !c.phase.Ended? }

  predicate InPhase(s: State, id: nat, phase: Phase) {
    id in s.conns && s.conns[id].phase == phase
  }

  function LiveConns(s: State): set<nat> {
    set id | id in s.conns && s.conns[id].registered && Running(s.conns[id])
  }

  predicate Enabled(s: State, step: Step) {
    match step
    case Datagram(id) => s.open && id !in s.udpEver
    case UdpDone(id) => id in s.udpRunning
    case Connect(id) => s.open && id !in s.conns
    case ConnStart(id) => InPhase(s, id, Created)
    case Message(id) => InPhase(s, id, Reading)
    case PeerCloses(id) => InPhase(s, id, Reading)
    case Reply(id) => InPhase(s, id, Handling)
    case NoReply(id) => InPhase(s, id, Handling)
    case Flushed(id) => InPhase(s, id, Flushing)
    case Broken(id) => InPhase(s, id, Flushing)
    case Closed(id) => InPhase(s, id, Closing)
    case CancelledConn(id) =>
      id in s.conns && s.conns[id].phase in {Reading, Handling, Flushing} &&
      s.drain.Waiting? && s.drain.cancelled && id in s.drain.tcp
    case Stop => true
    case Close => true
    case DrainStart => s.drain.Idle?
    case DrainTimeout => s.drain.Waiting? && !s.drain.cancelled
    case DrainReturn =>
      s.drain.Waiting? && s.drain.udp !! s.udpRunning && s.drain.tcp !! LiveConns(s)
  }

  predicate MovesConn(step: Step) {
    match step
    case Connect(_) | ConnStart(_) | Message(_) | PeerCloses(_) | Reply(_) | NoReply(_)
       | Flushed(_) | Broken(_) | Closed(_) | CancelledConn(_) => true
    case _ => false
  }

  /** One step of one connection's task; a new connection starts from anything. */
  function NextConn(c: Conn, step: Step, accepting: bool): Conn {
    match step
    case Connect(_) => Conn(Created, false, 0, 0)
    case ConnStart(_) => if accepting then c.(phase := Reading, registered := true) else c.(phase := Closing)
    case Message(_) => c.(phase := Handling)
    case Reply(_) => c.(phase := Flushing, replies := c.replies + 1, late := c.late + (if accepting then 0 else 1))
    case Flushed(_) => c.(phase := if accepting then Reading else Closing)
    case Closed(_) => c.(phase := Ended)
    case _ => c.(phase := Closing)
  }

  function ConnOf(s: State, id: nat): Conn {
    if id in s.conns then s.conns[id] else Conn(Created, false, 0, 0)
  }

  function Do(s: State, step: Step): State
    requires Enabled(s, step)
  {
    if MovesConn(step) then s.(conns := s.conns[step.id := NextConn(ConnOf(s, step.id), step, s.accepting)])
    else
      match step
      case Datagram(id) =>
        // dropped while draining, else handed to a task of its own
        if s.udpAccepting then s.(udpRunning := s.udpRunning + {id}, udpEver := s.udpEver + {id}) else s
      case UdpDone(id) => s.(udpRunning := s.udpRunning - {id})
      case Stop => s.(accepting := false, udpAccepting := s.udpAccepting && !s.open)
      case Close => s.(accepting := false, open := false)
      case DrainStart =>
        var udp, tcp := if s.open then s.udpRunning else {}, LiveConns(s);
        s.(drain := if udp + tcp == {} then Returned else Waiting(udp, tcp, false),
           stoppedFirst := Stopped(s), openFirst := s.open)
      case DrainTimeout => s.(drain := s.drain.(cancelled := true))
      case _ => s.(drain := Returned)
  }

  /** New work is refused: both flags are down, or the sockets are closed. */
  predicate Stopped(s: State) {
    !s.accepting && (s.open ==> !s.udpAccepting)
  }

  ghost predicate Legal(s0: State, steps: seq<Step>)
    decreases |steps|, 0
  {
    steps == [] ||
    (Legal(s0, steps[..|steps| - 1]) && Enabled(After(s0, steps[..|steps| - 1]), steps[|steps| - 1]))
  }

  ghost function After(s0: State, steps: seq<Step>): State
    requires Legal(s0, steps)
    decreases |steps|, 1
  {
    if steps == [] then s0 else Do(After(s0, steps[..|steps| - 1]), steps[|steps| - 1])
  }

  // ---------------------------------------------------------------- the objects

  /** The datagram protocol: its flag and the handlers that it has started and that still run. */
  class UdpProtocol {
    var accepting: bool
    var tasks: set<nat>

    constructor ()
      ensures accepting && tasks == {}
    {
      accepting, tasks := true, {};
    }

    ghost predicate Shows(s: State)
      reads this
    {
      accepting == s.udpAccepting && tasks == s.udpRunning
    }

    method DatagramReceived(id: nat, ghost s: State)
      requires Shows(s) && Enabled(s, Datagram(id))
      modifies this
      ensures Shows(Do(s, Datagram(id)))
      ensures tasks == (if old(accepting) then old(tasks) + {id} else old(tasks)) && accepting == old(accepting)
    {
      if !accepting {
        return;
      }
      tasks := tasks + {id};
    }

    method HandlerDone(id: nat, ghost s: State)
      requires Shows(s) && Enabled(s, UdpDone(id))
      modifies this
      ensures Shows(Do(s, UdpDone(id)))
      ensures tasks == old(tasks) - {id} && accepting == old(accepting)
    {
      tasks := tasks - {id};
    }
  }

  /** The listener once `serve` has bound its sockets.  Only the reference to the protocol goes
      when it is closed: `udp` is the protocol object itself, which keeps its running handlers. */
  class Rfc2136Server {
    var accepting: bool
    var udpProtocol: UdpProtocol?
    var tcpConns: set<nat>

    constructor ()
      ensures udpProtocol != null && fresh(udpProtocol) && Shows(SERVING, udpProtocol)
    {
      accepting, tcpConns := true, {};
      udpProtocol := new UdpProtocol();
    }

    /** These objects are in the state `s` of the machine. */
    ghost predicate Shows(s: State, udp: UdpProtocol)
      reads this, udp
    {
      && accepting == s.accepting && tcpConns == LiveConns(s) && udp.Shows(s)
      && udpProtocol == if s.open then udp else null
    }

    method StopAccepting(ghost s: State, ghost udp: UdpProtocol)
      requires Shows(s, udp)
      modifies this, udp
      ensures Shows(Do(s, Stop), udp)
      ensures !accepting && (old(udpProtocol) != null ==> !old(udpProtocol).accepting)
      ensures udpProtocol == old(udpProtocol) && tcpConns == old(tcpConns) && udp.tasks == old(udp.tasks)
    {
      accepting := false;
      if udpProtocol != null {
        udpProtocol.accepting := false;
      }
    }

    method Close(ghost s: State, ghost udp: UdpProtocol)
      requires Shows(s, udp)
      modifies this
      ensures Shows(Do(s, Step.Close), udp)
      ensures !accepting && udpProtocol == null && tcpConns == old(tcpConns)
    {
      accepting := false;
      udpProtocol := null;
    }

    /** The first step of a connection's task: refused while draining, else registered. */
    method StartConnection(id: nat, ghost s: State, ghost udp: UdpProtocol) returns (refused: bool)
      requires Shows(s, udp) && Enabled(s, ConnStart(id))
      modifies this
      ensures Shows(Do(s, ConnStart(id)), udp) && refused == Do(s, ConnStart(id)).conns[id].phase.Closing?
      ensures refused == !old(accepting) && accepting == old(accepting) && udpProtocol == old(udpProtocol)
      ensures tcpConns == if refused then old(tcpConns) else old(tcpConns) + {id}
    {
      StartedIsLive(s, id);
      if !accepting {
        return true;
      }
      tcpConns := tcpConns + {id};
      return false;
    }

    /** The handlers a drain captures, the UDP ones through the reference it still has. */
    method Inflight(ghost s: State, ghost udp: UdpProtocol) returns (udpTasks: set<nat>, tcpTasks: set<nat>)
      requires Shows(s, udp) && Enabled(s, DrainStart)
      ensures Do(s, DrainStart).drain ==
                if udpTasks == {} && tcpTasks == {} then Returned else Waiting(udpTasks, tcpTasks, false)
      ensures tcpTasks == tcpConns && udpTasks == if udpProtocol == null then {} else udpProtocol.tasks
    {
      tcpTasks := tcpConns;
      udpTasks := {};
      if udpProtocol != null {
        udpTasks := udpProtocol.tasks;
      }
      assert udpTasks + tcpTasks == {} <==> udpTasks == {} && tcpTasks == {};
    }
  }

  /** A connection is live from its registration on. */
  lemma StartedIsLive(s: State, id: nat)
    requires Enabled(s, ConnStart(id))
    ensures LiveConns(Do(s, ConnStart(id))) == if s.accepting then LiveConns(s) + {id} else LiveConns(s)
  {
  }

  // ---------------------------------------------------------------- what every step keeps

  /** A connection answers at most one message late, and then goes on to close. */
  ghost predicate ConnOk(c: Conn, accepting: bool) {
    && c.late <= c.replies && c.late <= 1
    && (accepting ==> c.late == 0)
    && (c.late == 1 ==> c.phase in {Flushing, Closing, Ended})
    && (c.phase in {Reading, Handling, Flushing} ==> c.registered)
    && (!c.registered ==> c.replies == 0)
    && (c.phase == Created ==> !c.registered)
  }

  /** While a drain that began after the stop waits, whatever still runs is among what it
      captured; when it has returned, nothing registered runs.  UDP handlers are covered if the
      server was still open when the drain began. */
  ghost predicate DrainOk(s: State) {
    && (!s.drain.Idle? && s.stoppedFirst ==> Stopped(s))
    && (s.drain.Waiting? && s.stoppedFirst ==>
          LiveConns(s) <= s.drain.tcp && (s.openFirst ==> s.udpRunning <= s.drain.udp))
    && (s.drain.Returned? && s.stoppedFirst ==>
          LiveConns(s) == {} && (s.openFirst ==> s.udpRunning == {}))
  }

  ghost predicate Invariant(s: State) {
    && (forall id :: id in s.conns ==> ConnOk(s.conns[id], s.accepting))
    && DrainOk(s)
  }

  /** What becomes of a connection once new work is refused. */
  ghost predicate Follows(c: Conn, c': Conn) {
    && c'.registered == c.registered
    && c'.replies - c.replies == c'.late - c.late
    && (c.phase.Ended? ==> c'.phase.Ended?)
  }

  lemma NextConnOk(s: State, step: Step)
    requires Enabled(s, step) && MovesConn(step) && ConnOk(ConnOf(s, step.id), s.accepting)
    ensures ConnOk(NextConn(ConnOf(s, step.id), step, s.accepting), s.accepting)
    ensures !s.accepting ==> Follows(ConnOf(s, step.id), NextConn(ConnOf(s, step.id), step, s.accepting))
  {
  }

  lemma OthersStay(s: State, step: Step, id: nat)
    requires Enabled(s, step) && !(MovesConn(step) && step.id == id)
    ensures ConnOf(Do(s, step), id) == ConnOf(s, id) && (Do(s, step).accepting ==> s.accepting)
  {
  }

  lemma MovedConn(s: State, step: Step)
    requires Enabled(s, step) && MovesConn(step)
    ensures ConnOf(Do(s, step), step.id) == NextConn(ConnOf(s, step.id), step, s.accepting)
    ensures Do(s, step).accepting == s.accepting
  {
  }

  lemma StepKeepsConn(s: State, step: Step, id: nat)
    requires Enabled(s, step) && ConnOk(ConnOf(s, id), s.accepting)
    ensures ConnOk(ConnOf(Do(s, step), id), Do(s, step).accepting)
    ensures !s.accepting ==> Follows(ConnOf(s, id), ConnOf(Do(s, step), id)) && !Do(s, step).accepting
  {
    if MovesConn(step) && step.id == id {
      NextConnOk(s, step);
      MovedConn(s, step);
    } else {
      OthersStay(s, step, id);
    }
  }

  /** Once new work is refused it stays refused, and nothing is added to what runs. */
  lemma StepAfterStop(s: State, step: Step)
    requires Enabled(s, step) && Stopped(s)
    requires forall id :: id in s.conns ==> ConnOk(s.conns[id], s.accepting)
    ensures var s' := Do(s, step);
            && Stopped(s') && s'.udpEver == s.udpEver && s'.udpRunning <= s.udpRunning
            && LiveConns(s') <= LiveConns(s)
            && forall id :: Follows(ConnOf(s, id), ConnOf(s', id))
  {
    var s' := Do(s, step);
    forall id ensures Follows(ConnOf(s, id), ConnOf(s', id)) { StepKeepsConn(s, step, id); }
    forall id | id in LiveConns(s') ensures id in LiveConns(s) {
      assert Follows(ConnOf(s, id), ConnOf(s', id));
    }
  }

  lemma StepKeepsInvariant(s: State, step: Step)
    requires Invariant(s) && Enabled(s, step)
    ensures Invariant(Do(s, step))
  {
    var s' := Do(s, step);
    forall id | id in s'.conns ensures ConnOk(s'.conns[id], s'.accepting) { StepKeepsConn(s, step, id); }
    if Stopped(s) { StepAfterStop(s, step); }
  }

  lemma {:induction false} EveryRunKeepsInvariant(steps: seq<Step>)
    requires Legal(SERVING, steps)
    ensures Invariant(After(SERVING, steps))
  {
    if steps != [] {
      var before := steps[..|steps| - 1];
      EveryRunKeepsInvariant(before);
      StepKeepsInvariant(After(SERVING, before), steps[|steps| - 1]);
    }
  }

  // ---------------------------------------------------------------- shutdown is final

  lemma {:induction false} StoppedStaysStopped(steps: seq<Step>, n: nat)
    requires Legal(SERVING, steps) && n <= |steps| && Legal(SERVING, steps[..n])
    requires Stopped(After(SERVING, steps[..n]))
    ensures var s, s' := After(SERVING, steps[..n]), After(SERVING, steps);
            && Stopped(s') && s'.udpEver == s.udpEver && s'.udpRunning <= s.udpRunning && LiveConns(s') <= LiveConns(s)
            && forall id :: Follows(ConnOf(s, id), ConnOf(s', id))
  {
    if n == |steps| {
      assert steps[..n] == steps;
    } else {
      var before, last := steps[..|steps| - 1], steps[|steps| - 1];
      assert before[..n] == steps[..n];
      StoppedStaysStopped(before, n);
      EveryRunKeepsInvariant(before);
      var s, s1 := After(SERVING, steps[..n]), After(SERVING, before);
      StepAfterStop(s1, last);
      forall id ensures Follows(ConnOf(s, id), ConnOf(After(SERVING, steps), id)) {
        assert Follows(ConnOf(s, id), ConnOf(s1, id)) && Follows(ConnOf(s1, id), ConnOf(Do(s1, last), id));
      }
    }
  }

  /** How many replies the run has written on connection `id`. */
  function Replied(steps: seq<Step>, id: nat): nat {
    if steps == [] then 0
    else Replied(steps[..|steps| - 1], id) + (if steps[|steps| - 1] == Reply(id) then 1 else 0)
  }

  lemma {:induction false} RepliesAreCounted(steps: seq<Step>, id: nat)
    requires Legal(SERVING, steps)
    ensures Replied(steps, id) == ConnOf(After(SERVING, steps), id).replies
  {
    if steps != [] {
      var before, last := steps[..|steps| - 1], steps[|steps| - 1];
      RepliesAreCounted(before, id);
      var s := After(SERVING, before);
      if MovesConn(last) && last.id == id { MovedConn(s, last); } else { OthersStay(s, last, id); }
    }
  }

  /** From the moment `stop_accepting` has run: no UDP handler is created any
      more, no connection joins the registered ones, a connection not registered by then is
      never answered, and a registered one answers at most one further message, counting the
      one in flight. */
  lemma AtMostOneFurtherAnswer(steps: seq<Step>, n: nat)
    requires Legal(SERVING, steps) && n < |steps| && Legal(SERVING, steps[..n + 1])
    requires steps[n] == Stop
    ensures var s, s' := After(SERVING, steps[..n + 1]), After(SERVING, steps);
            && s'.udpEver == s.udpEver && s'.udpRunning <= s.udpRunning && LiveConns(s') <= LiveConns(s)
            && forall id :: id in s'.conns ==>
                 s'.conns[id].replies <=
                   (if id in s.conns && s.conns[id].registered then s.conns[id].replies + 1 else 0)
  {
    assert steps[..n + 1][..n] == steps[..n];
    StoppedStaysStopped(steps, n + 1);
    EveryRunKeepsInvariant(steps);
    EveryRunKeepsInvariant(steps[..n + 1]);
    var s, s' := After(SERVING, steps[..n + 1]), After(SERVING, steps);
    forall id | id in s'.conns
      ensures s'.conns[id].replies <= (if id in s.conns && s.conns[id].registered then s.conns[id].replies + 1 else 0)
    {
      assert ConnOk(s'.conns[id], s'.accepting) && Follows(ConnOf(s, id), ConnOf(s', id));
    }
  }

  /** The same counted over the run itself: after `stop_accepting`, at most one reply is written on
      a connection that was registered by then, and none on any other. */
  lemma AtMostOneReplyAfterStop(steps: seq<Step>, n: nat, id: nat)
    requires Legal(SERVING, steps) && n < |steps| && Legal(SERVING, steps[..n + 1])
    requires steps[n] == Stop
    ensures var c := ConnOf(After(SERVING, steps[..n + 1]), id);
            Replied(steps, id) <= Replied(steps[..n + 1], id) + (if c.registered then 1 else 0)
  {
    AtMostOneFurtherAnswer(steps, n);
    RepliesAreCounted(steps, id);
    RepliesAreCounted(steps[..n + 1], id);
    EveryRunKeepsInvariant(steps[..n + 1]);
  }

  /** When a drain that began after the stop returns, and ever after, no
      registered TCP handler is running; no UDP handler either, if the server was not closed
      before the drain began. */
  lemma DrainedMeansIdle(steps: seq<Step>)
    requires Legal(SERVING, steps)
    requires var s := After(SERVING, steps); s.drain.Returned? && s.stoppedFirst
    ensures var s := After(SERVING, steps);
            LiveConns(s) == {} && (s.openFirst ==> s.udpRunning == {})
  {
    EveryRunKeepsInvariant(steps);
  }

  // ---------------------------------------------------------------- the condition on UDP is exact

  lemma OneMoreStep(s0: State, steps: seq<Step>, step: Step)
    requires Legal(s0, steps) && Enabled(After(s0, steps), step)
    ensures Legal(s0, steps + [step]) && After(s0, steps + [step]) == Do(After(s0, steps), step)
  {
    assert (steps + [step])[..|steps|] == steps;
  }

  /** A waiting, cancelling drain: every connection it waits for can end, UDP untouched. */
  ghost predicate CanFinish(s: State) {
    && s.drain.Waiting? && s.drain.cancelled && s.drain.udp == {}
    && LiveConns(s) <= s.drain.tcp
    && forall id :: id in LiveConns(s) ==> !s.conns[id].phase.Created?
  }

  lemma {:induction false} ConnsFinish(s0: State, steps: seq<Step>) returns (more: seq<Step>)
    requires Legal(s0, steps) && CanFinish(After(s0, steps))
    ensures Legal(s0, more) && CanFinish(After(s0, more)) && LiveConns(After(s0, more)) == {}
    ensures After(s0, more).udpRunning == After(s0, steps).udpRunning
    decreases |LiveConns(After(s0, steps))|
  {
    var s := After(s0, steps);
    if LiveConns(s) == {} {
      more := steps;
    } else {
      var id :| id in LiveConns(s);
      var here := steps;
      if s.conns[id].phase != Closing {
        OneMoreStep(s0, here, CancelledConn(id));
        here := here + [CancelledConn(id)];
        assert LiveConns(After(s0, here)) == LiveConns(s);
      }
      OneMoreStep(s0, here, Closed(id));
      here := here + [Closed(id)];
      assert LiveConns(After(s0, here)) == LiveConns(s) - {id};
      more := ConnsFinish(s0, here);
    }
  }

  /** A drain begun on a closed server can return with the UDP handlers it found still running. */
  lemma ClosedDrainRun(s: State) returns (steps: seq<Step>)
    requires Invariant(s) && Stopped(s) && s.drain.Idle? && !s.open
    ensures Legal(Do(s, DrainStart), steps)
    ensures After(Do(s, DrainStart), steps).drain.Returned?
              && After(Do(s, DrainStart), steps).udpRunning == s.udpRunning
  {
    var s1 := Do(s, DrainStart);
    steps := [];
    if s1.drain.Waiting? {
      OneMoreStep(s1, steps, DrainTimeout);
      steps := [DrainTimeout];
      assert [] + [DrainTimeout] == steps;
      assert LiveConns(After(s1, steps)) == LiveConns(s);
      steps := ConnsFinish(s1, steps);
      OneMoreStep(s1, steps, DrainReturn);
      steps := steps + [DrainReturn];
    }
  }

  lemma {:induction false} RunsFromInvariant(s0: State, steps: seq<Step>)
    requires Invariant(s0) && Legal(s0, steps)
    ensures Invariant(After(s0, steps))
    ensures Stopped(s0) ==> Stopped(After(s0, steps)) && After(s0, steps).udpRunning <= s0.udpRunning
    ensures !s0.drain.Idle? ==>
              && !After(s0, steps).drain.Idle?
              && After(s0, steps).stoppedFirst == s0.stoppedFirst && After(s0, steps).openFirst == s0.openFirst
  {
    if steps != [] {
      var before, last := steps[..|steps| - 1], steps[|steps| - 1];
      RunsFromInvariant(s0, before);
      StepKeepsInvariant(After(s0, before), last);
      if Stopped(s0) { StepAfterStop(After(s0, before), last); }
    }
  }

  /** For a stopped server about to drain, "whenever the drain returns, no UDP
      handler is running" holds exactly when the server has not been closed yet or no UDP
      handler is running already: `close` makes the drain forget the UDP handlers. */
  lemma DrainCoversUdpIffNotClosed(s: State)
    requires Invariant(s) && Stopped(s) && s.drain.Idle?
    ensures (forall steps :: Legal(Do(s, DrainStart), steps) && After(Do(s, DrainStart), steps).drain.Returned? ==>
                               After(Do(s, DrainStart), steps).udpRunning == {}) <==>
            (s.open || s.udpRunning == {})
  {
    var s1 := Do(s, DrainStart);
    StepKeepsInvariant(s, DrainStart);
    if s.open || s.udpRunning == {} {
      forall steps | Legal(s1, steps) && After(s1, steps).drain.Returned? ensures After(s1, steps).udpRunning == {} {
        RunsFromInvariant(s1, steps);
      }
    } else {
      var steps := ClosedDrainRun(s);
      assert After(s1, steps).udpRunning != {};
    }
  }

  /** And the program gets there: a datagram arrives, `serve` ends and closes the server, and the
      drain that follows the stop returns at once with the handler still running. */
  lemma ClosedDrainIsReachable() returns (steps: seq<Step>)
    ensures Legal(SERVING, steps)
    ensures var s := After(SERVING, steps); s.drain.Returned? && s.stoppedFirst && s.udpRunning != {}
  {
    OneMoreStep(SERVING, [], Datagram(0));
    OneMoreStep(SERVING, [] + [Datagram(0)], Step.Close);
    steps := [] + [Datagram(0)] + [Step.Close];
    assert After(SERVING, steps).udpRunning == {0};
    OneMoreStep(SERVING, steps, Stop);
    steps := steps + [Stop];
    OneMoreStep(SERVING, steps, DrainStart);
    steps := steps + [DrainStart];
  }
}

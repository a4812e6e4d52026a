/**
 Starting and stopping the server: one controller, which calls Start and Stop one after the
 other, the worker threads these create, and clients that connect. The steps of all of them
 are interleaved in any order.
 */
module ServerProtocol {
  import opened Outcomes

  /** Where a worker thread is. It owns the acceptor in the first five states. */
  datatype Worker =
    | Opening    // creating, binding and opening the acceptor
    | CheckFlag  // about to read the running flag
    | CheckStop  // about to read its stop token
    | Accepting  // inside the blocking accept
    | Serving    // reading from one connection, handling and answering its request
    | Unwinding  // an exception has destroyed the acceptor; the flag is still to be cleared
    | Leaving    // the acceptor is gone, the thread function returns
    | Ended

  /** Where the controller is inside a call. */
  datatype Controller =
    | Idle
    | Spawning    // Start: the flag is set, the thread is still to be created
    | Adopting    // Start: the new thread runs; assigning it joins the old one first
    | Signalling  // Stop: the flag is cleared, the stop token is still to be set
    | Waking      // Stop: still to connect
    | Joining     // Stop: waiting for the thread to end

  /** A connection, by what its other end has done. */
  datatype Peer =
    | Silent  // nothing so far: reading from it blocks
    | Asked   // sent a request
    | Broken  // shut down, or sent something else: reading from it fails

  datatype Server = Server(
    running: bool,
    control: Controller,
    current: Option<Worker>,   // the thread held by the server
    incoming: Option<Worker>,  // a thread created but not yet assigned
    stop: bool,                // the stop token of the current thread
    pending: seq<Peer>,        // connections not yet accepted
    peer: Option<Peer>,        // the connection being served
    late: nat,                 // requests completed since Stop cleared the flag
    missed: bool)              // Stop's own connection failed while the worker was blocked with nothing pending

  const INITIAL: Server := Server(false, Idle, None, None, false, [], None, 0, false)

  datatype Action = Listen | Fail | ReadFlag | ReadStop | Accept | AcceptError | Drop | Complete | StoreFalse | End

  datatype Step =
    | StartCall | Spawn | SpawnFails | Adopt
    | StopCall | RequestStop | Wake(connected: bool) | Join
    | Connect                                 // a client connects
    | Speak(which: Option<nat>, what: Peer)   // a client acts on a waiting connection, or on the one being served
    | WorkCurrent(action: Action)
    | WorkIncoming(action: Action)

  predicate HasAcceptor(w: Option<Worker>)
  {
    w.Some? && w.value in {Opening, CheckFlag, CheckStop, Accepting, Serving}
  }

  predicate Listening(w: Option<Worker>)
  {
    w.Some? && w.value in {CheckFlag, CheckStop, Accepting, Serving}
  }

  predicate Gone(w: Option<Worker>)
  {
    w.None? || w.value in {Leaving, Ended}
  }

  predicate Stopping(s: Server)
  {
    s.control in {Signalling, Waking, Joining}
  }

  /** The worker waits in accept for a connection that is not there. */
  predicate Blocked(s: Server)
  {
    s.current == Some(Accepting) && s.pending == []
  }

  /** The worker reads from a client that says nothing. */
  predicate Silenced(s: Server)
  {
    s.current == Some(Serving) && s.peer == Some(Silent)
  }

  predicate IsClient(step: Step)
  {
    step.Connect? || step.Speak?
  }

  // ---------------------------------------------------------------- the steps

  /** The worker after an action; None if the action is not possible there. */
  function WorkerNext(w: Worker, action: Action, s: Server, stop: bool): Option<Worker>
  {
    match (w, action)
    case (Opening, Listen) => Some(CheckFlag)
    case (Opening, Fail) => Some(Unwinding)
    case (CheckFlag, ReadFlag) => Some(if s.running then CheckStop else Leaving)
    case (CheckStop, ReadStop) => Some(if stop then Leaving else Accepting)
    case (Accepting, Accept) => if s.pending != [] then Some(Serving) else None
    case (Accepting, AcceptError) => Some(CheckFlag)
    case (Accepting, Fail) => Some(Unwinding)
    case (Serving, Complete) => if s.peer == Some(Asked) then Some(CheckFlag) else None
    case (Serving, Drop) => if s.peer == Some(Broken) then Some(CheckFlag) else None
    case (Serving, Fail) => if s.peer != Some(Silent) then Some(Unwinding) else None
    case (Unwinding, StoreFalse) => Some(Leaving)
    case (Leaving, End) => Some(Ended)
    case _ => None
  }

  /** The shared variables after a worker's move. */
  function Moved(s: Server, w: Worker, w': Worker, action: Action): Server
  {
    var pending :=
      if HasAcceptor(Some(w)) && !HasAcceptor(Some(w')) then []
      else if action == Accept && s.pending != [] then s.pending[1..]
      else s.pending;
    var peer :=
      if w == Serving then None
      else if action == Accept && s.pending != [] then Some(s.pending[0])
      else s.peer;
    s.(running := if action == StoreFalse then false else s.running,
       pending := pending,
       peer := peer,
       late := if action == Complete && !s.running then s.late + 1 else s.late)
  }

  function Next(s: Server, step: Step): Option<Server>
  {
    match step
    case StartCall =>
      if s.control != Idle then None
      else if s.running then Some(s)
      else Some(s.(running := true, control := Spawning))
    case Spawn =>
      if s.control != Spawning then None else Some(s.(incoming := Some(Opening), control := Adopting))
    case SpawnFails =>
      if s.control != Spawning then None else Some(s.(control := Idle))
    case Adopt =>
      if s.control != Adopting || (s.current.Some? && s.current != Some(Ended)) then None
      else Some(s.(current := s.incoming, incoming := None, stop := false, control := Idle))
    case StopCall =>
      if s.control != Idle then None
      else if !s.running then Some(s)
      else Some(s.(running := false, control := Signalling, late := 0, missed := false))
    case RequestStop =>
      if s.control != Signalling then None else Some(s.(stop := true, control := Waking))
    case Wake(connected) =>
      if s.control != Waking || (connected && !Listening(s.current)) then None
      else if connected then Some(s.(pending := s.pending + [Broken], control := Joining))
      else Some(s.(missed := Blocked(s), control := Joining))
    case Join =>
      if s.control != Joining || (s.current.Some? && s.current != Some(Ended)) then None
      else Some(s.(current := None, stop := false, control := Idle))
    case Connect =>
      if Listening(s.current) || Listening(s.incoming) then Some(s.(pending := s.pending + [Silent])) else None
    case Speak(which, what) =>
      if what == Silent then None
      else (match which
            case None => if s.peer == Some(Silent) then Some(s.(peer := Some(what))) else None
            case Some(i) =>
              if i < |s.pending| && s.pending[i] == Silent then Some(s.(pending := s.pending[i := what])) else None)
    case WorkCurrent(action) =>
      if s.current.None? then None
      else (match WorkerNext(s.current.value, action, s, s.stop)
            case None => None
            case Some(w) => Some(Moved(s, s.current.value, w, action).(current := Some(w))))
    case WorkIncoming(action) =>
      if s.incoming.None? then None
      else (match WorkerNext(s.incoming.value, action, s, false)
            case None => None
            case Some(w) => Some(Moved(s, s.incoming.value, w, action).(incoming := Some(w))))
  }

  /** The state after a run of steps from the start, if each was possible. */
  function Run(steps: seq<Step>): Option<Server>
  {
    if steps == [] then Some(INITIAL)
    else match Run(steps[..|steps| - 1])
      case None => None
      case Some(s) => Next(s, steps[|steps| - 1])
  }

  // ---------------------------------------------------------------- the invariant

  ghost predicate Inv(s: Server)
  {
    && (s.incoming.Some? <==> s.control == Adopting)
    && (s.control == Spawning ==> s.running)
    && (s.control in {Spawning, Adopting} ==> Gone(s.current))
    && (s.control == Adopting ==> (s.running <==> !Gone(s.incoming)))
    && (s.control == Idle && !s.running ==> Gone(s.current))
    && (Stopping(s) ==> !s.running)
    && (s.stop <==> s.control in {Waking, Joining})
    && (!HasAcceptor(s.current) && !HasAcceptor(s.incoming) ==> s.pending == [])
    && (s.current == Some(Opening) || s.incoming == Some(Opening) ==> s.pending == [])
    && (s.peer.Some? <==> s.current == Some(Serving) || s.incoming == Some(Serving))
    && (Stopping(s) ==> s.late <= 1)
    && (Stopping(s) && s.late == 1 ==> s.current.Some? && s.current.value in {CheckFlag, Leaving, Ended})
    && (s.control in {Signalling, Waking} ==> !s.missed)
    && (s.control == Joining && Blocked(s) ==> s.missed)
  }

  lemma ControlKeepsInv(s: Server, step: Step)
    requires Inv(s) && Next(s, step).Some? && !step.WorkCurrent? && !step.WorkIncoming?
    ensures Inv(Next(s, step).value)
  {
  }

  lemma CurrentKeepsInv(s: Server, action: Action)
    requires Inv(s) && Next(s, WorkCurrent(action)).Some?
    ensures Inv(Next(s, WorkCurrent(action)).value)
  {
  }

  lemma IncomingKeepsInv(s: Server, action: Action)
    requires Inv(s) && Next(s, WorkIncoming(action)).Some?
    ensures Inv(Next(s, WorkIncoming(action)).value)
  {
  }

  lemma {:induction false} RunKeepsInv(steps: seq<Step>)
    requires Run(steps).Some?
    ensures Inv(Run(steps).value)
  {
    if steps == [] {
    } else {
      var n := |steps| - 1;
      RunKeepsInv(steps[..n]);
      var s := Run(steps[..n]).value;
      match steps[n]
      case WorkCurrent(action) => CurrentKeepsInv(s, action);
      case WorkIncoming(action) => IncomingKeepsInv(s, action);
      case _ => ControlKeepsInv(s, steps[n]);
    }
  }

  // ---------------------------------------------------------------- safety, over every run

  /**
   In every interleaving: at most one worker owns an acceptor; if the flag is cleared while the
   worker is in accept, then a connection is pending, or Stop has still to connect, or its
   connect failed just while the worker was in accept with nothing pending; and at most one
   request completes after Stop has cleared the flag.
   */
  lemma EveryRunIsSafe(steps: seq<Step>)
    requires Run(steps).Some?
    ensures
      var s := Run(steps).value;
      && !(HasAcceptor(s.current) && HasAcceptor(s.incoming))
      && (!s.running && (s.current == Some(Accepting) || s.incoming == Some(Accepting)) ==>
            s.pending != [] || s.control in {Signalling, Waking} || (s.control == Joining && s.missed))
      && (Stopping(s) ==> s.late <= 1)
  {
    RunKeepsInv(steps);
  }

  /** Stop returns from its join only after the worker has ended: no thread, flag or connection is left. */
  lemma JoinIsLast(steps: seq<Step>)
    requires steps != [] && steps[|steps| - 1] == Join && Run(steps).Some?
    ensures
      var s := Run(steps).value;
      s.control == Idle && !s.running && s.current.None? && s.incoming.None? && s.pending == [] && s.peer.None?
      && s.late <= 1
  {
    var n := |steps| - 1;
    RunKeepsInv(steps[..n]);
    RunKeepsInv(steps);
  }

  lemma RunNext(steps: seq<Step>, step: Step)
    requires Run(steps).Some?
    ensures Run(steps + [step]) == Next(Run(steps).value, step)
  {
    assert (steps + [step])[..|steps|] == steps;
  }

  /**
   Between calls both can be made. A Stop with the flag clear returns at once and leaves all as
   it was, and one with the flag set is under way; a Start with the flag set changes nothing,
   whether its worker still runs or not, and one with the flag clear is under way.
   */
  lemma CallsAreAnswered(steps: seq<Step>)
    requires Run(steps).Some? && Run(steps).value.control == Idle
    ensures
      var s := Run(steps).value;
      && Run(steps + [StopCall]).Some? && Run(steps + [StartCall]).Some?
      && (if s.running then Stopping(Run(steps + [StopCall]).value) && !Run(steps + [StopCall]).value.running
          else Run(steps + [StopCall]) == Some(s))
      && (if s.running then Run(steps + [StartCall]) == Some(s)
          else Run(steps + [StartCall]) == Some(s.(running := true, control := Spawning)))
  {
    RunNext(steps, StopCall);
    RunNext(steps, StartCall);
  }

  /** A second Stop after one that has joined returns at once: the program calls it again on its way out. */
  lemma StopTwice(steps: seq<Step>)
    requires steps != [] && steps[|steps| - 1] == Join && Run(steps).Some?
    ensures Run(steps + [StopCall]) == Run(steps)
  {
    JoinIsLast(steps);
    CallsAreAnswered(steps);
  }

  function EndOf(s: Server, steps: seq<Step>): Option<Server>
    decreases |steps|
  {
    if steps == [] then Some(s)
    else match Next(s, steps[0])
      case None => None
      case Some(s') => EndOf(s', steps[1..])
  }

  lemma EndOfLast(s: Server, d: Step)
    ensures EndOf(s, [d]) == Next(s, d)
  {
    hide Next;
    assert [d][1..] == [];
  }

  lemma EndOfFour(s: Server, a: Step, b: Step, c: Step, d: Step)
    requires Next(s, a).Some? && Next(Next(s, a).value, b).Some?
    requires Next(Next(Next(s, a).value, b).value, c).Some?
    ensures EndOf(s, [a, b, c, d]) == Next(Next(Next(Next(s, a).value, b).value, c).value, d)
  {
    hide Next;
    assert [a, b, c, d][1..] == [b, c, d];
    assert [b, c, d][1..] == [c, d];
    assert [c, d][1..] == [d];
    assert [d][1..] == [];
    EndOfLast(Next(Next(Next(s, a).value, b).value, c).value, d);
    var s1 := Next(s, a).value;
    var s2 := Next(s1, b).value;
    assert EndOf(s2, [c, d]) == EndOf(Next(s2, c).value, [d]);
    assert EndOf(s1, [b, c, d]) == EndOf(s2, [c, d]);
  }

  /** At the head of the loop the worker reads flag and token, and goes into accept. */
  lemma WorkerAccepts(s: Server)
    requires Inv(s) && s.control == Idle && s.running && s.current == Some(CheckFlag)
    ensures s.peer.None?
    ensures Next(s, WorkCurrent(ReadFlag)) == Some(s.(current := Some(CheckStop)))
    ensures Next(s.(current := Some(CheckStop)), WorkCurrent(ReadStop)) == Some(s.(current := Some(Accepting)))
  {
  }

  /** There it takes the first connection, and completes its request or drops it. */
  lemma WorkerTakesFirst(s: Server)
    requires s.running && s.current == Some(Accepting) && s.peer.None?
    requires s.pending != [] && s.pending[0] != Silent
    ensures
      var s' := s.(current := Some(Serving), pending := s.pending[1..], peer := Some(s.pending[0]));
      && Next(s, WorkCurrent(Accept)) == Some(s')
      && Next(s', WorkCurrent(if s.pending[0] == Asked then Complete else Drop))
         == Some(s.(current := Some(CheckFlag), pending := s.pending[1..]))
  {
    assert s.pending[0].Silent? || s.pending[0].Asked? || s.pending[0].Broken?;
  }

  /**
   A worker can fail while it opens its acceptor, in accept, and while it serves a client that has
   sent something, and then drops every connection; an accept that only reports an error leads
   back to the head of the loop.
   */
  lemma WorkerFails(s: Server)
    requires Inv(s) && s.control == Idle
    requires s.current in [Some(Opening), Some(Accepting)] || (s.current == Some(Serving) && s.peer != Some(Silent))
    ensures Next(s, WorkCurrent(Fail)) == Some(s.(current := Some(Unwinding), pending := [], peer := None))
    ensures s.current == Some(Accepting) ==>
      Next(s, WorkCurrent(AcceptError)) == Some(s.(current := Some(CheckFlag)))
  {
  }

  /** A worker that failed clears the flag and ends. */
  lemma FailedWorkerEnds(s: Server)
    requires Inv(s) && s.control == Idle && s.current == Some(Unwinding)
    ensures
      var s' := s.(current := Some(Leaving), running := false);
      && Next(s, WorkCurrent(StoreFalse)) == Some(s')
      && Next(s', WorkCurrent(End)) == Some(s'.(current := Some(Ended)))
  {
  }

  /** After a failure, as after a Stop, the three steps of Start put a new worker in place. */
  lemma StartReplaces(s: Server)
    requires Inv(s) && s.control == Idle && !s.running && s.current in [None, Some(Ended)]
    ensures
      var s1 := s.(running := true, control := Spawning);
      var s2 := s1.(incoming := Some(Opening), control := Adopting);
      && Next(s, StartCall) == Some(s1)
      && Next(s1, Spawn) == Some(s2)
      && Next(s2, Adopt)
         == Some(INITIAL.(running := true, current := Some(Opening), late := s.late, missed := s.missed))
  {
  }

  /** Clients, and Stop, can connect exactly while an acceptor listens, also that of a worker not yet assigned. */
  lemma ConnectIff(s: Server)
    requires Inv(s)
    ensures Next(s, Connect).Some? <==> Listening(s.current) || Listening(s.incoming)
    ensures s.control == Waking ==>
      Next(s, Wake(false)).Some? && (Next(s, Wake(true)).Some? <==> Listening(s.current))
  {
  }

  /** While nothing is called, a worker at the head of its loop serves or drops the first connection and comes back. */
  lemma WorkerServes(s: Server)
    requires Inv(s) && s.control == Idle && s.running
    requires s.current == Some(CheckFlag) && s.pending != [] && s.pending[0] != Silent
    ensures
      var last := WorkCurrent(if s.pending[0] == Asked then Complete else Drop);
      EndOf(s, [WorkCurrent(ReadFlag), WorkCurrent(ReadStop), WorkCurrent(Accept), last])
      == Some(s.(pending := s.pending[1..]))
  {
    hide Next, Inv, EndOf;
    WorkerAccepts(s);
    WorkerTakesFirst(s.(current := Some(Accepting)));
    EndOfFour(s, WorkCurrent(ReadFlag), WorkCurrent(ReadStop), WorkCurrent(Accept),
              WorkCurrent(if s.pending[0] == Asked then Complete else Drop));
  }

  /**
   Connections are taken in the order in which they were made. Every step leaves the queue as it
   is but for these: a new connection joins at the end, the worker takes the first, one client
   that was silent speaks in its place, or the acceptor goes and all are lost.
   */
  lemma QueueStep(s: Server, step: Step)
    requires Inv(s) && Next(s, step).Some?
    ensures
      var q, q' := s.pending, Next(s, step).value.pending;
      if step == Connect then q' == q + [Silent]
      else if step == Wake(true) then q' == q + [Broken]
      else if step in [WorkCurrent(Accept), WorkIncoming(Accept)] then q != [] && q' == q[1..]
      else if step.Speak? && step.which.Some? then
        var i := step.which.value;
        && i < |q| && q[i] == Silent && step.what != Silent && |q'| == |q| && q'[i] == step.what
        && forall j :: 0 <= j < |q| && j != i ==> q'[j] == q[j]
      else q' == q || (q' == [] && !HasAcceptor(Next(s, step).value.current)
                       && !HasAcceptor(Next(s, step).value.incoming))
    ensures
      var s' := Next(s, step).value;
      && (step in [WorkCurrent(Accept), WorkIncoming(Accept)] ==> s'.peer == Some(s.pending[0]))
      && (step.Speak? && step.which.None? ==>
            s.peer == Some(Silent) && step.what != Silent && s'.peer == Some(step.what))
  {
  }

  lemma FailureStep(s: Server, step: Step)
    requires Inv(s) && Next(s, step).Some? && step in [WorkCurrent(StoreFalse), WorkIncoming(StoreFalse)]
    ensures if step.WorkCurrent? then s.incoming.None? else Gone(s.current)
  {
  }

  /** A failing worker clears the flag only while it is the only thread: never the flag of its successor. */
  lemma FailureClearsOwnFlag(steps: seq<Step>)
    requires steps != [] && Run(steps).Some?
    requires steps[|steps| - 1] == WorkCurrent(StoreFalse) || steps[|steps| - 1] == WorkIncoming(StoreFalse)
    ensures
      var before := Run(steps[..|steps| - 1]).value;
      if steps[|steps| - 1].WorkCurrent? then before.incoming.None? else Gone(before.current)
  {
    hide Inv, Next, Gone;
    RunKeepsInv(steps[..|steps| - 1]);
    FailureStep(Run(steps[..|steps| - 1]).value, steps[|steps| - 1]);
  }

  // ---------------------------------------------------------------- the join is reached

  function WorkerRank(w: Worker): nat
  {
    match w
    case Ended => 0
    case Leaving => 1
    case Unwinding => 2
    case CheckFlag => 3
    case Serving => 4
    case Accepting => 5
    case CheckStop => 6
    case Opening => 7
  }

  function ControlRank(c: Controller): nat
  {
    match c
    case Signalling => 3
    case Waking => 2
    case Joining => 1
    case _ => 0
  }

  /** How many more steps of controller and worker a Stop can take. */
  function Rank(s: Server): (n: nat)
    ensures n <= 10
  {
    ControlRank(s.control) + if s.current.Some? then WorkerRank(s.current.value) else 0
  }

  /** During a Stop every step but a client's brings the join nearer, and a client's takes it no further away. */
  lemma StopAdvances(s: Server, step: Step)
    requires Inv(s) && Stopping(s) && Next(s, step).Some?
    ensures
      var s' := Next(s, step).value;
      if IsClient(step) then Rank(s') == Rank(s) && Stopping(s') else Rank(s') < Rank(s)
  {
  }

  /** Steps taken by the threads of the server, and not because an operating system call failed. */
  predicate Ordinary(step: Step)
  {
    !IsClient(step) && step != WorkCurrent(Fail) && step != WorkCurrent(AcceptError)
  }

  /** No ordinary step is possible. */
  ghost predicate Halted(s: Server)
  {
    forall step :: Ordinary(step) ==> Next(s, step).None?
  }

  /** Stop waits for a worker that waits for a client. */
  predicate Stuck(s: Server)
  {
    s.control == Joining && (Blocked(s) || Silenced(s))
  }

  /** The worker reads from a silent client, or will as soon as it goes on. */
  predicate Held(s: Server)
  {
    Silenced(s) || (s.current == Some(Accepting) && s.pending != [] && s.pending[0] == Silent)
  }

  /** Stop is stuck, or will be unless a client or a failure helps. */
  predicate Hangs(s: Server)
  {
    Held(s) || Stuck(s)
  }

  /** A step that is due. */
  function Due(s: Server): Step
  {
    match s.control
    case Signalling => RequestStop
    case Waking => Wake(Listening(s.current))
    case _ =>
      if s.current.None? then Join else
      match s.current.value
      case Opening => WorkCurrent(Listen)
      case CheckFlag => WorkCurrent(ReadFlag)
      case CheckStop => WorkCurrent(ReadStop)
      case Accepting => WorkCurrent(Accept)
      case Serving => WorkCurrent(if s.peer == Some(Broken) then Drop else Complete)
      case Unwinding => WorkCurrent(StoreFalse)
      case Leaving => WorkCurrent(End)
      case Ended => Join
  }

  /** During a Stop some thread of the server can take an ordinary step, if and only if it is not stuck. */
  lemma StopIsStuckOrDue(s: Server)
    requires Inv(s) && Stopping(s)
    ensures !Stuck(s) ==> Ordinary(Due(s)) && Next(s, Due(s)).Some?
    ensures Stuck(s) ==> Halted(s)
    ensures Stuck(s) && s.peer != Some(Silent) ==> s.missed
  {
    assert s.peer.Some? ==> s.peer.value.Silent? || s.peer.value.Asked? || s.peer.value.Broken?;
  }

  /**
   How a Stop gets stuck: its connect fails at a moment when the worker is in accept and nothing
   is pending; or it has connected, or failed to, while the worker reads from a silent client;
   or the worker accepts a silent client ahead of Stop's own connection.
   */
  predicate GetsStuck(s: Server, step: Step)
  {
    if step.Wake? then Silenced(s) || (Blocked(s) && !step.connected)
    else step == WorkCurrent(Accept) && s.control == Joining && s.pending != [] && s.pending[0] == Silent
  }

  /** In these ways and no other: a connect that fails at any other moment does no harm. */
  lemma BecomesStuckIff(s: Server, step: Step)
    requires Inv(s) && Next(s, step).Some? && !Stuck(s)
    ensures Stuck(Next(s, step).value) <==> GetsStuck(s, step)
  {
  }

  /**
   And the ways out. From a blocked accept: a client connects, or accept fails. From a silent
   client: that client speaks or hangs up; what others do changes nothing.
   */
  lemma StuckEndsIff(s: Server, step: Step)
    requires Stuck(s) && Inv(s)
    ensures Blocked(s) ==> (Next(s, step).Some? <==> step in {Connect, WorkCurrent(AcceptError), WorkCurrent(Fail)})
    ensures Silenced(s) && Next(s, step).Some? ==> IsClient(step)
    ensures Next(s, step).Some? ==>
      (Stuck(Next(s, step).value) <==> Silenced(s) && !(step.Speak? && step.which.None?))
  {
  }

  /** The steps from a state, if each is possible and Stop has not returned before the last. */
  ghost predicate StopRun(s: Server, steps: seq<Step>)
    decreases |steps|
  {
    steps == [] || (Stopping(s) && Next(s, steps[0]).Some? && StopRun(Next(s, steps[0]).value, steps[1..]))
  }

  function OwnSteps(steps: seq<Step>): nat
  {
    if steps == [] then 0 else (if IsClient(steps[0]) then 0 else 1) + OwnSteps(steps[1..])
  }

  lemma StepKeepsInv(s: Server, step: Step)
    requires Inv(s) && Next(s, step).Some?
    ensures Inv(Next(s, step).value)
  {
    match step
    case WorkCurrent(action) => CurrentKeepsInv(s, action);
    case WorkIncoming(action) => IncomingKeepsInv(s, action);
    case _ => ControlKeepsInv(s, step);
  }

  /** However clients behave, at most ten steps of controller and worker lie between the call and the end of a Stop. */
  lemma {:induction false} StopIsBounded(s: Server, steps: seq<Step>)
    requires Inv(s) && StopRun(s, steps)
    ensures OwnSteps(steps) <= Rank(s) <= 10
    decreases |steps|
  {
    if steps == [] {
    } else {
      var s' := Next(s, steps[0]).value;
      StepKeepsInv(s, steps[0]);
      StopAdvances(s, steps[0]);
      StopIsBounded(s', steps[1..]);
    }
  }

  /** The requests completed in a run. */
  function Completions(steps: seq<Step>): nat
  {
    if steps == [] then 0
    else (if steps[0] in [WorkCurrent(Complete), WorkIncoming(Complete)] then 1 else 0) + Completions(steps[1..])
  }

  lemma CompletionStep(s: Server, step: Step)
    requires Inv(s) && Stopping(s) && Next(s, step).Some?
    ensures step != WorkIncoming(Complete)
    ensures step == WorkCurrent(Complete) ==> s.late == 0
    ensures
      var s' := Next(s, step).value;
      Stopping(s') ==> s'.late == s.late + if step == WorkCurrent(Complete) then 1 else 0
  {
  }

  lemma {:induction false} CompletionsBounded(s: Server, steps: seq<Step>)
    requires Inv(s) && Stopping(s) && StopRun(s, steps)
    ensures s.late + Completions(steps) <= 1
    decreases |steps|
  {
    if steps == [] {
      assert s.late <= 1;
    } else {
      CompletionStep(s, steps[0]);
      StepKeepsInv(s, steps[0]);
      if Stopping(Next(s, steps[0]).value) {
        CompletionsBounded(Next(s, steps[0]).value, steps[1..]);
      } else {
        assert steps[1..] == [];
        assert Inv(s) && s.late <= 1;
      }
    }
  }

  /** Between the call of Stop and its return at most one request is completed. */
  lemma AtMostOneLateRequest(before: seq<Step>, steps: seq<Step>)
    requires Run(before).Some? && Run(before).value.running && Next(Run(before).value, StopCall).Some?
    requires StopRun(Next(Run(before).value, StopCall).value, steps)
    ensures Completions(steps) <= 1
  {
    RunKeepsInv(before);
    var s := Run(before).value;
    StepKeepsInv(s, StopCall);
    CompletionsBounded(Next(s, StopCall).value, steps);
  }

  lemma MissedStep(s: Server, step: Step)
    requires Next(s, step).Some? && Next(s, step).value.missed && step != Wake(false)
    ensures s.missed
  {
  }

  /** A missed connect is one that failed while the worker was in accept with nothing pending. */
  lemma {:induction false} MissedMeans(steps: seq<Step>)
    requires Run(steps).Some? && Run(steps).value.missed
    ensures exists i :: 0 <= i < |steps| && steps[i] == Wake(false)
                        && Run(steps[..i]).Some? && Blocked(Run(steps[..i]).value)
  {
    var n := |steps| - 1;
    if steps[n] == Wake(false) {
    } else {
      MissedStep(Run(steps[..n]).value, steps[n]);
      MissedMeans(steps[..n]);
      var i :| 0 <= i < n && steps[..n][i] == Wake(false) && Run(steps[..n][..i]).Some?
               && Blocked(Run(steps[..n][..i]).value);
      assert steps[..n][..i] == steps[..i];
    }
  }

  /** Ordinary steps that lead to the return of Stop, with no thread left. */
  ghost predicate Finishes(s: Server, steps: seq<Step>)
  {
    && (forall i :: 0 <= i < |steps| ==> Ordinary(steps[i]))
    && EndOf(s, steps).Some?
    && EndOf(s, steps).value.control == Idle && EndOf(s, steps).value.current.None?
  }

  /** As long as nothing holds a Stop, the step that is due leads it on. */
  lemma DueKeepsFree(s: Server)
    requires Inv(s) && Stopping(s) && !Hangs(s)
    ensures Ordinary(Due(s)) && Next(s, Due(s)).Some?
    ensures var s' := Next(s, Due(s)).value; Stopping(s') ==> !Hangs(s')
    ensures var s' := Next(s, Due(s)).value; !Stopping(s') ==> s'.control == Idle && s'.current.None?
  {
    StopIsStuckOrDue(s);
  }

  /** A Stop that nothing holds can be run to its end by ordinary steps. */
  lemma {:induction false} StopCanFinish(s: Server) returns (steps: seq<Step>)
    requires Inv(s) && Stopping(s) && !Hangs(s)
    ensures Finishes(s, steps) && StopRun(s, steps) && |steps| <= Rank(s)
    decreases Rank(s)
  {
    var step := Due(s);
    DueKeepsFree(s);
    var s' := Next(s, step).value;
    StepKeepsInv(s, step);
    StopAdvances(s, step);
    if Stopping(s') {
      var rest := StopCanFinish(s');
      steps := [step] + rest;
    } else {
      steps := [step];
      assert steps[1..] == [];
    }
  }

  lemma HangsStays(s: Server, step: Step)
    requires Inv(s) && Stopping(s) && Hangs(s) && Ordinary(step) && Next(s, step).Some?
    ensures Stopping(Next(s, step).value) && Hangs(Next(s, step).value)
  {
  }

  lemma {:induction false} HangsForGood(s: Server, steps: seq<Step>)
    requires Inv(s) && Stopping(s) && Hangs(s)
    ensures !Finishes(s, steps)
    decreases |steps|
  {
    if steps == [] {
    } else if Ordinary(steps[0]) && Next(s, steps[0]).Some? {
      hide Inv, Hangs, Next;
      StepKeepsInv(s, steps[0]);
      HangsStays(s, steps[0]);
      HangsForGood(Next(s, steps[0]).value, steps[1..]);
      assert forall i :: 0 <= i < |steps| - 1 ==> steps[1..][i] == steps[i + 1];
    }
  }

  /** The exact condition: by its own steps a Stop can finish if and only if nothing holds it. */
  lemma StopFinishesIff(s: Server)
    requires Inv(s) && Stopping(s)
    ensures (exists steps :: Finishes(s, steps)) <==> !Hangs(s)
  {
    if Hangs(s) {
      forall steps ensures !Finishes(s, steps) {
        HangsForGood(s, steps);
      }
    } else {
      var steps := StopCanFinish(s);
    }
  }

  /** At step i of a run from s Stop gets stuck. */
  ghost predicate GetsStuckAt(s: Server, steps: seq<Step>, i: nat)
  {
    i < |steps| && EndOf(s, steps[..i]).Some? && GetsStuck(EndOf(s, steps[..i]).value, steps[i])
  }

  /**
   The join is always reached. Run a Stop in any interleaving, with any failures and clients,
   until it has returned or no ordinary step is left: controller and worker take at most ten
   steps, and it has returned unless it is stuck; it is stuck only if it was so before or got so
   in one of the ways above, and if no silent client is left, only because its connect failed
   while the worker was in accept and nothing was pending.
   */
  lemma {:induction false} StopReturnsOrSticks(s: Server, steps: seq<Step>)
    requires Inv(s) && StopRun(s, steps) && EndOf(s, steps).Some?
    requires Stopping(EndOf(s, steps).value) ==> Halted(EndOf(s, steps).value)
    ensures OwnSteps(steps) <= 10
    ensures var end := EndOf(s, steps).value; Stopping(end) <==> Stuck(end)
    ensures var end := EndOf(s, steps).value; Stuck(end) ==> Stuck(s) || exists i :: GetsStuckAt(s, steps, i)
    ensures var end := EndOf(s, steps).value; Stuck(end) && end.peer != Some(Silent) ==> end.missed
    decreases |steps|
  {
    StopIsBounded(s, steps);
    if steps == [] {
      if Stopping(s) {
        StopIsStuckOrDue(s);
      }
    } else {
      var s' := Next(s, steps[0]).value;
      StepKeepsInv(s, steps[0]);
      StopReturnsOrSticks(s', steps[1..]);
      if Stuck(EndOf(s, steps).value) && !Stuck(s) {
        BecomesStuckIff(s, steps[0]);
        if Stuck(s') {
          assert EndOf(s, steps[..0]) == Some(s);
          assert GetsStuckAt(s, steps, 0);
        } else {
          var i: nat :| GetsStuckAt(s', steps[1..], i);
          assert steps[..i + 1][1..] == steps[1..][..i];
          assert GetsStuckAt(s, steps, i + 1);
        }
      }
    }
  }

  lemma RunTwo(before: seq<Step>, a: Step, b: Step) returns (steps: seq<Step>)
    requires Run(before).Some? && Next(Run(before).value, a).Some?
    ensures Run(steps) == Next(Next(Run(before).value, a).value, b)
  {
    RunNext(before, a);
    RunNext(before + [a], b);
    steps := before + [a] + [b];
  }

  lemma RunOn(before: seq<Step>, a: Step, b: Step, c: Step) returns (steps: seq<Step>)
    requires Run(before).Some? && Next(Run(before).value, a).Some?
    requires Next(Next(Run(before).value, a).value, b).Some?
    ensures Run(steps) == Next(Next(Next(Run(before).value, a).value, b).value, c)
  {
    var two := RunTwo(before, a, b);
    RunNext(two, c);
    steps := two + [c];
  }

  lemma NewWorker() returns (steps: seq<Step>)
    ensures Run(steps) == Some(INITIAL.(running := true, current := Some(Opening)))
  {
    steps := RunOn([], StartCall, Spawn, Adopt);
  }

  lemma BlockedWorker() returns (steps: seq<Step>)
    ensures Run(steps) == Some(INITIAL.(running := true, current := Some(Accepting)))
  {
    steps := NewWorker();
    hide Run;
    steps := RunOn(steps, WorkCurrent(Listen), WorkCurrent(ReadFlag), WorkCurrent(ReadStop));
  }

  /** Such a run exists from the start of the program: the worker waits in accept and Stop's connect fails. */
  lemma FailedConnectGetsStuck() returns (steps: seq<Step>)
    ensures Run(steps).Some? && Stuck(Run(steps).value)
  {
    steps := BlockedWorker();
    hide Run;
    steps := RunOn(steps, StopCall, RequestStop, Wake(false));
  }

  /** And so does one in which the worker reads from a silent client, whatever becomes of Stop's connect. */
  lemma SilentClientGetsStuck(connected: bool) returns (steps: seq<Step>)
    ensures Run(steps).Some? && Stuck(Run(steps).value) && !Run(steps).value.missed
  {
    steps := BlockedWorker();
    hide Run;
    steps := RunOn(steps, Connect, WorkCurrent(Accept), StopCall);
    steps := RunTwo(steps, RequestStop, Wake(connected));
  }

  /** Start never waits for a worker that still serves: the thread it joins is already leaving. */
  lemma StartIsNeverStuck(steps: seq<Step>)
    requires Run(steps).Some? && Run(steps).value.control in {Spawning, Adopting}
    ensures
      var s := Run(steps).value;
      || Next(s, Spawn).Some?
      || Next(s, Adopt).Some?
      || (Next(s, WorkCurrent(End)).Some? && Next(Next(s, WorkCurrent(End)).value, Adopt).Some?)
  {
    RunKeepsInv(steps);
  }

  /** Between calls the flag is set exactly while a worker runs, and Stop has a thread to join. */
  ghost predicate FlagHolds(s: Server)
  {
    && (s.control == Idle ==> (s.running <==> !Gone(s.current)))
    && (Stopping(s) ==> s.current.Some?)
  }

  lemma FlagStep(s: Server, step: Step)
    requires Inv(s) && FlagHolds(s) && step != SpawnFails && Next(s, step).Some?
    ensures FlagHolds(Next(s, step).value)
  {
  }

  /** That is so as long as every thread is created. */
  lemma {:induction false} FlagMeansWorker(steps: seq<Step>)
    requires Run(steps).Some? && SpawnFails !in steps
    ensures FlagHolds(Run(steps).value)
  {
    if steps == [] {
    } else {
      hide FlagHolds, Inv, Next;
      var n := |steps| - 1;
      FlagMeansWorker(steps[..n]);
      RunKeepsInv(steps[..n]);
      assert steps[n] in steps;
      FlagStep(Run(steps[..n]).value, steps[n]);
    }
  }

  /** If creating a thread fails, the flag stays set: Start does nothing until a Stop, and that can finish. */
  lemma FailedSpawn(s: Server)
    requires Inv(s) && s.control == Spawning
    ensures
      var s' := Next(s, SpawnFails).value;
      && Inv(s') && s'.control == Idle && s'.running && Gone(s'.current)
      && Next(s', StartCall) == Some(s')
      && Next(s', StopCall).Some? && exists steps :: Finishes(Next(s', StopCall).value, steps)
  {
    StepKeepsInv(s, SpawnFails);
    var s' := Next(s, SpawnFails).value;
    StepKeepsInv(s', StopCall);
    StopFinishesIff(Next(s', StopCall).value);
  }
}

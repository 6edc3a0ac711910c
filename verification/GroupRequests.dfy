/**
  How a node group serves start, stop, restart and shutdown requests: a mailbox that holds one
  desired state, an attempt number that cancels a start under way, a wake-up counter, and one
  management thread that reads the mailbox and works on the nodes one by one. Nodes may also end by
  themselves, and creating, starting or stopping one may fail.
 */
module GroupRequests {
  import opened EventFd
  import opened Options

  datatype Want = Empty | Stopped | Started | Restart | Finish

  // ------------------------------------------------------------------ the mailbox

  /** `signalling`: a requester has stored its request, still holds the mutex and will signal. */
  datatype Mailbox = Mailbox(desired: Want, startId: nat, inProgress: bool, signalling: bool, wake: nat)

  predicate Explicit(want: Want) {
    want == Stopped || want == Started || want == Finish
  }

  /** A pending shutdown takes nothing more, a pending stop no automatic restart. */
  predicate Refused(m: Mailbox, automatic: bool) {
    m.desired == Finish || (automatic && m.desired == Stopped)
  }

  predicate Absorbed(m: Mailbox, want: Want) {
    want == Restart && m.desired == Restart
  }

  predicate Accepted(m: Mailbox, want: Want, automatic: bool) {
    !Refused(m, automatic) && !Absorbed(m, want)
  }

  function Posted(m: Mailbox, want: Want, automatic: bool): Mailbox {
    if !Accepted(m, want, automatic) then m
    else m.(desired := want,
            startId := if want != Restart || !m.inProgress then m.startId + 1 else m.startId,
            signalling := true)
  }

  function Taken(m: Mailbox): Mailbox {
    m.(inProgress := m.desired == Started || m.desired == Restart,
       desired := if m.desired == Restart then Started else m.desired)
  }

  class RequestBox {
    var desired: Want
    var startId: nat
    var inProgress: bool
    const wake: Event

    ghost function State(): Mailbox
      reads this, wake
    {
      Mailbox(desired, startId, inProgress, false, wake.counter)
    }

    constructor ()
      ensures State() == Mailbox(Empty, 0, false, false, 0) && fresh(wake) && !wake.coalesces
    {
      desired, startId, inProgress := Empty, 0, false;
      wake := new Event(false);
    }

    /** goToState(), undisturbed: the whole of it runs under the mutex. */
    method GoToState(want: Want, automatic: bool) returns (accepted: bool)
      requires !wake.coalesces
      modifies this, wake
      ensures accepted <==> Accepted(old(State()), want, automatic)
      ensures State() ==
        if accepted then Posted(old(State()), want, automatic).(signalling := false, wake := old(wake.counter) + 1)
        else old(State())
    {
      var pending := desired;
      if pending == Finish || (automatic && pending == Stopped) {
        return false;
      }
      if want == Restart && pending == Restart {
        return false;
      }
      desired := want;
      if want != Restart || !inProgress {
        startId := startId + 1;
      }
      wake.Signal();
      accepted := true;
    }

    /** The management thread's critical section: a restart is consumed, what comes later stays pending. */
    method TakeRequest() returns (want: Want)
      modifies this
      ensures want == old(desired) && State() == Taken(old(State()))
    {
      want := desired;
      inProgress := want == Started || want == Restart;
      if want == Restart {
        desired := Started;
      }
    }
  }

  // ------------------------------------------------------------------ the group

  datatype NodeState = Down | Created | Up | Ended | Absent   // Ended: by itself; Absent: optional, not created

  datatype Pc =
    | Top
    | Waiting
    | Reading
    | Comparing
    | Stopping(i: nat, thenStart: bool)
    | Snapshot
    | Attempt(starting: bool, i: nat, checked: bool)      // creating every node, then starting every node
    | Aborting(i: nat)
    | Failed
    | Ending
    | Exited

  /**
    `last` is the last accepted request and `unread` whether it waits to be read; `cancelled` says an
    explicit request came after this attempt's snapshot, `stray` how many nodes were worked on since.
   */
  datatype State = State(
    box: Mailbox,
    pc: Pc,
    retry: bool,
    running: bool,
    want: Want,
    attempt: nat,
    nodes: seq<NodeState>,
    last: Option<Want>,
    unread: bool,
    cancelled: bool,
    stray: nat,
    past: Past)

  /**
    How many requests were read, how many had been when the last one came, and the number of the last restart read;
    which request each node last came up for, and whether stopping failed in that restart with a node up.
   */
  datatype Past = Past(readings: nat, lastAt: nat, restartRead: nat, since: seq<nat>, leftUp: bool)

  function Read(p: Past, want: Want): Past {
    p.(readings := p.readings + 1, restartRead := if want == Restart then p.readings + 1 else p.restartRead,
       leftUp := want != Restart && p.leftUp)
  }

  function CameUp(p: Past, i: nat, before: NodeState, after: NodeState): Past {
    if after == Up && before != Up && i < |p.since| then p.(since := p.since[i := p.readings]) else p
  }

  function StopFailed(p: Past, restarting: bool, nodes: seq<NodeState>): Past {
    p.(leftUp := p.leftUp || (restarting && !NoneUp(nodes)))
  }

  predicate Init(s: State) {
    && s.box == Mailbox(Empty, 0, false, false, 0)
    && s.pc == Top && !s.retry && s.running && s.want == Empty
    && s.last == None && !s.unread && !s.cancelled && s.stray == 0
    && s.past == Past(0, 0, 0, seq(|s.nodes|, _ => 0), false)
    && forall i :: 0 <= i < |s.nodes| ==> s.nodes[i] == Down
  }

  datatype Outcome = Done | Skips | Fails      // Skips: an optional node stays absent, a failed stop is ignored

  datatype Step =
    | Request(want: Want, automatic: bool)
    | Signal
    | NodeEnds(i: nat)
    | Manage(outcome: Outcome)

  predicate Enabled(s: State, step: Step) {
    match step
    case Request(w, automatic) => !s.box.signalling && w != Empty && (automatic ==> w == Restart)
    case Signal => s.box.signalling
    case NodeEnds(i) => i < |s.nodes| && s.nodes[i] == Up
    case Manage(_) =>
      (match s.pc
       case Waiting => s.box.wake > 0
       case Reading => !s.box.signalling
       case Ending => !s.box.signalling
       case Exited => false
       case _ => true)
  }

  predicate AllUp(nodes: seq<NodeState>) { forall i :: 0 <= i < |nodes| ==> nodes[i] == Up }
  predicate NoneUp(nodes: seq<NodeState>) { forall i :: 0 <= i < |nodes| ==> nodes[i] != Up }

  /** currentState() is the wanted one. */
  predicate AsWanted(want: Want, nodes: seq<NodeState>) {
    if nodes == [] then want == Empty
    else (want == Started && AllUp(nodes)) || (want == Stopped && NoneUp(nodes))
  }

  function Action(want: Want): Pc {
    match want
    case Started => Snapshot
    case Stopped => Stopping(0, false)
    case Restart => Stopping(0, true)
    case Finish => Stopping(0, false)
    case Empty => Failed
  }

  function Dispatch(s: State): State {
    if AsWanted(s.want, s.nodes) then s.(retry := false, pc := Ending) else s.(pc := Action(s.want))
  }

  function Created1(n: NodeState, o: Outcome): NodeState {
    if n == Up || n == Created then n else if o == Skips then Absent else Created
  }

  function Started1(n: NodeState, o: Outcome): NodeState {
    if n == Up then n else if o == Skips then Absent else Up
  }

  /** Waiting for the mailbox, reading it, and ending a turn. */
  predicate Looks(pc: Pc) {
    pc != Comparing && !pc.Stopping? && !pc.Aborting? && pc != Snapshot && !pc.Attempt?
  }

  function LookNext(s: State): State {
    match s.pc
    case Top => s.(pc := if s.retry then Reading else Waiting)
    case Waiting => s.(box := s.box.(wake := 0), pc := Reading)
    case Reading =>
      s.(want := s.box.desired, box := Taken(s.box), unread := false, pc := Comparing, past := Read(s.past, s.box.desired))
    case Failed => s.(retry := true, pc := Ending)
    case Ending => s.(box := s.box.(inProgress := false), pc := if s.running then Top else Exited)
    case _ => s
  }

  /** stopNodesInternal(). */
  function StopNext(s: State, o: Outcome): (t: State)
    ensures t.box == s.box && t.last == s.last && t.unread == s.unread
  {
    match s.pc
    case Stopping(i, thenStart) =>
      if i >= |s.nodes| then
        if thenStart then s.(pc := Snapshot) else s.(running := s.want != Finish, retry := false, pc := Ending)
      else if o == Fails then s.(pc := Failed, past := StopFailed(s.past, thenStart, s.nodes))
      else s.(nodes := s.nodes[i := Down], pc := Stopping(i + 1, thenStart))
    case _ => s
  }

  /** ... and the same loop ignoring failures after a failed start. */
  function AbortNext(s: State, o: Outcome): (t: State)
    ensures t.box == s.box && t.last == s.last && t.unread == s.unread
  {
    match s.pc
    case Aborting(i) =>
      if i >= |s.nodes| then s.(pc := Failed)
      else s.(nodes := if o == Done then s.nodes[i := Down] else s.nodes, pc := Aborting(i + 1))
    case _ => s
  }

  /** startNodesInternal(): the attempt number is checked before each node, then the node is worked on. */
  function StartNext(s: State, o: Outcome): (t: State)
    ensures t.box == s.box && t.last == s.last && t.unread == s.unread
  {
    match s.pc
    case Attempt(starting, i, checked) =>
      if i >= |s.nodes| then
        if starting then s.(retry := false, pc := Ending) else s.(pc := Attempt(true, 0, false))
      else if !checked then s.(pc := if s.attempt == s.box.startId then Attempt(starting, i, true) else Aborting(0))
      else if o == Fails then s.(pc := Aborting(0))
      else
        var n := if starting then Started1(s.nodes[i], o) else Created1(s.nodes[i], o);
        s.(nodes := s.nodes[i := n], pc := Attempt(starting, i + 1, false),
           stray := if s.cancelled then s.stray + 1 else s.stray,
           past := CameUp(s.past, i, s.nodes[i], n))
    case _ => s
  }

  function ManageNext(s: State, o: Outcome): State
    requires Enabled(s, Manage(o))
  {
    if Looks(s.pc) then LookNext(s)
    else if s.pc == Comparing then Dispatch(s)
    else if s.pc.Stopping? then StopNext(s, o)
    else if s.pc.Aborting? then AbortNext(s, o)
    else if s.pc == Snapshot then
      s.(attempt := s.box.startId, cancelled := false, stray := 0, pc := Attempt(false, 0, false))
    else StartNext(s, o)
  }

  function Apply(s: State, step: Step): State
    requires Enabled(s, step)
  {
    match step
    case Request(w, automatic) =>
      if Accepted(s.box, w, automatic) then
        s.(box := Posted(s.box, w, automatic), last := Some(w), unread := true, past := s.past.(lastAt := s.past.readings),
           cancelled := s.cancelled || Explicit(w))
      else s
    case Signal => s.(box := s.box.(signalling := false, wake := s.box.wake + 1))
    case NodeEnds(i) => s.(nodes := s.nodes[i := Ended])
    case Manage(o) => ManageNext(s, o)
  }

  least predicate Reachable[nat](s: State) {
    Init(s) || exists r, step :: Reachable(r) && Enabled(r, step) && s == Apply(r, step)
  }

  // ------------------------------------------------------------------ what every step keeps

  /** A request read as a restart is served as a start from then on. */
  predicate Serves(want: Want, last: Want) {
    want == last || (last == Restart && want == Started)
  }

  /** An accepted request that was not read yet has a wake-up behind it. */
  predicate Mailed(box: Mailbox, last: Option<Want>, unread: bool, pc: Pc) {
    && (unread ==> box.wake > 0 || box.signalling || pc == Reading)
    && (unread ==> last == Some(box.desired))
    && (box.desired == Restart ==> unread)
  }

  /** What was read is what is being served; before the first request nothing happens. */
  predicate ReadLaw(desired: Want, last: Option<Want>, unread: bool, want: Want) {
    !unread && last.Some? ==>
      desired == (if last.value == Restart then Started else last.value) && Serves(want, last.value)
  }

  predicate Quiet(box: Mailbox, pc: Pc, unread: bool, retry: bool) {
    box.desired == Empty && !unread && !retry && box.wake == 0 && !box.signalling && (pc == Top || pc == Waiting)
  }

  predicate MailLaw(s: State) {
    && Mailed(s.box, s.last, s.unread, s.pc) && ReadLaw(s.box.desired, s.last, s.unread, s.want)
    && (s.last.None? ==> Quiet(s.box, s.pc, s.unread, s.retry))
    && (s.pc == Waiting ==> !s.retry)
  }

  predicate Serving(pc: Pc) {
    pc != Top && pc != Waiting && pc != Reading && pc != Exited
  }

  predicate Checked(pc: Pc) {
    pc.Attempt? && pc.checked
  }

  /** What the thread is doing and what it was asked to do. */
  predicate OnTask(pc: Pc, want: Want, inProgress: bool) {
    && (inProgress <==> Serving(pc) && (want == Started || want == Restart))
    && (pc == Snapshot || pc.Attempt? || pc.Aborting? ==> want == Started || want == Restart)
    && (pc.Stopping? ==> if pc.thenStart then want == Restart else want == Stopped || want == Finish)
  }

  /** The attempt number tells exactly whether an explicit request came after the snapshot. */
  predicate Numbered(pc: Pc, attempt: nat, startId: nat, cancelled: bool, stray: nat) {
    pc.Attempt? ==>
      && attempt <= startId && (cancelled <==> attempt < startId)
      && stray <= 1 && (Checked(pc) || !cancelled ==> stray == 0)
  }

  predicate AttemptLaw(s: State) {
    OnTask(s.pc, s.want, s.box.inProgress) && Numbered(s.pc, s.attempt, s.box.startId, s.cancelled, s.stray)
  }

  predicate Running(n: NodeState) { n == Up || n == Ended || n == Absent }

  /** The nodes are as the request asked, but for those that ended by themselves or are optional. */
  predicate CarriedOut(want: Want, nodes: seq<NodeState>) {
    if want == Started || want == Restart then forall i :: 0 <= i < |nodes| ==> Running(nodes[i]) else NoneUp(nodes)
  }

  predicate Settled(pc: Pc) {
    pc == Ending || pc == Top || pc == Waiting || pc == Exited
  }

  predicate NodesDone(pc: Pc, nodes: seq<NodeState>) {
    && (pc.Stopping? ==> forall i :: 0 <= i < |nodes| && i < pc.i ==> nodes[i] != Up)
    && (pc.Attempt? && pc.starting ==> forall i :: 0 <= i < |nodes| && i < pc.i ==> Running(nodes[i]))
  }

  predicate ThreadEnds(pc: Pc, running: bool, want: Want, retry: bool) {
    && (pc == Exited || (pc == Ending && !running) ==> want == Finish && !retry)
    && (pc != Ending && pc != Exited ==> running)
    && (want == Finish && !retry && pc == Ending ==> !running)
    && (want == Finish && (pc == Top || pc == Waiting) ==> retry)
  }

  predicate NodeLaw(s: State) {
    && NodesDone(s.pc, s.nodes) && ThreadEnds(s.pc, s.running, s.want, s.retry)
    && (!s.retry && Settled(s.pc) ==> CarriedOut(s.want, s.nodes))
  }

  lemma MailLooks(s: State)
    requires MailLaw(s) && Looks(s.pc) && Enabled(s, Manage(Done))
    ensures MailLaw(LookNext(s))
  {
    match s.pc { case Top => case _ => }
  }

  lemma MailDispatched(s: State)
    requires MailLaw(s) && s.pc == Comparing
    ensures MailLaw(Dispatch(s))
  {
    match s.want { case Started => case _ => }
  }

  lemma MailStops(s: State, o: Outcome)
    requires MailLaw(s) && s.pc.Stopping?
    ensures MailLaw(StopNext(s, o))
  {
  }

  lemma MailAborts(s: State, o: Outcome)
    requires MailLaw(s) && s.pc.Aborting?
    ensures MailLaw(AbortNext(s, o))
  {
  }

  lemma MailStarts(s: State, o: Outcome)
    requires MailLaw(s) && s.pc.Attempt?
    ensures MailLaw(StartNext(s, o))
  {
    match s.pc { case Attempt(starting, i, checked) => if i >= |s.nodes| { if starting { } } else if checked { } }
  }

  lemma MailKept(s: State, step: Step)
    requires MailLaw(s) && Enabled(s, step)
    ensures MailLaw(Apply(s, step))
  {
    match step {
      case Manage(o) =>
        if Looks(s.pc) {
          MailLooks(s);
        } else if s.pc == Comparing {
          MailDispatched(s);
        } else if s.pc.Stopping? {
          MailStops(s, o);
        } else if s.pc.Aborting? {
          MailAborts(s, o);
        } else if s.pc.Attempt? {
          MailStarts(s, o);
        }
      case Request(w, _) => match w { case Restart => case _ => }
      case _ =>
    }
  }

  lemma AttemptLooks(s: State)
    requires AttemptLaw(s) && Looks(s.pc) && Enabled(s, Manage(Done))
    ensures AttemptLaw(LookNext(s))
  {
    match s.pc { case Top => case _ => }
  }

  lemma AttemptDispatched(s: State)
    requires AttemptLaw(s) && s.pc == Comparing
    ensures AttemptLaw(Dispatch(s))
  {
    match s.want { case Started => case _ => }
  }

  lemma AttemptStops(s: State, o: Outcome)
    requires AttemptLaw(s) && s.pc.Stopping?
    ensures AttemptLaw(StopNext(s, o))
  {
  }

  lemma AttemptAborts(s: State, o: Outcome)
    requires AttemptLaw(s) && s.pc.Aborting?
    ensures AttemptLaw(AbortNext(s, o))
  {
  }

  lemma AttemptStarts(s: State, o: Outcome)
    requires AttemptLaw(s) && s.pc.Attempt?
    ensures AttemptLaw(StartNext(s, o))
  {
    match s.pc { case Attempt(starting, i, checked) => if i >= |s.nodes| { if starting { } } else if checked { } }
  }

  lemma AttemptKept(s: State, step: Step)
    requires AttemptLaw(s) && Enabled(s, step)
    ensures AttemptLaw(Apply(s, step))
  {
    match step {
      case Manage(o) =>
        if Looks(s.pc) {
          AttemptLooks(s);
        } else if s.pc == Comparing {
          AttemptDispatched(s);
        } else if s.pc.Stopping? {
          AttemptStops(s, o);
        } else if s.pc.Aborting? {
          AttemptAborts(s, o);
        } else if s.pc.Attempt? {
          AttemptStarts(s, o);
        }
      case Request(w, _) => match w { case Restart => case _ => }
      case _ =>
    }
  }

  lemma NodesLooks(s: State)
    requires AttemptLaw(s) && NodeLaw(s) && Looks(s.pc) && Enabled(s, Manage(Done))
    ensures NodeLaw(LookNext(s))
  {
    match s.pc { case Top => case _ => }
  }

  lemma NodesDispatched(s: State)
    requires AttemptLaw(s) && NodeLaw(s) && s.pc == Comparing
    ensures NodeLaw(Dispatch(s))
  {
    match s.want { case Started => case _ => }
  }

  lemma NodesStops(s: State, o: Outcome)
    requires AttemptLaw(s) && NodeLaw(s) && s.pc.Stopping?
    ensures NodeLaw(StopNext(s, o))
  {
  }

  lemma NodesAborts(s: State, o: Outcome)
    requires AttemptLaw(s) && NodeLaw(s) && s.pc.Aborting?
    ensures NodeLaw(AbortNext(s, o))
  {
  }

  lemma NodeWorkedOn(nodes: seq<NodeState>, starting: bool, i: nat, n: NodeState)
    requires NodesDone(Attempt(starting, i, true), nodes) && i < |nodes| && (starting ==> Running(n))
    ensures NodesDone(Attempt(starting, i + 1, false), nodes[i := n])
  {
    if starting { }
  }

  lemma NodesStarts(s: State, o: Outcome)
    requires AttemptLaw(s) && NodeLaw(s) && s.pc.Attempt?
    ensures NodeLaw(StartNext(s, o))
  {
    var i, n := s.pc.i, StartNext(s, o).nodes;
    if i < |s.nodes| && s.pc.checked && o != Fails {
      NodeWorkedOn(s.nodes, s.pc.starting, i, n[i]);
    } else if i >= |s.nodes| && s.pc.starting {
      assert forall j :: 0 <= j < |s.nodes| ==> Running(s.nodes[j]);
    }
  }

  lemma NodesKept(s: State, step: Step)
    requires AttemptLaw(s) && NodeLaw(s) && Enabled(s, step)
    ensures NodeLaw(Apply(s, step))
  {
    match step {
      case Manage(o) =>
        if Looks(s.pc) {
          NodesLooks(s);
        } else if s.pc == Comparing {
          NodesDispatched(s);
        } else if s.pc.Stopping? {
          NodesStops(s, o);
        } else if s.pc.Aborting? {
          NodesAborts(s, o);
        } else if s.pc.Attempt? {
          NodesStarts(s, o);
        }
      case Request(w, _) => match w { case Restart => case _ => }
      case _ =>
    }
  }

  predicate Inv(s: State) {
    MailLaw(s) && AttemptLaw(s) && NodeLaw(s)
  }

  least lemma ReachableInv[nat](s: State)
    requires Reachable(s)
    ensures Inv(s)
  {
    if !Init(s) {
      var r, step :| Reachable(r) && Enabled(r, step) && s == Apply(r, step);
      ReachableInv(r);
      MailKept(r, step);
      AttemptKept(r, step);
      NodesKept(r, step);
    }
  }

  // ------------------------------------------------------------------ main results

  /**
    No request is lost: once the management thread sleeps with no unread wake-up and no request in
    the middle of being posted, the last accepted request has been read and carried out.
   */
  lemma NoRequestLost(s: State)
    requires Reachable(s) && s.pc == Waiting && s.box.wake == 0 && !s.box.signalling && s.last.Some?
    ensures !s.unread && !s.retry && s.last.value != Finish
    ensures CarriedOut(s.last.value, s.nodes)
  {
    ReachableInv(s);
  }

  /** ... and after a shutdown request the thread ends only with every node down. */
  lemma ExitLeavesNothingUp(s: State)
    requires Reachable(s) && s.pc == Exited
    ensures s.want == Finish && NoneUp(s.nodes)
  {
    ReachableInv(s);
  }

  /** A pending restart is unread, with a wake-up behind it; absorbing another one loses neither. */
  lemma PendingRestartWillBeRead(s: State, automatic: bool)
    requires Reachable(s) && s.box.desired == Restart
    ensures s.unread && (s.box.wake > 0 || s.box.signalling || s.pc == Reading)
    ensures Posted(s.box, Restart, automatic) == s.box
  {
    ReachableInv(s);
  }

  /** A restart raised while a start is under way does not abort it, and stays pending. */
  lemma RestartKeepsTheStart(s: State, automatic: bool)
    requires Reachable(s) && s.pc.Attempt? && Enabled(s, Request(Restart, automatic))
    ensures var t := Apply(s, Request(Restart, automatic));
      && t.box.startId == s.box.startId && t.cancelled == s.cancelled && t.pc == s.pc && t.nodes == s.nodes
      && (Refused(s.box, automatic) || t.box.desired == Restart)
  {
    ReachableInv(s);
  }

  /** The thread itself changes the pending request only by consuming a restart. */
  lemma ThreadKeepsRequest(s: State, o: Outcome)
    requires Enabled(s, Manage(o))
    ensures var t := ManageNext(s, o);
      || t.box.desired == s.box.desired
      || (s.pc == Reading && t.want == s.box.desired == Restart && t.box.desired == Started)
  {
    match s.pc { case Reading => case _ => }
  }

  /** Only an explicit request replaces a pending restart, unless it is read and served. */
  lemma OnlyExplicitReplacesRestart(s: State, step: Step)
    requires Enabled(s, step) && s.box.desired == Restart && Apply(s, step).box.desired != Restart
    ensures (step.Request? && Explicit(step.want)) || (step.Manage? && s.pc == Reading && Apply(s, step).want == Restart)
  {
    if step.Manage? {
      ThreadKeepsRequest(s, step.outcome);
    }
  }

  /**
    An attempt is cancelled exactly by an explicit request after its snapshot; the next check then
    aborts it, and at most the one node already checked is still worked on.
   */
  lemma ExplicitRequestCancels(s: State, o: Outcome)
    requires Reachable(s) && s.pc.Attempt?
    ensures s.stray <= 1
    ensures !Checked(s.pc) && s.pc.i < |s.nodes| ==> (s.cancelled <==> ManageNext(s, o).pc == Aborting(0))
    ensures s.cancelled && !Checked(s.pc) && s.pc.i < |s.nodes| ==> ManageNext(s, o).nodes == s.nodes
  {
    ReachableInv(s);
  }

  /**
    A stop accepted after a start was read but before its snapshot does not cancel that start: the
    snapshot is taken of the raised attempt number, and the stop stays pending until the start is over.
   */
  lemma StopBeforeSnapshotWaits(s: State, o: Outcome)
    requires s.pc == Snapshot && Enabled(s, Request(Stopped, false)) && !Refused(s.box, false)
    ensures var t := Apply(s, Request(Stopped, false));
      && Enabled(t, Manage(o)) && t.box.startId == s.box.startId + 1
      && var u := ManageNext(t, o);
      u.pc == Attempt(false, 0, false) && !u.cancelled && u.attempt == u.box.startId && u.box.desired == Stopped
  {
  }

  /** ... which does happen: a start is read, and a stop follows. */
  lemma StopBeforeSnapshotHappens() returns (s: State)
    ensures Reachable(s) && s.pc == Snapshot && Enabled(s, Request(Stopped, false)) && !Refused(s.box, false)
  {
    var s3 := StartPosted();
    s := StartRead(s3);
  }

  function Asked(started: Want, startId: nat, wake: nat, pc: Pc, want: Want, unread: bool): State {
    State(Mailbox(started, startId, pc == Comparing || pc == Snapshot, false, wake), pc, false, true, want, 0, [Down],
          if startId == 0 then None else Some(Started), unread, startId > 0, 0,
          Past(if want == Empty then 0 else 1, 0, 0, [0], false))
  }

  lemma StartPosted() returns (s: State)
    ensures Reachable(s) && s == Asked(Started, 1, 1, Waiting, Empty, true)
  {
    var s0 := Asked(Empty, 0, 0, Top, Empty, false);
    assert Reachable(s0);
    var s1 := Asked(Started, 1, 0, Top, Empty, true);
    var s1' := s1.(box := s1.box.(signalling := true));
    OneStep(s0, Request(Started, false), s1');
    OneStep(s1', Signal, Asked(Started, 1, 1, Top, Empty, true));
    s := Asked(Started, 1, 1, Waiting, Empty, true);
    OneStep(Asked(Started, 1, 1, Top, Empty, true), Manage(Done), s);
  }

  lemma StartRead(s: State) returns (t: State)
    requires Reachable(s) && s == Asked(Started, 1, 1, Waiting, Empty, true)
    ensures Reachable(t) && t == Asked(Started, 1, 0, Snapshot, Started, false)
  {
    var s1 := Asked(Started, 1, 0, Reading, Empty, true);
    var s2 := Asked(Started, 1, 0, Comparing, Started, false);
    t := Asked(Started, 1, 0, Snapshot, Started, false);
    OneStep(s, Manage(Done), s1);
    OneStep(s1, Manage(Done), s2);
    StartDispatched(s2);
    OneStep(s2, Manage(Done), t);
  }

  lemma StartDispatched(s: State)
    requires s == Asked(Started, 1, 0, Comparing, Started, false)
    ensures Dispatch(s) == Asked(Started, 1, 0, Snapshot, Started, false)
  {
    assert s.nodes[0] != Up;
  }

  lemma OneStep(s: State, step: Step, t: State)
    requires Reachable(s) && Enabled(s, step) && t == Apply(s, step)
    ensures Reachable(t)
  {
  }

  /** Nothing overrides a shutdown. */
  lemma FinishIsFinal(s: State, step: Step)
    requires Enabled(s, step) && s.box.desired == Finish
    ensures Apply(s, step).box.desired == Finish
  {
    if step.Manage? {
      ThreadKeepsRequest(s, step.outcome);
    }
  }

  // ------------------------------------------------------------------ a stop against automatic restarts

  /** However far a start has got, no automatic restart replaces a stop that was accepted. */
  lemma AutomaticNeverReplacesStop(s: State, step: Step)
    requires Enabled(s, step) && s.box.desired == Stopped && (step.Request? ==> step.automatic)
    ensures Apply(s, step).box.desired == Stopped
  {
    if step.Manage? {
      ThreadKeepsRequest(s, step.outcome);
    }
  }

  /** The group is down to stay: a stop is pending or served, and no start is under way. */
  predicate DownToStay(s: State) {
    && s.box.desired == Stopped && NoneUp(s.nodes)
    && s.pc != Snapshot && !s.pc.Attempt? && (s.pc.Stopping? ==> !s.pc.thenStart)
    && (s.pc == Comparing ==> s.want == Stopped)
  }

  predicate StepsFrom(s: State, steps: seq<Step>)
    decreases |steps|
  {
    steps == [] || (Enabled(s, steps[0]) && StepsFrom(Apply(s, steps[0]), steps[1..]))
  }

  function RunSteps(s: State, steps: seq<Step>): State
    requires StepsFrom(s, steps)
    decreases |steps|
  {
    if steps == [] then s else RunSteps(Apply(s, steps[0]), steps[1..])
  }

  lemma DownLooks(s: State)
    requires DownToStay(s) && Looks(s.pc) && Enabled(s, Manage(Done))
    ensures DownToStay(LookNext(s))
  {
    match s.pc { case Top => case _ => }
  }

  lemma DownDispatched(s: State)
    requires DownToStay(s) && s.pc == Comparing
    ensures DownToStay(Dispatch(s))
  {
    match s.want { case Started => case _ => }
  }

  lemma DownStops(s: State, o: Outcome)
    requires DownToStay(s) && s.pc.Stopping?
    ensures DownToStay(StopNext(s, o))
  {
  }

  lemma DownAborts(s: State, o: Outcome)
    requires DownToStay(s) && s.pc.Aborting?
    ensures DownToStay(AbortNext(s, o))
  {
  }

  lemma DownKept(s: State, step: Step)
    requires DownToStay(s) && Enabled(s, step) && (step.Request? ==> step.automatic)
    ensures DownToStay(Apply(s, step))
  {
    match step {
      case Manage(o) =>
        if Looks(s.pc) {
          DownLooks(s);
        } else if s.pc == Comparing {
          DownDispatched(s);
        } else if s.pc.Stopping? {
          DownStops(s, o);
        } else {
          DownAborts(s, o);
        }
      case Request(w, _) => match w { case Restart => case _ => }
      case _ =>
    }
  }

  predicate Automatic(steps: seq<Step>) {
    forall i :: 0 <= i < |steps| && steps[i].Request? ==> steps[i].automatic
  }

  lemma {:induction false} StaysDown(s: State, steps: seq<Step>)
    requires DownToStay(s) && StepsFrom(s, steps) && Automatic(steps)
    ensures DownToStay(RunSteps(s, steps))
    decreases |steps|
  {
    if steps != [] {
      DownKept(s, steps[0]);
      StaysDown(Apply(s, steps[0]), steps[1..]);
    }
  }

  lemma {:induction false} StopStaysPending(s: State, steps: seq<Step>)
    requires Reachable(s) && s.box.desired == Stopped && StepsFrom(s, steps) && Automatic(steps)
    ensures Reachable(RunSteps(s, steps)) && RunSteps(s, steps).box.desired == Stopped
    decreases |steps|
  {
    if steps != [] {
      AutomaticNeverReplacesStop(s, steps[0]);
      OneStep(s, steps[0], Apply(s, steps[0]));
      StopStaysPending(Apply(s, steps[0]), steps[1..]);
    }
  }

  /** The thread sleeps, with no wake-up unread and nobody in the middle of a request. */
  predicate AtRest(s: State) {
    s.pc == Waiting && s.box.wake == 0 && !s.box.signalling
  }

  /** Asleep with nothing left to read, a stop that was accepted last has been served. */
  lemma ServedStopIsDown(s: State)
    requires Reachable(s) && AtRest(s) && s.box.desired == Stopped
    ensures DownToStay(s)
  {
    ReachableInv(s);
    NoRequestLost(s);
  }

  /**
    However many automatic restarts nodes raise after a stop was accepted, whatever state it met: the stop stays,
    the group is down as soon as the thread sleeps again, and stays down from then on.
   */
  lemma AutomaticNeverOverridesStop(s: State, serving: seq<Step>, later: seq<Step>)
    requires Reachable(s) && s.box.desired == Stopped
    requires StepsFrom(s, serving) && Automatic(serving) && AtRest(RunSteps(s, serving))
    requires StepsFrom(RunSteps(s, serving), later) && Automatic(later)
    ensures NoneUp(RunSteps(s, serving).nodes)
    ensures var t := RunSteps(RunSteps(s, serving), later); NoneUp(t.nodes) && t.box.desired == Stopped
  {
    StopStaysPending(s, serving);
    ServedStopIsDown(RunSteps(s, serving));
    StaysDown(RunSteps(s, serving), later);
  }
}

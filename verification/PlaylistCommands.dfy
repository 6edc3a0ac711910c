/**
  The playlist controller as a state machine: transport commands, edits during playback, and what
  the backend reports, each as a function from state to state.
 */
module PlaylistCommands {
  import opened Options
  import opened PlaylistPolicy

  const SLOT_CAPACITY := 16

  datatype Transport = Stopped | Loading | Playing | Paused

  /** What the controller asks of the backend. */
  datatype Call =
    | Cue(request: nat, item: Id, at: Option<int>)
    | Pause(item: Id)
    | Resume(item: Id)
    | Park(item: Id)
    | Remove(item: Id)

  /** `lengths`: what the backend knows about each medium; `calls`: everything asked of it so far. */
  datatype State = State(
    clips: seq<Clip>,
    mode: PlaylistMode,
    lengths: map<Url, int>,
    transport: Transport,
    selected: Option<Id>,
    active: Option<Id>,
    pending: Option<Id>,
    armed: Option<Id>,
    requests: nat,
    pendingRequest: Option<nat>,
    armedRequest: Option<nat>,
    start: Option<int>,
    end: Option<int>,
    pausedAt: Option<int>,
    now: int,
    calls: seq<Call>)

  predicate ValidClips(clips: seq<Clip>) {
    forall i :: 0 <= i < |clips| ==> ValidClip(clips[i])
  }

  /** A new controller; None where the constructor refuses. */
  function Initial(clips: seq<Clip>, mode: PlaylistMode, lengths: map<Url, int>): Option<State> {
    var first := FirstEnabled(clips);
    if clips == [] || !Unique(clips) || first.None? then None
    else Some(State(clips, mode, lengths, Stopped, Some(clips[first.value].id), None, None, None, 0, None, None,
                    None, None, None, 0, []))
  }

  // ------------------------------------------------------------------ scheduling

  function LengthOf(lengths: map<Url, int>, c: Clip): Option<int> {
    if c.url in lengths then Some(lengths[c.url]) else None
  }

  function SpanOf(s: State, i: nat): Option<int>
    requires i < |s.clips| && ValidClips(s.clips)
  {
    Span(s.clips[i], LengthOf(s.lengths, s.clips[i]))
  }

  function ActiveIndex(s: State): (r: Option<nat>)
    ensures r.Some? ==> r.value < |s.clips|
  {
    IndexOf(s.clips, s.active)
  }

  function Next(s: State): (r: Option<nat>)
    ensures r.Some? ==> r.value < |s.clips|
  {
    ResolveAutomatic(s.clips, ActiveIndex(s), s.mode)
  }

  function Called(s: State, call: Call): State { s.(calls := s.calls + [call]) }

  function Disarm(s: State): State {
    if s.armed.Some? then Called(s, Park(s.armed.value)).(armed := None, armedRequest := None)
    else s.(armed := None, armedRequest := None)
  }

  function Arm(s: State, i: nat): State
    requires i < |s.clips|
  {
    Called(s, Cue(s.requests + 1, s.clips[i].id, s.end))
      .(armed := Some(s.clips[i].id), armedRequest := Some(s.requests + 1), requests := s.requests + 1)
  }

  /** What is to be armed: where playback goes at the end, unless it ends or repeats. */
  function Target(s: State): (r: Option<nat>)
    ensures r.Some? ==> r.value < |s.clips|
  {
    if ActiveIndex(s).None? || s.end.None? || Next(s) == ActiveIndex(s) then None else Next(s)
  }

  function ArmNext(s: State): State {
    var t := Disarm(s);
    if Target(t).None? then t else Arm(t, Target(t).value)
  }

  function EndOf(start: int, span: Option<int>): Option<int> {
    if span.None? then None else Some(start + span.value)
  }

  function Aired(s: State, id: Id, at: int, span: Option<int>): State {
    s.(active := Some(id), pending := None, pendingRequest := None, armed := None, armedRequest := None,
       transport := Playing, pausedAt := None, start := Some(at), end := EndOf(at, span))
  }

  function OnAir(s: State, i: nat, at: int): State
    requires i < |s.clips| && ValidClips(s.clips)
  {
    Aired(s, s.clips[i].id, at, SpanOf(s, i))
  }

  function WentOnAir(s: State, i: nat, at: int): State
    requires i < |s.clips| && ValidClips(s.clips)
  {
    var t := OnAir(s, i, at);
    ArmNext(if s.active.Some? && s.active != t.active then Called(t, Park(s.active.value)) else t)
  }

  function Failed(s: State, request: Option<nat>): State {
    if request.Some? && request == s.pendingRequest then
      s.(pending := None, pendingRequest := None, transport := if s.active.None? then Stopped else s.transport)
    else if request.Some? && request == s.armedRequest then s.(armed := None, armedRequest := None)
    else s
  }

  function Take(s: State, i: nat): State
    requires i < |s.clips|
  {
    var t := Disarm(s);
    Called(t, Cue(t.requests + 1, s.clips[i].id, None))
      .(pending := Some(s.clips[i].id), pendingRequest := Some(t.requests + 1), requests := t.requests + 1,
        transport := if t.active.None? then Loading else t.transport)
  }

  /** _take(): refused for a disabled element, and undone when the backend raises (`accepts` is false). */
  function TakeOrFail(s: State, i: nat, accepts: bool): State
    requires i < |s.clips|
  {
    if s.clips[i].disabled then s
    else if accepts then Take(s, i)
    else Failed(Take(s, i), Some(s.requests + 1))
  }

  function Select(s: State, i: nat): State
    requires i < |s.clips|
  {
    s.(selected := Some(s.clips[i].id))
  }

  // ------------------------------------------------------------------ backend events

  datatype Event =
    | CameOnAir(item: Id, request: Option<nat>, at: Option<int>)
    | CueFailed(item: Id, request: Option<nat>)

  predicate Live(s: State, request: Option<nat>) {
    request.Some? && (request == s.pendingRequest || request == s.armedRequest)
  }

  /** An event that answers a cue the controller made, with the element it named. */
  predicate Honest(calls: seq<Call>, e: Event) {
    e.CameOnAir? && e.request.Some? ==>
      exists k :: 0 <= k < |calls| && calls[k].Cue? && calls[k].request == e.request.value && calls[k].item == e.item
  }

  function Handle(s: State, e: Event): State
    requires ValidClips(s.clips)
  {
    match e
    case CameOnAir(item, request, at) =>
      var i := IndexOf(s.clips, Some(item));
      if !Live(s, request) || i.None? then s
      else WentOnAir(s, i.value, if at.None? then s.now else at.value)
    case CueFailed(_, request) => Failed(s, request)
  }

  function Drain(s: State, events: seq<Event>): (t: State)
    requires ValidClips(s.clips)
    ensures t.clips == s.clips
    decreases |events|
  {
    if events == [] then s else Drain(Handle(s, events[0]), events[1..])
  }

  predicate Finished(s: State) {
    s.transport == Playing && s.end.Some? && s.now >= s.end.value
  }

  /** A repeat starts exactly at the end of the pass before it. */
  function Rolled(s: State, i: nat): State
    requires i < |s.clips| && ValidClips(s.clips) && s.end.Some?
  {
    s.(start := s.end, end := EndOf(s.end.value, SpanOf(s, i)))
  }

  function Repeat(s: State, i: nat): State
    requires i < |s.clips| && ValidClips(s.clips) && s.end.Some?
  {
    ArmNext(Rolled(s, i))
  }

  /** What poll() does once the active element has reached its end. */
  function Complete(s: State, accepts: bool): State
    requires ValidClips(s.clips)
  {
    if !Finished(s) then s
    else if Next(s).None? then Stop(s)
    else if Next(s) == ActiveIndex(s) then Repeat(s, Next(s).value)
    else if s.armed.None? && s.pending.None? then TakeOrFail(s, Next(s).value, accepts)
    else s
  }

  function Poll(s: State, now: int, events: seq<Event>, accepts: bool): State
    requires ValidClips(s.clips)
  {
    Complete(Drain(s.(now := now), events), accepts)
  }

  // ------------------------------------------------------------------ transport

  function Later(t: Option<int>, shift: int): Option<int> { if t.None? then None else Some(t.value + shift) }

  /** What was missed while paused, where it matters. */
  function Missed(s: State): int {
    if s.end.Some? && s.pausedAt.Some? then s.now - s.pausedAt.value else 0
  }

  function Shifted(s: State): State {
    s.(transport := Playing, start := Later(s.start, Missed(s)), end := Later(s.end, Missed(s)), pausedAt := None)
  }

  function Play(s: State, accepts: bool): State {
    if s.transport == Paused && s.active.Some? then ArmNext(Called(Shifted(s), Resume(s.active.value)))
    else if s.transport == Playing || s.transport == Loading then s
    else
      var target := if ActiveIndex(s).Some? then ActiveIndex(s) else FirstEnabled(s.clips);
      if target.None? then s else TakeOrFail(s, target.value, accepts)
  }

  function PauseNow(s: State): State {
    if s.transport != Playing || s.active.None? then s
    else
      Called(Disarm(s), Pause(s.active.value)).(pausedAt := Some(s.now), transport := Paused)
  }

  function ParkIf(s: State, id: Option<Id>): State {
    if id.None? then s else Called(s, Park(id.value))
  }

  function Stop(s: State): State {
    if s.active.None? && s.pending.None? then s
    else
      var t := Disarm(s);
      var u := ParkIf(ParkIf(t, if t.pending != t.active then t.pending else None), t.active);
      u.(pending := None, pendingRequest := None, transport := Stopped, start := None, end := None, pausedAt := None)
  }

  function ElementPlay(s: State, i: nat, accepts: bool): State
    requires i < |s.clips|
  {
    var t := Select(s, i);
    var mine := t.active == Some(s.clips[i].id);
    if mine && t.transport == Playing then t
    else if mine && t.transport == Paused then Play(t, accepts)
    else TakeOrFail(t, i, accepts)
  }

  function ElementPause(s: State, i: nat): State
    requires i < |s.clips|
  {
    var t := Select(s, i);
    if t.active == Some(s.clips[i].id) then PauseNow(t) else Called(t, Pause(s.clips[i].id))
  }

  function ElementStop(s: State, i: nat): State
    requires i < |s.clips|
  {
    var t := Select(s, i);
    var id := Some(s.clips[i].id);
    if id == t.active || id == t.pending then Stop(t)
    else if id == t.armed then Disarm(t)
    else Called(t, Park(id.value))
  }

  function Navigate(s: State, d: Direction, accepts: bool): State {
    var origin := if ActiveIndex(s).Some? then ActiveIndex(s) else IndexOf(s.clips, s.selected);
    var target := ResolveManual(s.clips, origin, s.mode, d);
    if target.None? || target == origin then s
    else TakeOrFail(Select(s, target.value), target.value, accepts)
  }

  // ------------------------------------------------------------------ editing

  function InsertedAt(clips: seq<Clip>, i: nat, c: Clip): seq<Clip>
    requires i <= |clips|
  {
    clips[..i] + [c] + clips[i..]
  }

  function PoppedAt(clips: seq<Clip>, i: nat): seq<Clip>
    requires i < |clips|
  {
    clips[..i] + clips[i + 1..]
  }

  /** insert_clip(): refused for a known item ID or a full playlist. */
  function Insert(s: State, i: nat, c: Clip): State
    requires i <= |s.clips|
  {
    if IndexOf(s.clips, Some(c.id)).Some? || |s.clips| >= SLOT_CAPACITY then s
    else ArmNext(s.(clips := InsertedAt(s.clips, i, c)))
  }

  /** The element selected instead of one that was removed from place `i`. */
  function Reselected(clips: seq<Clip>, i: nat): Option<Id>
    requires clips != []
  {
    var c := if i <= |clips| - 1 then i else |clips| - 1;
    if !clips[c].disabled then Some(clips[c].id)
    else if FirstEnabled(clips).Some? then Some(clips[FirstEnabled(clips).value].id)
    else None
  }

  /** What is about to leave the playlist goes out of use. */
  function Forgotten(s: State, id: Id): State {
    var t := if Some(id) == s.active || Some(id) == s.pending then Stop(s).(active := None) else s;
    Called(if Some(id) == t.armed then t.(armed := None, armedRequest := None) else t, Remove(id))
  }

  /** remove_clip(), once the list is shorter and what is to be selected is known. */
  function Removed(s: State, id: Id, clips: seq<Clip>, selected: Option<Id>): State {
    ArmNext(Forgotten(s.(clips := clips), id).(selected := selected))
  }

  function RemoveAt(s: State, i: nat): State
    requires i < |s.clips|
  {
    if |s.clips| == 1 then s
    else
      var id := s.clips[i].id;
      var clips := PoppedAt(s.clips, i);
      Removed(s, id, clips, if Some(id) == s.selected then Reselected(clips, i) else s.selected)
  }

  function Reorder(s: State, from: nat, to: nat): State
    requires from < |s.clips| && to < |s.clips|
  {
    ArmNext(s.(clips := InsertedAt(PoppedAt(s.clips, from), to, s.clips[from])))
  }

  function Toggled(clips: seq<Clip>, i: nat, disabled: bool): seq<Clip>
    requires i < |clips|
  {
    clips[i := clips[i].(disabled := disabled)]
  }

  /** The element selected when the one at place `i` is disabled. */
  function SelectedPast(clips: seq<Clip>, i: nat): Option<Id>
    requires i < |clips|
  {
    var next := StepEnabled(clips, i, Forward, true);
    if next.None? then None else Some(clips[next.value].id)
  }

  /** set_disabled() to true, once the element is marked and what is to be selected is known. */
  function Disabled(s: State, id: Id, selected: Option<Id>): State {
    var t :=
      if Some(id) == s.active || Some(id) == s.pending then Stop(s)
      else if Some(id) == s.armed then Disarm(s)
      else s;
    ArmNext(t.(selected := selected))
  }

  function SetDisabled(s: State, i: nat, disabled: bool): State
    requires i < |s.clips|
  {
    var id := s.clips[i].id;
    var t := s.(clips := Toggled(s.clips, i, disabled));
    if !disabled then ArmNext(t)
    else Disabled(t, id, if Some(id) == s.selected then SelectedPast(t.clips, i) else s.selected)
  }

  /** replace_clip(), which update_clip() and set_element_mode() come down to. */
  function Replace(s: State, i: nat, c: Clip, accepts: bool): State
    requires i < |s.clips|
  {
    if c.id != s.clips[i].id then s else Rescheduled(s.(clips := s.clips[i := c]), c.id, accepts)
  }

  /** _reschedule_if_active(). */
  function Rescheduled(s: State, id: Id, accepts: bool): State {
    if s.active == Some(id) && (s.transport == Playing || s.transport == Paused) then
      if ActiveIndex(s).None? then s else TakeOrFail(s, ActiveIndex(s).value, accepts)
    else if s.armed == Some(id) then ArmNext(s)
    else s
  }

  function SetMode(s: State, mode: PlaylistMode): State {
    ArmNext(s.(mode := mode))
  }

  // ------------------------------------------------------------------ what the commands come to

  /** What the controller has the backend prepare or play. */
  function InUse(s: State): (r: set<Id>)
    ensures forall id :: id in r <==> s.active == Some(id) || s.pending == Some(id) || s.armed == Some(id)
  {
    (if s.active.Some? then {s.active.value} else {}) + (if s.pending.Some? then {s.pending.value} else {})
    + if s.armed.Some? then {s.armed.value} else {}
  }

  function OnePark(id: Option<Id>): (r: seq<Call>)
    ensures forall x :: Park(x) in r <==> id == Some(x)
  {
    if id.Some? then [Park(id.value)] else []
  }

  /** What stop() asks for. */
  function StopCalls(s: State): seq<Call> {
    OnePark(s.armed) + OnePark(if s.pending != s.active then s.pending else None) + OnePark(s.active)
  }

  lemma StopCallsParks(s: State)
    ensures forall id :: Park(id) in StopCalls(s) <==> id in InUse(s)
    ensures forall k :: 0 <= k < |StopCalls(s)| ==> StopCalls(s)[k].Park?
  {
  }

  lemma StopCallsAre(s: State)
    requires s.active.Some? || s.pending.Some?
    ensures Stop(s).calls == s.calls + StopCalls(s)
  {
  }

  /** stop() parks what is in use, all of it and nothing else, and asks for nothing more; with nothing in use it does nothing. */
  lemma StopParks(s: State)
    ensures s.active.None? && s.pending.None? ==> Stop(s) == s
    ensures s.active.Some? || s.pending.Some? ==>
      exists parks: seq<Call> ::
        && Stop(s).calls == s.calls + parks && (forall id :: Park(id) in parks <==> id in InUse(s))
        && forall k :: 0 <= k < |parks| ==> parks[k].Park?
  {
    if s.active.Some? || s.pending.Some? {
      StopCallsAre(s);
      StopCallsParks(s);
    }
  }

  /** ... and nothing is left to come, while the element that was on air stays the one to play again. */
  lemma StopForgets(s: State)
    requires s.active.Some? || s.pending.Some?
    ensures var t := Stop(s);
      && t.transport == Stopped && t.pending.None? && t.pendingRequest.None? && t.armed.None? && t.armedRequest.None?
      && t.start.None? && t.end.None? && t.pausedAt.None?
      && t.active == s.active && t.selected == s.selected && t.clips == s.clips
  {
  }

  /** pause() holds the element on air where it is, and parks what was to follow it. */
  lemma PauseHolds(s: State)
    requires s.transport == Playing && s.active.Some?
    ensures var t := PauseNow(s);
      && t.transport == Paused && t.pausedAt == Some(s.now) && t.active == s.active && t.start == s.start && t.end == s.end
      && t.armed.None? && t.armedRequest.None? && t.pending == s.pending
      && t.calls == s.calls + (if s.armed.Some? then [Park(s.armed.value)] else []) + [Pause(s.active.value)]
    ensures s.transport != Playing || s.active.None? ==> PauseNow(s) == s
  {
  }

  /** play() resumes what is paused; from Stopped it takes the element that was on air, or the first enabled one. */
  lemma PlayTakes(s: State)
    ensures s.transport == Playing || s.transport == Loading ==> Play(s, true) == s
    ensures s.transport == Paused && s.active.Some? ==> Resume(s.active.value) in Play(s, true).calls
    ensures s.transport == Stopped ==>
      var first := FirstEnabled(s.clips);
      var target := if ActiveIndex(s).Some? then ActiveIndex(s) else first;
      var t := Play(s, true);
      if target.None? || s.clips[target.value].disabled then t == s
      else t.pending == Some(s.clips[target.value].id) && t.calls != []
           && t.calls[|t.calls| - 1] == Cue(t.requests, s.clips[target.value].id, None)
           && t.transport == if s.active.None? then Loading else Stopped
  {
    if s.transport == Paused && s.active.Some? {
      var t := Called(Shifted(s), Resume(s.active.value));
      assert t.calls[|t.calls| - 1] == Resume(s.active.value);
      ArmingAppends(t);
    }
  }

  lemma ArmingAppends(s: State)
    ensures s.calls <= ArmNext(s).calls
  {
  }

  /** A command for one element selects it, and leaves what is on air alone unless it is that element. */
  lemma ElementCommands(s: State, i: nat)
    requires i < |s.clips|
    ensures var id := s.clips[i].id;
      && ElementPlay(s, i, true).selected == Some(id) && ElementPause(s, i).selected == Some(id)
      && (s.active == Some(id) && s.transport == Playing ==> ElementPlay(s, i, true) == Select(s, i))
      && (s.active == Some(id) && s.transport == Paused ==> ElementPlay(s, i, true) == Play(Select(s, i), true))
      && (!s.clips[i].disabled && (s.active != Some(id) || s.transport == Stopped) ==>
            ElementPlay(s, i, true).pending == Some(id) && ElementPlay(s, i, true).active == s.active)
      && (s.active != Some(id) ==> ElementPause(s, i) == Select(s, i).(calls := s.calls + [Pause(id)]))
      && (s.active == Some(id) && s.transport == Playing ==>
            ElementPause(s, i).transport == Paused && Pause(id) in ElementPause(s, i).calls)
  {
    var id := s.clips[i].id;
    if s.active == Some(id) && s.transport == Playing {
      var t := ElementPause(s, i);
      assert t.calls[|t.calls| - 1] == Pause(id);
    }
  }

  /** Stopping an element stops playback if that is what plays or comes, and otherwise parks the element alone. */
  lemma ElementStopParks(s: State, i: nat)
    requires i < |s.clips|
    ensures var id := Some(s.clips[i].id);
      ElementStop(s, i) ==
        if s.active == id || s.pending == id then Stop(Select(s, i))
        else Select(s, i).(calls := s.calls + [Park(id.value)], armed := if s.armed == id then None else s.armed,
                           armedRequest := if s.armed == id then None else s.armedRequest)
  {
  }

  /** A failed cue is forgotten; playback goes on, and only a first element that fails leaves the transport Stopped. */
  lemma FailureForgets(s: State, request: nat)
    ensures var t := Failed(s, Some(request));
      if s.pendingRequest == Some(request) then
        t == s.(pending := None, pendingRequest := None, transport := if s.active.None? then Stopped else s.transport)
      else if s.armedRequest == Some(request) then t == s.(armed := None, armedRequest := None)
      else t == s
  {
  }

  /** At the end of an element whose successor could not be armed, playback cuts over to it. */
  lemma CutsOver(s: State, j: nat)
    requires ValidClips(s.clips) && Finished(s) && Next(s) == Some(j) && Next(s) != ActiveIndex(s) && !s.clips[j].disabled
    ensures var t := Complete(s, true);
      if s.armed.Some? || s.pending.Some? then t == s
      else t.pending == Some(s.clips[j].id) && t.active == s.active && t.transport == s.transport
  {
  }

  // ------------------------------------------------------------------ what the edits come to

  /** Reordering puts the element where it was told to, and leaves the others in their order. */
  lemma Reorders(s: State, from: nat, to: nat, k: nat)
    requires from < |s.clips| && to < |s.clips| && k < |s.clips|
    ensures var r := Reorder(s, from, to).clips;
      && |r| == |s.clips| && r[to] == s.clips[from]
      && (k != to ==> var j := if k < to then k else k - 1; r[k] == s.clips[if j < from then j else j + 1])
  {
  }

  /** Arming and disarming touch neither the elements nor the selection. */
  lemma ArmingKeeps(s: State)
    ensures ArmNext(s).clips == s.clips && ArmNext(s).selected == s.selected
  {
  }

  /** An element is inserted at its place, unless its ID is known or sixteen are in. */
  lemma Inserts(s: State, i: nat, c: Clip, k: nat)
    requires i <= |s.clips|
    ensures var r := Insert(s, i, c).clips;
      if |s.clips| >= 16 || (exists j :: 0 <= j < |s.clips| && s.clips[j].id == c.id) then Insert(s, i, c) == s
      else |r| == |s.clips| + 1 && r[i] == c && (k < |s.clips| ==> r[if k < i then k else k + 1] == s.clips[k])
  {
    ArmingKeeps(s.(clips := InsertedAt(s.clips, i, c)));
  }

  lemma ForgottenKeeps(s: State, id: Id)
    ensures Forgotten(s, id).clips == s.clips
  {
  }

  lemma RemovedKeeps(s: State, id: Id, clips: seq<Clip>, selected: Option<Id>)
    ensures Removed(s, id, clips, selected).clips == clips && Removed(s, id, clips, selected).selected == selected
  {
    ForgottenKeeps(s.(clips := clips), id);
    ArmingKeeps(Forgotten(s.(clips := clips), id).(selected := selected));
  }

  /** An element is removed, unless it is the last. */
  lemma Removes(s: State, i: nat, k: nat)
    requires i < |s.clips|
    ensures var r := RemoveAt(s, i).clips;
      if |s.clips| == 1 then RemoveAt(s, i) == s
      else |r| == |s.clips| - 1 && (k < |s.clips| && k != i ==> r[if k < i then k else k - 1] == s.clips[k])
  {
    if |s.clips| > 1 {
      var id, clips := s.clips[i].id, PoppedAt(s.clips, i);
      RemovedKeeps(s, id, clips, if Some(id) == s.selected then Reselected(clips, i) else s.selected);
    }
  }

  /** What is selected instead of a removed element: the one that moves up, the last, or the first enabled one. */
  lemma RemovalSelects(s: State, i: nat)
    requires i < |s.clips| && |s.clips| > 1
    ensures var clips := PoppedAt(s.clips, i); var c := if i < |s.clips| - 1 then s.clips[i + 1] else s.clips[i - 1];
      RemoveAt(s, i).selected ==
        if s.selected != Some(s.clips[i].id) then s.selected
        else if !c.disabled then Some(c.id)
        else match FirstEnabled(clips) case None => None case Some(j) => Some(clips[j].id)
  {
    var id, clips := s.clips[i].id, PoppedAt(s.clips, i);
    RemovedKeeps(s, id, clips, if Some(id) == s.selected then Reselected(clips, i) else s.selected);
  }

  /** What is selected instead of an element that is disabled: the next enabled one, around the end if need be. */
  lemma DisablingSelects(s: State, i: nat, j: nat)
    requires i < |s.clips| && j < |s.clips| && j != i && s.selected == Some(s.clips[i].id) && !s.clips[j].disabled
    requires NoneBetween(s.clips, i, j, Forward)
    ensures SetDisabled(s, i, true).selected == Some(s.clips[j].id)
  {
    var clips := Toggled(s.clips, i, true);
    assert forall k :: 0 <= k < |clips| && k != i ==> clips[k] == s.clips[k];
    assert NoneBetween(clips, i, j, Forward);
    StepIsNearest(clips, i, Forward, true, j);
  }

  /** Where next() and prev() start from: what is on air, or else what is selected. */
  function Origin(s: State): (r: Option<nat>)
    ensures r.Some? ==> r.value < |s.clips|
  {
    if ActiveIndex(s).Some? then ActiveIndex(s) else IndexOf(s.clips, s.selected)
  }

  /** next() takes the nearest enabled element after it and prev() the nearest before, around the end in the looping modes. */
  lemma NavigatesToNearest(s: State, d: Direction, i: nat, j: nat)
    requires Origin(s) == Some(i) && j < |s.clips| && j != i && !s.clips[j].disabled
    requires (Loops(s.mode) || Ahead(i, j, d)) && NoneBetween(s.clips, i, j, d)
    ensures var t := Navigate(s, d, true);
      && t.selected == Some(s.clips[j].id) && t.pending == Some(s.clips[j].id)
      && t.calls != [] && t.calls[|t.calls| - 1] == Cue(t.requests, s.clips[j].id, None)
  {
    StepIsNearest(s.clips, i, d, Loops(s.mode), j);
  }

  /** ... and where there is none they do nothing. */
  lemma NavigatesNowhere(s: State, d: Direction, accepts: bool, i: nat)
    requires Origin(s) == Some(i)
    requires forall j :: 0 <= j < |s.clips| && j != i && (Loops(s.mode) || Ahead(i, j, d)) ==> s.clips[j].disabled
    ensures Navigate(s, d, accepts) == s
  {
    var r := StepEnabled(s.clips, i, d, Loops(s.mode));
    if r.Some? && r.value != i {
      StepIsNearest(s.clips, i, d, Loops(s.mode), r.value);
    }
  }

  // ------------------------------------------------------------------ every command, edit and report

  datatype Op =
    | DoSelect(i: nat)
    | DoPlay
    | DoPause
    | DoStop
    | DoElementPlay(i: nat)
    | DoElementPause(i: nat)
    | DoElementStop(i: nat)
    | DoNavigate(d: Direction)
    | DoInsert(i: nat, clip: Clip)
    | DoRemove(i: nat)
    | DoReorder(i: nat, to: nat)
    | DoDisable(i: nat, disabled: bool)
    | DoReplace(i: nat, clip: Clip)
    | DoMode(mode: PlaylistMode)
    | DoTransition                       // set_transition() re-arms
    | DoPoll(now: int, events: seq<Event>)
    | LengthKnown(url: Url, length: int) // the backend finds out

  predicate IndexOk(s: State, op: Op) {
    match op
    case DoSelect(i) => i < |s.clips|
    case DoElementPlay(i) => i < |s.clips|
    case DoElementPause(i) => i < |s.clips|
    case DoElementStop(i) => i < |s.clips|
    case DoInsert(i, _) => i <= |s.clips|
    case DoRemove(i) => i < |s.clips|
    case DoReorder(i, j) => i < |s.clips| && j < |s.clips|
    case DoDisable(i, _) => i < |s.clips|
    case DoReplace(i, _) => i < |s.clips|
    case _ => true
  }

  /** What the callers and the backend owe the controller. */
  ghost predicate Allowed(s: State, op: Op) {
    match op
    case DoInsert(_, c) => ValidClip(c)
    case DoReplace(_, c) => ValidClip(c)
    case DoPoll(_, events) => forall k :: 0 <= k < |events| ==> Honest(s.calls, events[k])
    case _ => true
  }

  /** An index out of range raises and changes nothing. */
  function Apply(s: State, op: Op, accepts: bool): State
    requires ValidClips(s.clips)
  {
    if !IndexOk(s, op) then s
    else
      match op
      case DoSelect(i) => Select(s, i)
      case DoPlay => Play(s, accepts)
      case DoPause => PauseNow(s)
      case DoStop => Stop(s)
      case DoElementPlay(i) => ElementPlay(s, i, accepts)
      case DoElementPause(i) => ElementPause(s, i)
      case DoElementStop(i) => ElementStop(s, i)
      case DoNavigate(d) => Navigate(s, d, accepts)
      case DoInsert(i, c) => Insert(s, i, c)
      case DoRemove(i) => RemoveAt(s, i)
      case DoReorder(i, j) => Reorder(s, i, j)
      case DoDisable(i, disabled) => SetDisabled(s, i, disabled)
      case DoReplace(i, c) => Replace(s, i, c, accepts)
      case DoMode(mode) => SetMode(s, mode)
      case DoTransition => ArmNext(s)
      case DoPoll(now, events) => Poll(s, now, events, accepts)
      case LengthKnown(url, length) => s.(lengths := s.lengths[url := length])
  }
}

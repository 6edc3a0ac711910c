/**
  What the playlist controller promises: over any run, whatever is on air, pending or armed is in the playlist
  and only enabled elements are cued, a stop silences it and a pause keeps the time left. Over any run whose
  edits of a clip keep the exact laws, moreover, live requests name enabled elements and what is armed is what
  plays next.
 */
module PlaylistSafety {
  import opened Options
  import opened PlaylistCommands
  import opened PlaylistLaws
  import opened PlaylistPolicy

  // ------------------------------------------------------------------ what live requests name

  /** Whatever a run did, every request an event may still answer names an element of the playlist. */
  lemma LiveRequestsInPlaylist(s: State)
    requires Reachable(s, false)
    ensures s.pendingRequest.Some? ==> s.pending.Some? && Has(s.clips, s.pending.value)
                                       && Cue(s.pendingRequest.value, s.pending.value, None) in s.calls
    ensures s.armedRequest.Some? ==> s.armed.Some? && Has(s.clips, s.armed.value) && s.armed != s.active
                                     && s.end.Some? && Cue(s.armedRequest.value, s.armed.value, s.end) in s.calls
    ensures OnScreen(s.transport) ==> s.active.Some? && Has(s.clips, s.active.value)
  {
    ReachableInv(s, false);
  }

  lemma SucceedsEnabled(clips: seq<Clip>, mode: PlaylistMode, active: Option<Id>, armed: Id)
    requires Succeeds(clips, mode, active, armed)
    ensures HasEnabled(clips, armed)
  {
    EnabledAt(clips, ResolveAutomatic(clips, IndexOf(clips, active), mode).value);
  }

  /** ... and an enabled one, where the edits of clips kept the exact laws. */
  lemma LiveRequestsNameElements(s: State)
    requires Reachable(s, true)
    ensures s.pending.Some? ==> HasEnabled(s.clips, s.pending.value)
    ensures s.armed.Some? ==> HasEnabled(s.clips, s.armed.value) && s.armed != s.active
    ensures OnScreen(s.transport) ==> s.active.Some? && HasEnabled(s.clips, s.active.value)
  {
    ReachableInv(s, true);
    if s.armed.Some? {
      SucceedsEnabled(s.clips, s.mode, s.active, s.armed.value);
    }
  }

  /** What is armed is exactly where playback goes at the end, and was cued for that very moment. */
  lemma ArmedIsTheSuccessor(s: State)
    requires Reachable(s, true) && s.armed.Some?
    ensures var i := ActiveIndex(s);
      && i.Some? && s.end.Some? && OnScreen(s.transport)
      && var j := ResolveAutomatic(s.clips, i, s.mode);
      && j.Some? && j != i && s.clips[j.value].id == s.armed.value
      && s.armedRequest.Some? && Cue(s.armedRequest.value, s.armed.value, s.end) in s.calls
  {
    ReachableInv(s, true);
  }

  lemma WentOnAirActive(s: State, i: nat, at: int)
    requires i < |s.clips| && ValidClips(s.clips)
    ensures var t := WentOnAir(s, i, at); t.active == Some(s.clips[i].id) && t.transport == Playing && t.start == Some(at)
  {
  }

  /** An answer is taken only for the element its cue named. */
  lemma AnswersNameTheirElement(s: State, e: Event, exact: bool)
    requires Reachable(s, exact) && ValidClips(s.clips) && Honest(s.calls, e) && e.CameOnAir?
    ensures Live(s, e.request) ==> Handle(s, e).active == Some(e.item) && Names(s.clips, e.item, exact)
    ensures !Live(s, e.request) ==> Handle(s, e) == s
  {
    ReachableInv(s, exact);
    if Live(s, e.request) {
      HonestNamesElement(s, e, exact);
      var i := IndexOf(s.clips, Some(e.item)).value;
      EnabledAt(s.clips, i);
      WentOnAirActive(s, i, if e.at.None? then s.now else e.at.value);
    }
  }

  // ------------------------------------------------------------------ an edit that breaks the exact laws

  predicate Startable(clips: seq<Clip>) {
    && clips != [] && GoodClips(clips) && !clips[0].disabled
    && clips[0].mode == Timed && clips[0].duration.Some?
  }

  /** The first element on air from 0 on, before anything is armed. */
  function FirstOnAir(clips: seq<Clip>, mode: PlaylistMode): State
    requires Startable(clips)
  {
    State(clips, mode, map[], Playing, Some(clips[0].id), Some(clips[0].id), None, None, 1, None, None,
          Some(0), clips[0].duration, None, 0, [Cue(1, clips[0].id, None)])
  }

  function FirstLoading(clips: seq<Clip>, mode: PlaylistMode): State
    requires Startable(clips)
  {
    State(clips, mode, map[], Loading, Some(clips[0].id), None, Some(clips[0].id), None, 1, Some(1), None,
          None, None, None, 0, [Cue(1, clips[0].id, None)])
  }

  lemma OneStep(s: State, op: Op, accepts: bool, exact: bool)
    requires Reachable(s, exact) && ValidClips(s.clips) && Allowed(s, op) && (exact ==> KeepsLaws(s, op))
    ensures Reachable(Apply(s, op, accepts), exact)
  {
    assert StepTo(s, Apply(s, op, accepts), exact);
  }

  lemma FirstLoads(clips: seq<Clip>, mode: PlaylistMode, exact: bool)
    requires Startable(clips)
    ensures Reachable(FirstLoading(clips, mode), exact)
  {
    var s := Initial(clips, mode, map[]).value;
    assert Initial(clips, mode, map[]) == Some(s);
    assert Reachable(s, exact);
    OneStep(s, DoPlay, true, exact);
    assert Apply(s, DoPlay, true) == FirstLoading(clips, mode);
  }

  /** Playing a new playlist and one answer of the backend lead there. */
  lemma FirstGoesOnAir(clips: seq<Clip>, mode: PlaylistMode, exact: bool)
    requires Startable(clips)
    ensures Reachable(ArmNext(FirstOnAir(clips, mode)), exact)
  {
    FirstLoads(clips, mode, exact);
    var t := FirstLoading(clips, mode);
    var e := CameOnAir(clips[0].id, Some(1), Some(0));
    var op := DoPoll(0, [e]);
    assert t.calls[0] == Cue(1, clips[0].id, None);
    assert Honest(t.calls, e);
    OneStep(t, op, true, exact);
    IndexOfUnique(clips, 0);
    assert WentOnAir(t, 0, 0) == ArmNext(FirstOnAir(clips, mode));
    assert Drain(t, [e]) == Drain(Handle(t, e), []);
    assert t.(now := 0) == t;
    assert Apply(t, op, true) == ArmNext(FirstOnAir(clips, mode));
  }

  /** What plays after the first element is the next enabled one. */
  lemma FirstNext(clips: seq<Clip>, j: nat)
    requires Startable(clips) && 0 < j < |clips| && !clips[j].disabled
    requires forall k :: 0 < k < j ==> clips[k].disabled
    ensures ResolveAutomatic(clips, IndexOf(clips, Some(clips[0].id)), PlayAll) == Some(j)
    ensures IndexOf(clips, Some(clips[j].id)) == Some(j) && IndexOf(clips, Some(clips[0].id)) == Some(0)
  {
    IndexOfUnique(clips, 0);
    IndexOfUnique(clips, j);
    StepIsNearest(clips, 0, Forward, false, j);
  }

  predicate MiddleDisabled(clips: seq<Clip>) {
    Startable(clips) && |clips| == 3 && clips[1].disabled && !clips[2].disabled
  }

  /** Three elements of which the second is disabled: with the first on air the third is armed. */
  lemma ThirdArmed(clips: seq<Clip>)
    requires MiddleDisabled(clips)
    ensures var s := ArmNext(FirstOnAir(clips, PlayAll));
      && s.armed == Some(clips[2].id) && s.active == Some(clips[0].id) && s.clips == clips && s.mode == PlayAll
      && s.transport == Playing && StandsBetween(s, 1)
  {
    FirstNext(clips, 2);
    assert Target(FirstOnAir(clips, PlayAll)) == Some(2);
  }

  /** ... and enabling the second by an edit leaves it so, though the second is to play next now. */
  lemma EnablingByEditSkips(clips: seq<Clip>, enabled: Clip, s: State, accepts: bool)
    requires MiddleDisabled(clips) && s == ArmNext(FirstOnAir(clips, PlayAll))
    requires enabled == clips[1].(disabled := false)
    ensures var t := Replace(s, 1, enabled, accepts);
      && Reachable(s, true) && Inv(s, true) && s.armed == Some(clips[2].id)
      && Next(t) == Some(1) && t.armed == s.armed && t.transport == Playing && !Inv(t, true)
  {
    FirstGoesOnAir(clips, PlayAll, true);
    ReachableInv(s, true);
    ThirdArmed(clips);
    ReplaceExact(s, 1, enabled, accepts);
    FirstNext(clips[1 := enabled], 1);
    assert clips[1].id != clips[2].id && clips[0].id != clips[1].id;
  }

  /**
    Replacing the pending element by a disabled clip leaves its request live: the answer to it still puts the
    element on air.
   */
  lemma ReplacingThePending(s: State, i: nat, c: Clip, accepts: bool)
    requires Inv(s, false) && i < |s.clips| && ValidClip(c) && c.id == s.clips[i].id && s.pending == Some(c.id)
    requires s.active != s.pending && s.armed != s.pending
    ensures var t := Replace(s, i, c, accepts); var e := CameOnAir(c.id, s.pendingRequest, None);
      && t.pending == s.pending && (HasEnabled(t.clips, c.id) <==> !c.disabled)
      && ValidClips(t.clips) && Honest(t.calls, e) && Handle(t, e).active == s.pending && Handle(t, e).transport == Playing
  {
    var t := Replace(s, i, c, accepts);
    var call := Cue(s.pendingRequest.value, c.id, None);
    assert call in s.calls;
    ReplacedHas(s.clips, i, c);
    OnlyAt(t.clips, i);
    IndexOfUnique(t.clips, i);
    WentOnAirActive(t, i, t.now);
  }

  function TimedClip(id: Id, disabled: bool): (c: Clip)
    ensures ValidClip(c)
  {
    Clip(id, id, Timed, 0, None, Some(1000), disabled, 1.0)
  }

  /** Such playlists exist. */
  lemma ThreeClips(clips: seq<Clip>)
    requires clips == [TimedClip(1, false), TimedClip(2, true), TimedClip(3, false)]
    ensures MiddleDisabled(clips)
  {
  }

  // ------------------------------------------------------------------ only enabled elements are cued

  lemma PlayAsks(s: State, accepts: bool)
    ensures Asks(s.clips, s.calls, Play(s, accepts).calls) && Play(s, accepts).clips == s.clips
  {
    if s.transport == Paused && s.active.Some? {
      ArmNextAsks(Called(Shifted(s), Resume(s.active.value)));
    } else if s.transport == Stopped || s.transport == Paused {
      var target := if ActiveIndex(s).Some? then ActiveIndex(s) else FirstEnabled(s.clips);
      if target.Some? {
        TakeAsks(s, target.value, accepts);
      }
    }
  }

  lemma ElementAsks(s: State, i: nat, accepts: bool)
    requires i < |s.clips|
    ensures Asks(s.clips, s.calls, ElementPlay(s, i, accepts).calls) && ElementPlay(s, i, accepts).clips == s.clips
    ensures Asks(s.clips, s.calls, ElementPause(s, i).calls) && ElementPause(s, i).clips == s.clips
    ensures Asks(s.clips, s.calls, ElementStop(s, i).calls) && ElementStop(s, i).clips == s.clips
  {
    PlayAsks(Select(s, i), accepts);
    TakeAsks(Select(s, i), i, accepts);
    StopAsks(Select(s, i));
  }

  lemma ForgottenAsks(s: State, id: Id)
    ensures Asks(s.clips, s.calls, Forgotten(s, id).calls) && Forgotten(s, id).clips == s.clips
  {
    StopAsks(s);
    var calls := if Some(id) == s.active || Some(id) == s.pending then Stop(s).calls else s.calls;
    assert Forgotten(s, id).calls == calls + [Remove(id)];
  }

  lemma RemovedAsks(s: State, id: Id, clips: seq<Clip>, selected: Option<Id>)
    ensures var t := Removed(s, id, clips, selected); Asks(clips, s.calls, t.calls) && t.clips == clips
  {
    var t := s.(clips := clips);
    ForgottenAsks(t, id);
    ArmNextAsks(Forgotten(t, id).(selected := selected));
    AsksOn(clips, s.calls, Forgotten(t, id).calls, Removed(s, id, clips, selected).calls);
  }

  lemma DisabledAsks(s: State, id: Id, selected: Option<Id>)
    ensures var t := Disabled(s, id, selected); Asks(s.clips, s.calls, t.calls) && t.clips == s.clips
  {
    StopAsks(s);
    var t :=
      if Some(id) == s.active || Some(id) == s.pending then Stop(s)
      else if Some(id) == s.armed then Disarm(s)
      else s;
    assert Asks(s.clips, s.calls, t.calls);
    ArmNextAsks(t.(selected := selected));
  }

  lemma RescheduledAsks(s: State, id: Id, accepts: bool)
    ensures var t := Rescheduled(s, id, accepts); Asks(s.clips, s.calls, t.calls) && t.clips == s.clips
  {
    ArmNextAsks(s);
    if ActiveIndex(s).Some? {
      TakeAsks(s, ActiveIndex(s).value, accepts);
    }
  }

  lemma PollAsks(s: State, now: int, events: seq<Event>, accepts: bool)
    requires ValidClips(s.clips)
    ensures var t := Poll(s, now, events, accepts); Asks(s.clips, s.calls, t.calls) && t.clips == s.clips
  {
    DrainAsks(s.(now := now), events);
    CompleteAsks(Drain(s.(now := now), events), accepts);
  }

  lemma NavigateAsks(s: State, d: Direction, accepts: bool)
    ensures var t := Navigate(s, d, accepts); Asks(s.clips, s.calls, t.calls) && t.clips == s.clips
  {
    var origin := if ActiveIndex(s).Some? then ActiveIndex(s) else IndexOf(s.clips, s.selected);
    var target := ResolveManual(s.clips, origin, s.mode, d);
    if target.Some? {
      TakeAsks(Select(s, target.value), target.value, accepts);
    }
  }

  lemma RemoveAsks(s: State, i: nat)
    requires i < |s.clips|
    ensures var t := RemoveAt(s, i); Asks(t.clips, s.calls, t.calls)
  {
    var clips, id := PoppedAt(s.clips, i), s.clips[i].id;
    if clips != [] {
      RemovedAsks(s, id, clips, if Some(id) == s.selected then Reselected(clips, i) else s.selected);
    }
  }

  lemma SwitchAsks(s: State, i: nat, disabled: bool)
    requires i < |s.clips|
    ensures var t := SetDisabled(s, i, disabled); Asks(t.clips, s.calls, t.calls)
  {
    var t, id := s.(clips := Toggled(s.clips, i, disabled)), s.clips[i].id;
    ArmNextAsks(t);
    DisabledAsks(t, id, if Some(id) == s.selected then SelectedPast(t.clips, i) else s.selected);
  }

  /** Whatever happens, only elements that are in the playlist and enabled are ever cued. */
  lemma OnlyEnabledAreCued(s: State, op: Op, accepts: bool)
    requires ValidClips(s.clips)
    ensures var t := Apply(s, op, accepts); Asks(t.clips, s.calls, t.calls)
  {
    if IndexOk(s, op) {
      match op
      case DoPlay => PlayAsks(s, accepts);
      case DoStop => StopAsks(s);
      case DoElementPlay(i) => ElementAsks(s, i, accepts);
      case DoElementPause(i) => ElementAsks(s, i, accepts);
      case DoElementStop(i) => ElementAsks(s, i, accepts);
      case DoNavigate(d) => NavigateAsks(s, d, accepts);
      case DoInsert(i, c) => ArmNextAsks(s.(clips := InsertedAt(s.clips, i, c)));
      case DoRemove(i) => RemoveAsks(s, i);
      case DoReorder(i, j) => ArmNextAsks(s.(clips := InsertedAt(PoppedAt(s.clips, i), j, s.clips[i])));
      case DoDisable(i, disabled) => SwitchAsks(s, i, disabled);
      case DoReplace(i, c) => RescheduledAsks(s.(clips := s.clips[i := c]), c.id, accepts);
      case DoMode(mode) => ArmNextAsks(s.(mode := mode));
      case DoTransition => ArmNextAsks(s);
      case DoPoll(now, events) => PollAsks(s, now, events, accepts);
      case _ =>
    }
  }

  // ------------------------------------------------------------------ silence after a stop

  /** Stopped, with no request an event could answer. */
  predicate Silent(s: State) {
    && s.transport == Stopped && s.end.None?
    && s.pendingRequest.None? && s.armedRequest.None? && s.armed.None? && s.pending.None?
  }

  predicate NoCue(before: seq<Call>, after: seq<Call>) {
    forall k :: |before| <= k < |after| ==> !after[k].Cue?
  }

  lemma StopIsSilent(s: State)
    requires Reachable(s, false)
    ensures s.active.Some? || s.pending.Some? ==> Silent(Stop(s))
    ensures s.active.None? && s.pending.None? ==> Silent(s) && Stop(s) == s
  {
    ReachableInv(s, false);
    if s.active.Some? || s.pending.Some? {
      Stops(s);
    }
  }

  lemma {:induction false} SilentDrain(s: State, events: seq<Event>)
    requires Silent(s) && ValidClips(s.clips)
    ensures Drain(s, events) == s
    decreases |events|
  {
    if events != [] {
      assert Handle(s, events[0]) == s;
      SilentDrain(s, events[1..]);
    }
  }

  /** Taking an element always cues it, unless it is disabled. */
  lemma SilentTake(s: State, i: nat, accepts: bool)
    requires Silent(s) && i < |s.clips|
    ensures NoCue(s.calls, TakeOrFail(s, i, accepts).calls) ==> TakeOrFail(s, i, accepts) == s
  {
    if !s.clips[i].disabled {
      assert TakeOrFail(s, i, accepts).calls[|s.calls|].Cue?;
    }
  }

  predicate StillSilent(s: State, t: State) {
    Silent(t) && (t.active == s.active || t.active.None?)
  }

  lemma SilentArm(s: State)
    requires Silent(s)
    ensures ArmNext(s) == s
  {
  }

  lemma SilentStop(s: State)
    requires Silent(s)
    ensures StillSilent(s, Stop(s)) && StillSilent(s, Stop(s).(active := None))
  {
  }

  lemma SilentNavigate(s: State, d: Direction, accepts: bool)
    requires Silent(s)
    ensures NoCue(s.calls, Navigate(s, d, accepts).calls) ==> StillSilent(s, Navigate(s, d, accepts))
  {
    var origin := if ActiveIndex(s).Some? then ActiveIndex(s) else IndexOf(s.clips, s.selected);
    var target := ResolveManual(s.clips, origin, s.mode, d);
    if target.Some? && target != origin {
      SilentTake(Select(s, target.value), target.value, accepts);
    }
  }

  lemma SilentPlay(s: State, accepts: bool)
    requires Silent(s)
    ensures NoCue(s.calls, Play(s, accepts).calls) ==> StillSilent(s, Play(s, accepts))
  {
    var target := if ActiveIndex(s).Some? then ActiveIndex(s) else FirstEnabled(s.clips);
    if target.Some? {
      SilentTake(s, target.value, accepts);
    }
  }

  lemma SilentElement(s: State, i: nat, accepts: bool)
    requires Silent(s) && i < |s.clips|
    ensures NoCue(s.calls, ElementPlay(s, i, accepts).calls) ==> StillSilent(s, ElementPlay(s, i, accepts))
    ensures StillSilent(s, ElementPause(s, i)) && StillSilent(s, ElementStop(s, i))
  {
    SilentTake(Select(s, i), i, accepts);
    SilentStop(Select(s, i));
  }

  lemma SilentReplace(s: State, i: nat, c: Clip, accepts: bool)
    requires Silent(s) && i < |s.clips|
    ensures StillSilent(s, Replace(s, i, c, accepts))
  {
  }

  lemma SilentPoll(s: State, now: int, events: seq<Event>, accepts: bool)
    requires Silent(s) && ValidClips(s.clips)
    ensures StillSilent(s, Poll(s, now, events, accepts))
  {
    SilentDrain(s.(now := now), events);
  }

  lemma SilentStep(s: State, op: Op, accepts: bool)
    requires Silent(s) && ValidClips(s.clips) && NoCue(s.calls, Apply(s, op, accepts).calls)
    ensures StillSilent(s, Apply(s, op, accepts))
  {
    if IndexOk(s, op) {
      match op
      case DoPlay => SilentPlay(s, accepts);
      case DoStop => SilentStop(s);
      case DoElementPlay(i) => SilentElement(s, i, accepts);
      case DoElementPause(i) => SilentElement(s, i, accepts);
      case DoElementStop(i) => SilentElement(s, i, accepts);
      case DoNavigate(d) => SilentNavigate(s, d, accepts);
      case DoInsert(i, c) => SilentArm(s.(clips := InsertedAt(s.clips, i, c)));
      case DoRemove(i) => SilentRemove(s, i);
      case DoReorder(i, j) => SilentArm(s.(clips := InsertedAt(PoppedAt(s.clips, i), j, s.clips[i])));
      case DoDisable(i, disabled) => SilentDisable(s, i, disabled);
      case DoReplace(i, c) => SilentReplace(s, i, c, accepts);
      case DoMode(mode) => SilentArm(s.(mode := mode));
      case DoPoll(now, events) => SilentPoll(s, now, events, accepts);
      case _ =>
    }
  }

  lemma SilentRemove(s: State, i: nat)
    requires Silent(s) && i < |s.clips|
    ensures StillSilent(s, RemoveAt(s, i))
  {
    if |s.clips| > 1 {
      var id, t := s.clips[i].id, s.(clips := PoppedAt(s.clips, i));
      SilentStop(t);
      var u := if Some(id) == s.active || Some(id) == s.pending then Stop(t).(active := None) else t;
      assert Silent(u);
      var selected := if Some(id) == s.selected then Reselected(t.clips, i) else s.selected;
      SilentArm(Called(u, Remove(id)).(selected := selected));
    }
  }

  lemma SilentDisable(s: State, i: nat, disabled: bool)
    requires Silent(s) && i < |s.clips|
    ensures StillSilent(s, SetDisabled(s, i, disabled))
  {
    var id, t := s.clips[i].id, s.(clips := Toggled(s.clips, i, disabled));
    SilentArm(t);
    SilentStop(t);
    var selected := if Some(id) == s.selected then SelectedPast(t.clips, i) else s.selected;
    SilentArm(Stop(t).(selected := selected));
    SilentArm(t.(selected := selected));
  }

  /** A piece of a run. */
  ghost predicate Trace(run: seq<State>) {
    run != [] && forall k :: 0 <= k < |run| - 1 ==> StepTo(run[k], run[k + 1], false)
  }

  lemma SilentNext(first: State, s: State, t: State)
    requires StillSilent(first, s) && StepTo(s, t, false) && NoCue(s.calls, t.calls)
    ensures StillSilent(first, t)
  {
    var op, accepts :| ValidClips(s.clips) && Allowed(s, op) && t == Apply(s, op, accepts);
    SilentStep(s, op, accepts);
  }

  lemma {:induction false} SilentAt(run: seq<State>, k: nat)
    requires Trace(run) && Silent(run[0]) && k < |run|
    requires forall j :: 0 <= j < |run| - 1 ==> NoCue(run[j].calls, run[j + 1].calls)
    ensures StillSilent(run[0], run[k])
  {
    if k > 0 {
      SilentAt(run, k - 1);
      assert NoCue(run[k - 1].calls, run[k - 1 + 1].calls) && StepTo(run[k - 1], run[k - 1 + 1], false);
      SilentNext(run[0], run[k - 1], run[k]);
    }
  }

  /**
    After a stop nothing goes on air until the next cue, whatever the users do and whatever late
    answers the backend still gives.
   */
  lemma SilentUntilCued(run: seq<State>)
    requires Trace(run) && Silent(run[0])
    requires forall k :: 0 <= k < |run| - 1 ==> NoCue(run[k].calls, run[k + 1].calls)
    ensures forall k :: 0 <= k < |run| ==> StillSilent(run[0], run[k])
  {
    forall k | 0 <= k < |run|
      ensures StillSilent(run[0], run[k])
    {
      SilentAt(run, k);
    }
  }

  // ------------------------------------------------------------------ pause and resume

  /** Resuming shifts a known end by exactly the time spent paused, so as much remains as at the pause. */
  lemma PauseShiftsTheEnd(s: State, later: int, accepts: bool)
    requires Reachable(s, false) && s.transport == Playing && s.end.Some?
    ensures var t := Play(PauseNow(s).(now := later), accepts);
      && t.transport == Playing && t.active == s.active && t.pending == s.pending
      && t.end.Some? && t.start.Some? && s.start.Some?
      && t.end.value - later == s.end.value - s.now && t.end.value - t.start.value == s.end.value - s.start.value
      && t.armed == (if Target(s).None? then None else Some(s.clips[Target(s).value].id))
      && (t.armed.Some? ==> t.armedRequest.Some? && Cue(t.armedRequest.value, t.armed.value, t.end) in t.calls)
  {
    ReachableInv(s, false);
    var p := PauseNow(s).(now := later);
    var u := Called(Shifted(p), Resume(p.active.value));
    assert Play(p, accepts) == ArmNext(u);
    assert Target(u) == Target(s);
    ArmNextArms(u);
  }
}

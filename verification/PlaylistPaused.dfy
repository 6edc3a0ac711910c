/**
  A paused playlist. set_transition() and most edits re-arm whatever the transport, so that an edit during a
  pause may schedule the next element at an end that is no longer meant; an edit of the element on air cues that
  again at once. The answer to either ends the pause. Exactly which edits do, and that nothing else does.
 */
module PlaylistPaused {
  import opened Options
  import opened PlaylistCommands
  import opened PlaylistLaws
  import opened PlaylistPolicy
  import opened PlaylistSafety

  // ------------------------------------------------------------------ what the backend may still answer

  /** The backend may report, for a cue it was given, something that puts an element on air. */
  ghost predicate Answerable(s: State)
    requires ValidClips(s.clips)
  {
    exists e :: Honest(s.calls, e) && Handle(s, e).transport == Playing
  }

  lemma LiveIsAnswerable(s: State, id: Id, request: nat, at: Option<int>)
    requires ValidClips(s.clips) && Has(s.clips, id) && Unique(s.clips) && Cue(request, id, at) in s.calls
    requires Live(s, Some(request))
    ensures Answerable(s)
  {
    var e := CameOnAir(id, Some(request), at);
    EnabledHasIndex(s.clips, id);
    WentOnAirActive(s, IndexOf(s.clips, Some(id)).value, if at.None? then s.now else at.value);
    assert Honest(s.calls, e) && Handle(s, e).transport == Playing;
  }

  /** While paused, that is so exactly as long as a request is live. */
  lemma AnswerableWhenLive(s: State)
    requires Inv(s, false) && s.transport == Paused
    ensures Answerable(s) <==> s.pending.Some? || s.armed.Some?
  {
    if s.pending.Some? {
      LiveIsAnswerable(s, s.pending.value, s.pendingRequest.value, None);
    } else if s.armed.Some? {
      LiveIsAnswerable(s, s.armed.value, s.armedRequest.value, s.end);
    }
  }

  // ------------------------------------------------------------------ which edits arm

  /** Something would be armed after an edit to `clips` and `mode`: the end is known and another element follows. */
  predicate Follows(s: State, clips: seq<Clip>, mode: PlaylistMode) {
    var i := IndexOf(clips, s.active);
    s.end.Some? && i.Some? && ResolveAutomatic(clips, i, mode).Some? && ResolveAutomatic(clips, i, mode) != i
  }

  /** An edit that is not refused, re-arms, and finds something to arm. */
  predicate Rearms(s: State, op: Op) {
    IndexOk(s, op)
    && match op
       case DoInsert(i, c) =>
         && IndexOf(s.clips, Some(c.id)).None? && |s.clips| < SLOT_CAPACITY
         && Follows(s, InsertedAt(s.clips, i, c), s.mode)
       case DoRemove(i) => |s.clips| > 1 && Follows(s, PoppedAt(s.clips, i), s.mode)
       case DoReorder(i, j) => Follows(s, InsertedAt(PoppedAt(s.clips, i), j, s.clips[i]), s.mode)
       case DoDisable(i, disabled) => Follows(s, Toggled(s.clips, i, disabled), s.mode)
       case DoReplace(i, c) =>
         && c.id == s.clips[i].id && s.armed == Some(c.id) && !(s.active == Some(c.id) && OnScreen(s.transport))
         && Follows(s, s.clips[i := c], s.mode)
       case DoMode(mode) => Follows(s, s.clips, mode)
       case DoTransition => Follows(s, s.clips, s.mode)
       case _ => false
  }

  /** An edit of the element on air that is not refused, leaves it enabled, and that the backend takes. */
  predicate Retakes(s: State, op: Op, accepts: bool) {
    && op.DoReplace? && op.i < |s.clips| && op.clip.id == s.clips[op.i].id
    && s.active == Some(op.clip.id) && OnScreen(s.transport) && !op.clip.disabled && accepts
  }

  /** Cues, resumes or stops: play, stop, an element's play, navigation, and withdrawing what is on air or pending. */
  predicate Commands(s: State, op: Op) {
    match op
    case DoPlay => true
    case DoStop => true
    case DoElementPlay(_) => true
    case DoNavigate(_) => true
    case DoElementStop(i) => i < |s.clips| && Used(s, s.clips[i].id)
    case DoRemove(i) => i < |s.clips| && Used(s, s.clips[i].id)
    case DoDisable(i, disabled) => i < |s.clips| && disabled && Used(s, s.clips[i].id)
    case _ => false
  }

  predicate Used(s: State, id: Id) {
    s.active == Some(id) || s.pending == Some(id)
  }

  lemma ArmsWhatFollows(s: State)
    requires Follows(s, s.clips, s.mode)
    ensures ArmNext(s).armed.Some?
  {
    ArmNextArms(s);
  }

  lemma RemovingArms(s: State, i: nat)
    requires Rearms(s, DoRemove(i)) && !Used(s, s.clips[i].id)
    ensures RemoveAt(s, i).armed.Some?
  {
    var id, t := s.clips[i].id, s.(clips := PoppedAt(s.clips, i));
    var selected := if Some(id) == s.selected then Reselected(t.clips, i) else s.selected;
    ArmsWhatFollows(Forgotten(t, id).(selected := selected));
  }

  lemma DisablingArms(s: State, i: nat, disabled: bool)
    requires Rearms(s, DoDisable(i, disabled)) && !(disabled && Used(s, s.clips[i].id))
    ensures SetDisabled(s, i, disabled).armed.Some?
  {
    var id, t := s.clips[i].id, s.(clips := Toggled(s.clips, i, disabled));
    var selected := if Some(id) == s.selected then SelectedPast(t.clips, i) else s.selected;
    if disabled {
      ArmsWhatFollows((if Some(id) == t.armed then Disarm(t) else t).(selected := selected));
    } else {
      ArmsWhatFollows(t);
    }
  }

  lemma RearmingArms(s: State, op: Op, accepts: bool)
    requires ValidClips(s.clips) && Rearms(s, op) && !Commands(s, op)
    ensures Apply(s, op, accepts).armed.Some?
  {
    match op
    case DoInsert(i, c) => ArmsWhatFollows(s.(clips := InsertedAt(s.clips, i, c)));
    case DoRemove(i) => RemovingArms(s, i);
    case DoReorder(i, j) => ArmsWhatFollows(s.(clips := InsertedAt(PoppedAt(s.clips, i), j, s.clips[i])));
    case DoDisable(i, disabled) => DisablingArms(s, i, disabled);
    case DoReplace(i, c) => ArmsWhatFollows(s.(clips := s.clips[i := c]));
    case DoMode(mode) => ArmsWhatFollows(s.(mode := mode));
    case DoTransition => ArmsWhatFollows(s);
  }

  // ------------------------------------------------------------------ what does not

  /** Paused, with no request an event could answer. */
  predicate Quiet(s: State) {
    s.transport == Paused && s.pending.None? && s.pendingRequest.None? && s.armed.None? && s.armedRequest.None?
  }

  lemma QuietArm(s: State)
    requires Quiet(s) && !Follows(s, s.clips, s.mode)
    ensures Quiet(ArmNext(s))
  {
    ArmNextArms(s);
  }

  lemma {:induction false} QuietDrain(s: State, events: seq<Event>)
    requires Quiet(s) && ValidClips(s.clips)
    ensures Drain(s, events) == s
    decreases |events|
  {
    if events != [] {
      assert Handle(s, events[0]) == s;
      QuietDrain(s, events[1..]);
    }
  }

  lemma QuietRemove(s: State, i: nat)
    requires Quiet(s) && i < |s.clips| && !Rearms(s, DoRemove(i)) && !Used(s, s.clips[i].id)
    ensures Quiet(RemoveAt(s, i))
  {
    if |s.clips| > 1 {
      var id, t := s.clips[i].id, s.(clips := PoppedAt(s.clips, i));
      var selected := if Some(id) == s.selected then Reselected(t.clips, i) else s.selected;
      QuietArm(Forgotten(t, id).(selected := selected));
    }
  }

  lemma QuietDisable(s: State, i: nat, disabled: bool)
    requires Quiet(s) && i < |s.clips| && !Rearms(s, DoDisable(i, disabled)) && !(disabled && Used(s, s.clips[i].id))
    ensures Quiet(SetDisabled(s, i, disabled))
  {
    var id, t := s.clips[i].id, s.(clips := Toggled(s.clips, i, disabled));
    QuietArm(t);
    QuietArm(t.(selected := if Some(id) == s.selected then SelectedPast(t.clips, i) else s.selected));
  }

  /** An edit of the element on air that is refused, disables it, or fails in the backend, leaves no request. */
  lemma QuietReplace(s: State, i: nat, c: Clip, accepts: bool)
    requires Quiet(s) && GoodClips(s.clips) && i < |s.clips| && !Retakes(s, DoReplace(i, c), accepts)
    ensures Quiet(Replace(s, i, c, accepts))
  {
    if c.id == s.clips[i].id && s.active == Some(c.id) {
      OnlyOne(s.clips, i, c);
    }
  }

  lemma OnlyOne(clips: seq<Clip>, i: nat, c: Clip)
    requires Unique(clips) && i < |clips| && c.id == clips[i].id
    ensures IndexOf(clips[i := c], Some(c.id)) == Some(i)
  {
    IndexOfUnique(clips[i := c], i);
  }

  lemma QuietStep(s: State, op: Op, accepts: bool)
    requires Quiet(s) && GoodClips(s.clips) && !Commands(s, op) && !Rearms(s, op) && !Retakes(s, op, accepts)
    ensures Quiet(Apply(s, op, accepts))
  {
    if IndexOk(s, op) {
      match op
      case DoInsert(i, c) =>
        if IndexOf(s.clips, Some(c.id)).None? && |s.clips| < SLOT_CAPACITY {
          QuietArm(s.(clips := InsertedAt(s.clips, i, c)));
        }
      case DoRemove(i) => QuietRemove(s, i);
      case DoReorder(i, j) => QuietArm(s.(clips := InsertedAt(PoppedAt(s.clips, i), j, s.clips[i])));
      case DoDisable(i, disabled) => QuietDisable(s, i, disabled);
      case DoReplace(i, c) => QuietReplace(s, i, c, accepts);
      case DoMode(mode) => QuietArm(s.(mode := mode));
      case DoTransition => QuietArm(s);
      case DoPoll(now, events) => QuietDrain(s.(now := now), events);
      case _ =>
    }
  }

  /** An accepted edit of the element on air leaves it pending. */
  lemma RetakingCues(s: State, i: nat, c: Clip)
    requires GoodClips(s.clips) && Retakes(s, DoReplace(i, c), true)
    ensures var t := Replace(s, i, c, true);
      t.pending == s.active && t.pendingRequest.Some? && Cue(t.pendingRequest.value, c.id, None) in t.calls
      && t.transport == s.transport && t.clips == s.clips[i := c]
  {
    OnlyOne(s.clips, i, c);
    var u := Disarm(s.(clips := s.clips[i := c]));
    var call := Cue(u.requests + 1, c.id, None);
    assert (u.calls + [call])[|u.calls|] == call;
  }

  // ------------------------------------------------------------------ over a whole pause

  /** A run in which nobody cues, resumes or stops: edits, reports and polls alone, and how the backend takes cues. */
  ghost predicate LeftAlone(run: seq<State>, ops: seq<Op>, accepted: seq<bool>) {
    && |run| == |ops| + 1 && |accepted| == |ops|
    && forall k :: 0 <= k < |ops| ==> Passes(run[k], ops[k], accepted[k], run[k + 1])
  }

  ghost predicate Passes(s: State, op: Op, accepts: bool, t: State) {
    ValidClips(s.clips) && Allowed(s, op) && !Commands(s, op) && t == Apply(s, op, accepts)
  }

  /** This step leaves a request live: it re-arms, or cues the element on air again. */
  predicate Cues(s: State, op: Op, accepts: bool) {
    Rearms(s, op) || Retakes(s, op, accepts)
  }

  lemma StepQuiet(s: State, op: Op, accepts: bool, t: State)
    requires Quiet(s) && GoodClips(s.clips) && Passes(s, op, accepts, t)
    ensures !Cues(s, op, accepts) ==> Quiet(t)
    ensures Cues(s, op, accepts) ==> t.armed.Some? || t.pending.Some?
  {
    if Rearms(s, op) {
      RearmingArms(s, op, accepts);
    } else if Retakes(s, op, accepts) {
      RetakingCues(s, op.i, op.clip);
    } else {
      QuietStep(s, op, accepts);
    }
  }

  lemma {:induction false} RunReaches(run: seq<State>, ops: seq<Op>, accepted: seq<bool>, k: nat)
    requires LeftAlone(run, ops, accepted) && Reachable(run[0], false) && k < |run|
    ensures Reachable(run[k], false)
  {
    if k > 0 {
      RunReaches(run, ops, accepted, k - 1);
      assert Passes(run[k - 1], ops[k - 1], accepted[k - 1], run[k - 1 + 1]);
      OneStep(run[k - 1], ops[k - 1], accepted[k - 1], false);
    }
  }

  lemma ReachableGood(s: State)
    requires Reachable(s, false)
    ensures GoodClips(s.clips)
  {
    ReachableInv(s, false);
  }

  lemma {:induction false} QuietUntilCued(run: seq<State>, ops: seq<Op>, accepted: seq<bool>, k: nat)
    requires LeftAlone(run, ops, accepted) && Reachable(run[0], false) && Quiet(run[0]) && k < |run|
    requires forall j :: 0 <= j < k ==> !Cues(run[j], ops[j], accepted[j])
    ensures Quiet(run[k])
  {
    if k > 0 {
      QuietUntilCued(run, ops, accepted, k - 1);
      RunReaches(run, ops, accepted, k - 1);
      ReachableGood(run[k - 1]);
      assert Passes(run[k - 1], ops[k - 1], accepted[k - 1], run[k - 1 + 1]) && !Cues(run[k - 1], ops[k - 1], accepted[k - 1]);
      StepQuiet(run[k - 1], ops[k - 1], accepted[k - 1], run[k]);
    }
  }

  /** The pause lasts, and nothing the backend may report can end it. */
  ghost predicate Lasts(s: State) {
    ValidClips(s.clips) && s.transport == Paused && !Answerable(s)
  }

  lemma QuietLasts(s: State)
    requires Reachable(s, false)
    ensures Lasts(s) <==> Quiet(s)
  {
    ReachableInv(s, false);
    if s.transport == Paused {
      AnswerableWhenLive(s);
    }
  }

  lemma PauseReaches(s: State)
    requires Reachable(s, false) && s.transport == Playing
    ensures Reachable(PauseNow(s), false) && (Quiet(PauseNow(s)) <==> s.pending.None?)
  {
    ReachableInv(s, false);
    OneStep(s, DoPause, true, false);
  }

  lemma LastingIsQuiet(run: seq<State>, ops: seq<Op>, accepted: seq<bool>, k: nat)
    requires LeftAlone(run, ops, accepted) && Reachable(run[0], false) && k < |run|
    ensures Lasts(run[k]) <==> Quiet(run[k])
  {
    RunReaches(run, ops, accepted, k);
    QuietLasts(run[k]);
  }

  /**
    While nobody cues, resumes or stops, a pause lasts and cannot be ended by the backend if and only if no
    manual take was pending when it began, no edit re-armed, and none cued the element on air again.
   */
  lemma PausedUntilCued(s: State, run: seq<State>, ops: seq<Op>, accepted: seq<bool>)
    requires Reachable(s, false) && s.transport == Playing && LeftAlone(run, ops, accepted) && run[0] == PauseNow(s)
    ensures (forall k :: 0 <= k < |run| ==> Lasts(run[k])) <==>
      s.pending.None? && forall k :: 0 <= k < |ops| ==> !Rearms(run[k], ops[k]) && !Retakes(run[k], ops[k], accepted[k])
  {
    PauseReaches(s);
    forall k | 0 <= k < |run|
      ensures Lasts(run[k]) <==> Quiet(run[k])
    {
      LastingIsQuiet(run, ops, accepted, k);
    }
    if forall k :: 0 <= k < |run| ==> Lasts(run[k]) {
      assert Lasts(run[0]);
      forall k | 0 <= k < |ops|
        ensures !Cues(run[k], ops[k], accepted[k])
      {
        assert Passes(run[k], ops[k], accepted[k], run[k + 1]) && Lasts(run[k]) && Lasts(run[k + 1]);
        RunReaches(run, ops, accepted, k);
        ReachableGood(run[k]);
        StepQuiet(run[k], ops[k], accepted[k], run[k + 1]);
      }
    } else if s.pending.None? && forall k :: 0 <= k < |ops| ==> !Cues(run[k], ops[k], accepted[k]) {
      forall k | 0 <= k < |run|
        ensures Lasts(run[k])
      {
        QuietUntilCued(run, ops, accepted, k);
      }
    }
  }

  // ------------------------------------------------------------------ the pause that ends by itself

  lemma ArmedFollows(s: State)
    requires GoodClips(s.clips) && Follows(s, s.clips, s.mode)
    ensures var t := ArmNext(s); var i := Target(s);
      && t.clips == s.clips && t.transport == s.transport && t.end == s.end
      && i.Some? && t.armed == Some(s.clips[i.value].id) && t.armed != s.active
      && t.armedRequest.Some? && Cue(t.armedRequest.value, t.armed.value, t.end) in t.calls
  {
    ArmNextArms(s);
    IndexOfUnique(s.clips, Target(s).value);
  }

  lemma TakesTheAnswer(t: State, i: nat)
    requires GoodClips(t.clips) && i < |t.clips| && t.armed == Some(t.clips[i].id) && t.end.Some?
    requires t.armedRequest.Some? && Cue(t.armedRequest.value, t.armed.value, t.end) in t.calls
    ensures var e := CameOnAir(t.armed.value, t.armedRequest, t.end);
      Honest(t.calls, e) && Handle(t, e).transport == Playing && Handle(t, e).active == t.armed
  {
    IndexOfUnique(t.clips, i);
    WentOnAirActive(t, i, t.end.value);
  }

  /**
    Re-arming while paused, as set_transition() does: the next element is cued for the old end, and the answer
    to that ends the pause.
   */
  lemma RearmingEndsThePause(s: State)
    requires Inv(s, false) && s.transport == Paused && Follows(s, s.clips, s.mode)
    ensures var t := ArmNext(s);
      && t.transport == Paused && t.armed.Some? && t.armed != s.active && t.armedRequest.Some? && t.clips == s.clips
      && Cue(t.armedRequest.value, t.armed.value, s.end) in t.calls
      && var e := CameOnAir(t.armed.value, t.armedRequest, s.end);
      && Honest(t.calls, e) && Handle(t, e).transport == Playing && Handle(t, e).active == t.armed
  {
    ArmedFollows(s);
    TakesTheAnswer(ArmNext(s), Target(s).value);
  }

  /** An edit of the element on air while paused: it is cued again though nothing re-arms, and the answer ends the pause. */
  lemma EditingEndsThePause(s: State, i: nat, c: Clip)
    requires Inv(s, false) && Quiet(s) && Retakes(s, DoReplace(i, c), true) && ValidClip(c)
    ensures var t := Replace(s, i, c, true); var e := CameOnAir(c.id, t.pendingRequest, None);
      && !Rearms(s, DoReplace(i, c)) && t.transport == Paused && t.pending == s.active && ValidClips(t.clips)
      && Honest(t.calls, e) && Handle(t, e).transport == Playing && Handle(t, e).active == s.active
  {
    var t := Replace(s, i, c, true);
    RetakingCues(s, i, c);
    OnlyOne(s.clips, i, c);
    WentOnAirActive(t, i, t.now);
  }

  /** Two enabled elements played in order, paused at once: such a state, for either. */
  lemma PausedExample(clips: seq<Clip>)
    requires Startable(clips) && |clips| == 2 && !clips[1].disabled
    ensures var s := PauseNow(ArmNext(FirstOnAir(clips, PlayAll)));
      && Reachable(s, false) && Quiet(s) && Follows(s, s.clips, s.mode) && Retakes(s, DoReplace(0, clips[0]), true)
  {
    var t := ArmNext(FirstOnAir(clips, PlayAll));
    FirstGoesOnAir(clips, PlayAll, false);
    ArmNextArms(FirstOnAir(clips, PlayAll));
    OneStep(t, DoPause, true, false);
    IndexOfUnique(clips, 0);
    StepIsNearest(clips, 0, Forward, false, 1);
    assert Follows(FirstOnAir(clips, PlayAll), clips, PlayAll);
  }
}

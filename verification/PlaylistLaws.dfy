/**
  The laws of the playlist controller, and that every command, edit and honest backend event keeps them.
  An edit of a clip may also switch it on or off, behind the back of what is pending or armed: the laws
  come in a form that holds in any run, and, where `exact`, in a stronger one that such edits may break.
 */
module PlaylistLaws {
  import opened Options
  import opened PlaylistCommands
  import opened PlaylistPolicy

  // ------------------------------------------------------------------ the laws

  ghost predicate Has(clips: seq<Clip>, id: Id) {
    exists c :: c in clips && c.id == id
  }

  ghost predicate HasEnabled(clips: seq<Clip>, id: Id) {
    exists c :: c in clips && c.id == id && !c.disabled
  }

  predicate GoodClips(clips: seq<Clip>) {
    Unique(clips) && ValidClips(clips)
  }

  predicate OnScreen(t: Transport) {
    t == Playing || t == Paused
  }

  /** Times are known only while an element is on air; the active element is on air or was stopped. */
  predicate TimesLaw(t: Transport, start: Option<int>, end: Option<int>, pausedAt: Option<int>) {
    && (end.Some? ==> OnScreen(t)) && (OnScreen(t) <==> start.Some?) && (pausedAt.Some? <==> t == Paused)
  }

  predicate TransportLaw(t: Transport, active: Option<Id>, pending: Option<Id>) {
    && (OnScreen(t) ==> active.Some?) && (t == Loading ==> active.None? && pending.Some?)
  }

  /** In the playlist, and enabled where the laws are exact. */
  ghost predicate Names(clips: seq<Clip>, id: Id, exact: bool) {
    Has(clips, id) && (exact ==> HasEnabled(clips, id))
  }

  ghost predicate ActiveLaw(clips: seq<Clip>, active: Option<Id>, t: Transport, exact: bool) {
    active.Some? ==> Has(clips, active.value) && (OnScreen(t) ==> Names(clips, active.value, exact))
  }

  ghost predicate PendingLaw(clips: seq<Clip>, pending: Option<Id>, exact: bool) {
    pending.Some? ==> Names(clips, pending.value, exact)
  }

  ghost predicate SelectedLaw(clips: seq<Clip>, selected: Option<Id>) {
    selected.Some? ==> Has(clips, selected.value)
  }

  /** The request in use for `item`, if any, was given out and every cue that carries it names `item`, at `at`. */
  predicate RequestLaw(calls: seq<Call>, requests: nat, item: Option<Id>, request: Option<nat>, at: Option<int>) {
    && (item.Some? <==> request.Some?)
    && (request.Some? ==> request.value <= requests
                          && Cue(request.value, item.value, at) in calls
                          && forall k :: 0 <= k < |calls| && calls[k].Cue? && calls[k].request == request.value ==>
                               calls[k] == Cue(request.value, item.value, at))
  }

  /** No cue carries a number that is yet to be given out. */
  predicate CallsLaw(calls: seq<Call>, requests: nat) {
    forall k :: 0 <= k < |calls| && calls[k].Cue? ==> calls[k].request <= requests
  }

  predicate Apart(a: Option<nat>, b: Option<nat>) {
    a.Some? && b.Some? ==> a != b
  }

  /** The armed element is where playback goes from the active one, and is another. */
  predicate Succeeds(clips: seq<Clip>, mode: PlaylistMode, active: Option<Id>, armed: Id) {
    var i := IndexOf(clips, active);
    && i.Some? && ResolveAutomatic(clips, i, mode).Some?
    && var j := ResolveAutomatic(clips, i, mode).value;
    && j != i.value && armed == clips[j].id
  }

  ghost predicate ArmedLaw(clips: seq<Clip>, mode: PlaylistMode, active: Option<Id>, armed: Option<Id>, end: Option<int>,
                           exact: bool) {
    armed.Some? ==>
      && end.Some? && active.Some? && armed != active && Has(clips, armed.value)
      && (exact ==> Succeeds(clips, mode, active, armed.value))
  }

  /** Everything but what concerns the armed element. */
  ghost predicate Base(s: State, exact: bool) {
    && GoodClips(s.clips)
    && TimesLaw(s.transport, s.start, s.end, s.pausedAt) && TransportLaw(s.transport, s.active, s.pending)
    && ActiveLaw(s.clips, s.active, s.transport, exact) && PendingLaw(s.clips, s.pending, exact)
    && SelectedLaw(s.clips, s.selected)
    && CallsLaw(s.calls, s.requests) && RequestLaw(s.calls, s.requests, s.pending, s.pendingRequest, None)
  }

  ghost predicate Armed(s: State, exact: bool) {
    && RequestLaw(s.calls, s.requests, s.armed, s.armedRequest, s.end) && Apart(s.pendingRequest, s.armedRequest)
    && ArmedLaw(s.clips, s.mode, s.active, s.armed, s.end, exact)
  }

  ghost predicate Inv(s: State, exact: bool) {
    Base(s, exact) && Armed(s, exact)
  }

  // ------------------------------------------------------------------ the log of calls

  lemma RequestKept(calls: seq<Call>, requests: nat, item: Option<Id>, request: Option<nat>, at: Option<int>, call: Call)
    requires CallsLaw(calls, requests) && RequestLaw(calls, requests, item, request, at)
    requires call.Cue? ==> call.request == requests + 1
    ensures CallsLaw(calls + [call], if call.Cue? then requests + 1 else requests)
    ensures RequestLaw(calls + [call], if call.Cue? then requests + 1 else requests, item, request, at)
  {
  }

  lemma RequestMade(calls: seq<Call>, requests: nat, item: Id, at: Option<int>)
    requires CallsLaw(calls, requests)
    ensures RequestLaw(calls + [Cue(requests + 1, item, at)], requests + 1, Some(item), Some(requests + 1), at)
  {
    var grown := calls + [Cue(requests + 1, item, at)];
    assert grown[|calls|] == Cue(requests + 1, item, at);
  }

  // ------------------------------------------------------------------ what the primitives keep

  lemma DisarmBase(s: State, exact: bool)
    requires Base(s, exact)
    ensures Base(Disarm(s), exact) && Armed(Disarm(s), exact)
  {
    if s.armed.Some? {
      RequestKept(s.calls, s.requests, s.pending, s.pendingRequest, None, Park(s.armed.value));
    }
  }

  lemma CalledBase(s: State, call: Call, exact: bool)
    requires Base(s, exact) && !call.Cue?
    ensures Base(Called(s, call), exact) && (Armed(s, exact) ==> Armed(Called(s, call), exact))
  {
    RequestKept(s.calls, s.requests, s.pending, s.pendingRequest, None, call);
    if Armed(s, exact) {
      RequestKept(s.calls, s.requests, s.armed, s.armedRequest, s.end, call);
    }
  }

  lemma ArmBase(s: State, j: nat, exact: bool)
    requires Base(s, exact) && j < |s.clips|
    ensures Base(Arm(s, j), exact)
    ensures var t := Arm(s, j); RequestLaw(t.calls, t.requests, t.armed, t.armedRequest, t.end)
  {
    RequestKept(s.calls, s.requests, s.pending, s.pendingRequest, None, Cue(s.requests + 1, s.clips[j].id, s.end));
    RequestMade(s.calls, s.requests, s.clips[j].id, s.end);
  }

  lemma TargetLaw(s: State, j: nat, exact: bool)
    requires GoodClips(s.clips) && Target(s) == Some(j)
    ensures ArmedLaw(s.clips, s.mode, s.active, Some(s.clips[j].id), s.end, exact)
  {
    EnabledAt(s.clips, j);
  }

  lemma ArmInv(s: State, j: nat, exact: bool)
    requires Base(s, exact) && Target(s) == Some(j)
    ensures Inv(Arm(s, j), exact)
  {
    ArmBase(s, j, exact);
    TargetLaw(s, j, exact);
    assert Apart(s.pendingRequest, Some(s.requests + 1));
  }

  /** Re-arming restores everything about the armed element, whatever it was. */
  lemma ArmNextInv(s: State, exact: bool)
    requires Base(s, exact)
    ensures Inv(ArmNext(s), exact)
  {
    var t := Disarm(s);
    DisarmBase(s, exact);
    if Target(t).Some? {
      ArmInv(t, Target(t).value, exact);
    }
  }

  /** Re-arming arms exactly what there is to arm, at the end as it is now. */
  lemma ArmNextArms(s: State)
    ensures var t := ArmNext(s);
      && t.transport == s.transport && t.end == s.end && t.active == s.active && t.clips == s.clips
      && t.pending == s.pending && t.pendingRequest == s.pendingRequest
      && (Target(s).None? ==> t.armed.None? && t.armedRequest.None?)
      && (Target(s).Some? ==> t.armed == Some(s.clips[Target(s).value].id) && t.armedRequest.Some?
                              && Cue(t.armedRequest.value, t.armed.value, t.end) in t.calls)
  {
    var d := Disarm(s);
    assert Target(d) == Target(s);
    if Target(s).Some? {
      var call := Cue(d.requests + 1, s.clips[Target(s).value].id, s.end);
      assert (d.calls + [call])[|d.calls|] == call;
    }
  }

  lemma EnabledAt(clips: seq<Clip>, i: nat)
    requires i < |clips|
    ensures Has(clips, clips[i].id) && (!clips[i].disabled ==> HasEnabled(clips, clips[i].id))
  {
    assert clips[i] in clips;
  }

  lemma WentOnAirInv(s: State, i: nat, at: int, exact: bool)
    requires Base(s, exact) && i < |s.clips| && (exact ==> !s.clips[i].disabled)
    ensures Inv(WentOnAir(s, i, at), exact)
  {
    EnabledAt(s.clips, i);
    var t := OnAir(s, i, at);
    assert Base(t, exact);
    if s.active.Some? {
      CalledBase(t, Park(s.active.value), exact);
    }
    ArmNextInv(if s.active.Some? && s.active != t.active then Called(t, Park(s.active.value)) else t, exact);
  }

  lemma TakeInv(s: State, i: nat, exact: bool)
    requires Base(s, exact) && i < |s.clips| && !s.clips[i].disabled
    ensures Inv(Take(s, i), exact)
  {
    DisarmBase(s, exact);
    EnabledAt(s.clips, i);
    RequestMade(Disarm(s).calls, s.requests, s.clips[i].id, None);
  }

  lemma FailedInv(s: State, request: Option<nat>, exact: bool)
    requires Inv(s, exact)
    ensures Inv(Failed(s, request), exact)
  {
  }

  lemma TakenInv(s: State, i: nat, accepts: bool, exact: bool)
    requires Base(s, exact) && i < |s.clips| && !s.clips[i].disabled
    ensures Inv(TakeOrFail(s, i, accepts), exact)
  {
    TakeInv(s, i, exact);
    FailedInv(Take(s, i), Some(s.requests + 1), exact);
  }

  lemma TakeOrFailInv(s: State, i: nat, accepts: bool, exact: bool)
    requires Inv(s, exact) && i < |s.clips|
    ensures Inv(TakeOrFail(s, i, accepts), exact)
  {
    if !s.clips[i].disabled {
      TakenInv(s, i, accepts, exact);
    }
  }

  /** What stopping leaves behind, even in the middle of an edit. */
  lemma Stops(s: State)
    requires s.active.Some? || s.pending.Some?
    requires CallsLaw(s.calls, s.requests)
    ensures var t := Stop(s);
      && CallsLaw(t.calls, t.requests) && t.clips == s.clips && t.selected == s.selected && t.active == s.active
      && t.pending.None? && t.pendingRequest.None? && t.armed.None? && t.armedRequest.None?
      && t.transport == Stopped && t.start.None? && t.end.None? && t.pausedAt.None?
  {
    var t := Disarm(s);
    assert CallsLaw(t.calls, s.requests);
    var u := ParkIf(t, if t.pending != t.active then t.pending else None);
    assert CallsLaw(u.calls, s.requests);
  }

  /**
    Stopping needs little of the state: `keeps` unless the active element is being removed, and
    `selected` is what will be selected after the edit.
   */
  lemma StopInv(s: State, keeps: bool, selected: Option<Id>, exact: bool)
    requires GoodClips(s.clips) && CallsLaw(s.calls, s.requests) && SelectedLaw(s.clips, selected)
    requires s.active.Some? || s.pending.Some?
    requires keeps && s.active.Some? ==> Has(s.clips, s.active.value)
    ensures Inv((if keeps then Stop(s) else Stop(s).(active := None)).(selected := selected), exact)
  {
    Stops(s);
  }

  lemma StopKeepsInv(s: State, exact: bool)
    requires Inv(s, exact)
    ensures Inv(Stop(s), exact)
  {
    if s.active.Some? || s.pending.Some? {
      StopInv(s, true, s.selected, exact);
    }
  }

  // ------------------------------------------------------------------ backend events and polls

  /** An accepted event names the element it was cued for, so that element is in the playlist and enabled. */
  lemma HonestNamesElement(s: State, e: Event, exact: bool)
    requires Inv(s, exact) && Honest(s.calls, e) && e.CameOnAir? && Live(s, e.request)
    ensures || (e.request == s.pendingRequest && Some(e.item) == s.pending)
            || (e.request == s.armedRequest && Some(e.item) == s.armed)
    ensures var i := IndexOf(s.clips, Some(e.item)); i.Some? && (exact ==> !s.clips[i.value].disabled)
  {
    var k :| 0 <= k < |s.calls| && s.calls[k].Cue? && s.calls[k].request == e.request.value && s.calls[k].item == e.item;
    EnabledHasIndex(s.clips, e.item);
  }

  lemma EnabledHasIndex(clips: seq<Clip>, id: Id)
    requires Unique(clips)
    ensures HasEnabled(clips, id) ==> IndexOf(clips, Some(id)).Some? && !clips[IndexOf(clips, Some(id)).value].disabled
    ensures Has(clips, id) ==> IndexOf(clips, Some(id)).Some?
    ensures forall i :: 0 <= i < |clips| && !clips[i].disabled && clips[i].id == id ==> HasEnabled(clips, id)
  {
    forall i | 0 <= i < |clips| && clips[i].id == id
      ensures IndexOf(clips, Some(id)) == Some(i)
    {
      IndexOfUnique(clips, i);
    }
  }

  lemma HandleInv(s: State, e: Event, exact: bool)
    requires Inv(s, exact) && Honest(s.calls, e)
    ensures Inv(Handle(s, e), exact)
  {
    match e
    case CameOnAir(item, request, at) =>
      if Live(s, request) {
        HonestNamesElement(s, e, exact);
        WentOnAirInv(s, IndexOf(s.clips, Some(item)).value, if at.None? then s.now else at.value, exact);
      }
    case CueFailed(_, request) => FailedInv(s, request, exact);
  }

  // ------------------------------------------------------------------ only enabled elements are cued

  /** The log only grows, and what it grows by cues enabled elements of the playlist. */
  ghost predicate Asks(clips: seq<Clip>, before: seq<Call>, after: seq<Call>) {
    before <= after
    && forall k :: |before| <= k < |after| && after[k].Cue? ==> HasEnabled(clips, after[k].item)
  }

  lemma AsksOn(clips: seq<Clip>, a: seq<Call>, b: seq<Call>, c: seq<Call>)
    requires Asks(clips, a, b) && Asks(clips, b, c)
    ensures Asks(clips, a, c)
  {
  }

  lemma ArmNextAsks(s: State)
    ensures Asks(s.clips, s.calls, ArmNext(s).calls) && ArmNext(s).clips == s.clips
  {
    var t := Disarm(s);
    assert Asks(s.clips, s.calls, t.calls);
    if Target(t).Some? {
      EnabledAt(t.clips, Target(t).value);
      assert Asks(s.clips, t.calls, Arm(t, Target(t).value).calls);
    }
  }

  lemma WentOnAirAsks(s: State, i: nat, at: int)
    requires i < |s.clips| && ValidClips(s.clips)
    ensures Asks(s.clips, s.calls, WentOnAir(s, i, at).calls) && WentOnAir(s, i, at).clips == s.clips
  {
    var t := OnAir(s, i, at);
    var u := if s.active.Some? && s.active != t.active then Called(t, Park(s.active.value)) else t;
    assert Asks(s.clips, s.calls, u.calls);
    ArmNextAsks(u);
    AsksOn(s.clips, s.calls, u.calls, WentOnAir(s, i, at).calls);
  }

  lemma TakeAsks(s: State, i: nat, accepts: bool)
    requires i < |s.clips|
    ensures Asks(s.clips, s.calls, TakeOrFail(s, i, accepts).calls) && TakeOrFail(s, i, accepts).clips == s.clips
  {
    if !s.clips[i].disabled {
      EnabledAt(s.clips, i);
      assert Asks(s.clips, s.calls, Disarm(s).calls);
      assert Asks(s.clips, Disarm(s).calls, Take(s, i).calls);
    }
  }

  lemma StopAsks(s: State)
    ensures Asks(s.clips, s.calls, Stop(s).calls) && Stop(s).clips == s.clips
  {
    var t := Disarm(s);
    var u := ParkIf(t, if t.pending != t.active then t.pending else None);
    assert Asks(s.clips, s.calls, t.calls) && Asks(s.clips, t.calls, u.calls);
  }

  lemma HandleAsks(s: State, e: Event)
    requires ValidClips(s.clips)
    ensures Asks(s.clips, s.calls, Handle(s, e).calls) && Handle(s, e).clips == s.clips
  {
    match e
    case CameOnAir(item, request, at) =>
      var i := IndexOf(s.clips, Some(item));
      if Live(s, request) && i.Some? {
        WentOnAirAsks(s, i.value, if at.None? then s.now else at.value);
      }
    case CueFailed(_, _) =>
  }

  lemma {:induction false} DrainAsks(s: State, events: seq<Event>)
    requires ValidClips(s.clips)
    ensures Asks(s.clips, s.calls, Drain(s, events).calls)
    decreases |events|
  {
    if events != [] {
      HandleAsks(s, events[0]);
      DrainAsks(Handle(s, events[0]), events[1..]);
    }
  }

  lemma RepeatAsks(s: State, i: nat)
    requires i < |s.clips| && ValidClips(s.clips) && s.end.Some?
    ensures Asks(s.clips, s.calls, Repeat(s, i).calls) && Repeat(s, i).clips == s.clips
  {
    ArmNextAsks(Rolled(s, i));
  }

  lemma CompleteAsks(s: State, accepts: bool)
    requires ValidClips(s.clips)
    ensures Asks(s.clips, s.calls, Complete(s, accepts).calls) && Complete(s, accepts).clips == s.clips
  {
    if Finished(s) {
      StopAsks(s);
      if Next(s).Some? {
        RepeatAsks(s, Next(s).value);
        TakeAsks(s, Next(s).value, accepts);
      }
    }
  }

  // ------------------------------------------------------------------ polls

  lemma {:induction false} DrainInv(s: State, events: seq<Event>, exact: bool)
    requires Inv(s, exact) && forall k :: 0 <= k < |events| ==> Honest(s.calls, events[k])
    ensures Inv(Drain(s, events), exact)
    decreases |events|
  {
    if events != [] {
      HandleInv(s, events[0], exact);
      HandleAsks(s, events[0]);
      var t := Handle(s, events[0]);
      forall k | 0 <= k < |events[1..]|
        ensures Honest(t.calls, events[1..][k])
      {
        StillHonest(s.calls, t.calls, events[k + 1]);
      }
      DrainInv(t, events[1..], exact);
    }
  }

  lemma StillHonest(a: seq<Call>, b: seq<Call>, e: Event)
    requires a <= b && Honest(a, e)
    ensures Honest(b, e)
  {
    if e.CameOnAir? && e.request.Some? {
      var k :| 0 <= k < |a| && a[k].Cue? && a[k].request == e.request.value && a[k].item == e.item;
      assert b[k] == a[k];
    }
  }

  lemma CompleteInv(s: State, accepts: bool, exact: bool)
    requires Inv(s, exact)
    ensures Inv(Complete(s, accepts), exact)
  {
    if Finished(s) {
      if Next(s).None? {
        StopKeepsInv(s, exact);
      } else if Next(s) == ActiveIndex(s) {
        ArmNextInv(Rolled(s, Next(s).value), exact);
      } else {
        TakeOrFailInv(s, Next(s).value, accepts, exact);
      }
    }
  }

  lemma PollInv(s: State, now: int, events: seq<Event>, accepts: bool, exact: bool)
    requires Inv(s, exact) && forall k :: 0 <= k < |events| ==> Honest(s.calls, events[k])
    ensures Inv(Poll(s, now, events, accepts), exact)
  {
    assert Inv(s.(now := now), exact);
    DrainInv(s.(now := now), events, exact);
    CompleteInv(Drain(s.(now := now), events), accepts, exact);
  }

  // ------------------------------------------------------------------ transport

  lemma ResumeInv(s: State, exact: bool)
    requires Inv(s, exact) && s.transport == Paused
    ensures Inv(ArmNext(Called(Shifted(s), Resume(s.active.value))), exact)
  {
    assert Base(Shifted(s), exact);
    CalledBase(Shifted(s), Resume(s.active.value), exact);
    ArmNextInv(Called(Shifted(s), Resume(s.active.value)), exact);
  }

  lemma PlayInv(s: State, accepts: bool, exact: bool)
    requires Inv(s, exact)
    ensures Inv(Play(s, accepts), exact)
  {
    if s.transport == Paused {
      ResumeInv(s, exact);
    } else if s.transport == Stopped {
      var target := if ActiveIndex(s).Some? then ActiveIndex(s) else FirstEnabled(s.clips);
      if target.Some? {
        TakeOrFailInv(s, target.value, accepts, exact);
      }
    }
  }

  lemma PauseInv(s: State, exact: bool)
    requires Inv(s, exact)
    ensures Inv(PauseNow(s), exact)
  {
    if s.transport == Playing {
      DisarmBase(s, exact);
      CalledBase(Disarm(s), Pause(s.active.value), exact);
    }
  }

  lemma SelectInv(s: State, i: nat, exact: bool)
    requires Inv(s, exact) && i < |s.clips|
    ensures Inv(Select(s, i), exact)
  {
    EnabledAt(s.clips, i);
  }

  lemma ElementPlayInv(s: State, i: nat, accepts: bool, exact: bool)
    requires Inv(s, exact) && i < |s.clips|
    ensures Inv(ElementPlay(s, i, accepts), exact)
  {
    SelectInv(s, i, exact);
    PlayInv(Select(s, i), accepts, exact);
    TakeOrFailInv(Select(s, i), i, accepts, exact);
  }

  lemma ElementInv(s: State, i: nat, exact: bool)
    requires Inv(s, exact) && i < |s.clips|
    ensures Inv(ElementPause(s, i), exact) && Inv(ElementStop(s, i), exact)
  {
    SelectInv(s, i, exact);
    var t := Select(s, i);
    PauseInv(t, exact);
    CalledBase(t, Pause(s.clips[i].id), exact);
    StopKeepsInv(t, exact);
    DisarmBase(t, exact);
    CalledBase(t, Park(s.clips[i].id), exact);
  }

  lemma NavigateInv(s: State, d: Direction, accepts: bool, exact: bool)
    requires Inv(s, exact)
    ensures Inv(Navigate(s, d, accepts), exact)
  {
    var origin := if ActiveIndex(s).Some? then ActiveIndex(s) else IndexOf(s.clips, s.selected);
    var target := ResolveManual(s.clips, origin, s.mode, d);
    if target.Some? && target != origin {
      SelectInv(s, target.value, exact);
      TakeOrFailInv(Select(s, target.value), target.value, accepts, exact);
    }
  }

  // ------------------------------------------------------------------ edits

  lemma Members(clips: seq<Clip>, i: nat, c: Clip)
    requires i <= |clips|
    ensures forall x :: x in InsertedAt(clips, i, c) <==> x in clips || x == c
  {
    assert clips == clips[..i] + clips[i..];
  }

  lemma PoppedMembers(clips: seq<Clip>, i: nat)
    requires i < |clips| && Unique(clips)
    ensures forall x :: x in PoppedAt(clips, i) <==> x in clips && x.id != clips[i].id
  {
    var popped := PoppedAt(clips, i);
    forall x
      ensures x in popped <==> x in clips && x.id != clips[i].id
    {
      if x in popped {
        var k :| 0 <= k < |popped| && popped[k] == x;
        assert x == clips[if k < i then k else k + 1];
      }
      if x in clips && x.id != clips[i].id {
        var k :| 0 <= k < |clips| && clips[k] == x;
        assert popped[if k < i then k else k - 1] == x;
      }
    }
  }

  lemma InsertedGood(clips: seq<Clip>, i: nat, c: Clip)
    requires i <= |clips| && GoodClips(clips) && ValidClip(c) && forall x :: x in clips ==> x.id != c.id
    ensures GoodClips(InsertedAt(clips, i, c))
  {
    var grown := InsertedAt(clips, i, c);
    forall k | 0 <= k < |grown|
      ensures grown[k] == if k < i then clips[k] else if k == i then c else clips[k - 1]
    {
    }
    forall j, k | 0 <= j < k < |grown|
      ensures grown[j].id != grown[k].id
    {
      assert j != i ==> grown[j] in clips;
      assert k != i ==> grown[k] in clips;
    }
  }

  lemma PoppedGood(clips: seq<Clip>, i: nat)
    requires i < |clips| && GoodClips(clips)
    ensures GoodClips(PoppedAt(clips, i))
  {
    var popped := PoppedAt(clips, i);
    assert forall k :: 0 <= k < |popped| ==> popped[k] == clips[if k < i then k else k + 1];
  }

  /** An edit that keeps the elements in use keeps the base, so re-arming restores everything. */
  ghost predicate Keeps(s: State, clips: seq<Clip>, exact: bool) {
    && SelectedLaw(clips, s.selected) && PendingLaw(clips, s.pending, exact)
    && ActiveLaw(clips, s.active, s.transport, exact)
  }

  lemma EditInv(s: State, clips: seq<Clip>, exact: bool)
    requires Inv(s, exact) && GoodClips(clips) && Keeps(s, clips, exact)
    ensures Base(s.(clips := clips), exact) && Inv(ArmNext(s.(clips := clips)), exact)
  {
    assert Base(s.(clips := clips), exact);
    ArmNextInv(s.(clips := clips), exact);
  }

  lemma InsertInv(s: State, i: nat, c: Clip, exact: bool)
    requires Inv(s, exact) && i <= |s.clips| && ValidClip(c)
    ensures Inv(Insert(s, i, c), exact)
  {
    if IndexOf(s.clips, Some(c.id)).None? && |s.clips| < SLOT_CAPACITY {
      Members(s.clips, i, c);
      InsertedGood(s.clips, i, c);
      EditInv(s, InsertedAt(s.clips, i, c), exact);
    }
  }

  lemma ReorderInv(s: State, from: nat, to: nat, exact: bool)
    requires Inv(s, exact) && from < |s.clips| && to < |s.clips|
    ensures Inv(Reorder(s, from, to), exact)
  {
    var popped := PoppedAt(s.clips, from);
    PoppedMembers(s.clips, from);
    PoppedGood(s.clips, from);
    Members(popped, to, s.clips[from]);
    InsertedGood(popped, to, s.clips[from]);
    EditInv(s, InsertedAt(popped, to, s.clips[from]), exact);
  }

  lemma ForgottenBase(t: State, id: Id, selected: Option<Id>, exact: bool)
    requires GoodClips(t.clips) && SelectedLaw(t.clips, selected) && CallsLaw(t.calls, t.requests)
    requires t.active != Some(id) && t.pending != Some(id) ==> Base(t.(selected := selected), exact)
    ensures Base(Forgotten(t, id).(selected := selected), exact)
  {
    if Some(id) == t.active || Some(id) == t.pending {
      StopInv(t, false, selected, exact);
      CalledBase(Stop(t).(active := None, selected := selected), Remove(id), exact);
    } else {
      CalledBase(t.(selected := selected), Remove(id), exact);
    }
  }

  lemma RemovedInv(s: State, id: Id, clips: seq<Clip>, selected: Option<Id>, exact: bool)
    requires Inv(s, exact) && GoodClips(clips) && SelectedLaw(clips, selected)
    requires forall x :: x in clips <==> x in s.clips && x.id != id
    ensures Inv(Removed(s, id, clips, selected), exact)
  {
    ForgottenBase(s.(clips := clips), id, selected, exact);
    ArmNextInv(Forgotten(s.(clips := clips), id).(selected := selected), exact);
  }

  lemma ReselectedHas(clips: seq<Clip>, i: nat)
    requires clips != []
    ensures SelectedLaw(clips, Reselected(clips, i))
  {
    EnabledAt(clips, if i <= |clips| - 1 then i else |clips| - 1);
    if FirstEnabled(clips).Some? {
      EnabledAt(clips, FirstEnabled(clips).value);
    }
  }

  lemma RemoveInv(s: State, i: nat, exact: bool)
    requires Inv(s, exact) && i < |s.clips|
    ensures Inv(RemoveAt(s, i), exact)
  {
    if |s.clips| > 1 {
      var clips := PoppedAt(s.clips, i);
      var id := s.clips[i].id;
      PoppedMembers(s.clips, i);
      PoppedGood(s.clips, i);
      ReselectedHas(clips, i);
      RemovedInv(s, id, clips, if Some(id) == s.selected then Reselected(clips, i) else s.selected, exact);
    }
  }

  lemma ToggledMembers(clips: seq<Clip>, i: nat, disabled: bool)
    requires i < |clips| && GoodClips(clips)
    ensures var after := Toggled(clips, i, disabled);
      && GoodClips(after)
      && forall id :: (Has(clips, id) ==> Has(after, id))
                      && (id != clips[i].id || !disabled ==> HasEnabled(clips, id) ==> HasEnabled(after, id))
  {
    var after := Toggled(clips, i, disabled);
    forall id
      ensures Has(clips, id) ==> Has(after, id)
      ensures (id != clips[i].id || !disabled) && HasEnabled(clips, id) ==> HasEnabled(after, id)
    {
      forall k | 0 <= k < |clips| && clips[k].id == id
        ensures Has(after, id) && ((id != clips[i].id || !disabled) && !clips[k].disabled ==> HasEnabled(after, id))
      {
        EnabledAt(after, k);
      }
    }
  }

  lemma StoppedAndArmed(t: State, selected: Option<Id>, exact: bool)
    requires GoodClips(t.clips) && SelectedLaw(t.clips, selected) && CallsLaw(t.calls, t.requests)
    requires t.active.Some? || t.pending.Some?
    requires t.active.Some? ==> Has(t.clips, t.active.value)
    ensures Inv(ArmNext(Stop(t).(selected := selected)), exact)
  {
    StopInv(t, true, selected, exact);
    ArmNextInv(Stop(t).(selected := selected), exact);
  }

  lemma DisarmedAndArmed(t: State, exact: bool)
    requires Base(t, exact)
    ensures Inv(ArmNext(Disarm(t)), exact)
  {
    DisarmBase(t, exact);
    ArmNextInv(Disarm(t), exact);
  }

  lemma DisabledInv(t: State, id: Id, selected: Option<Id>, exact: bool)
    requires GoodClips(t.clips) && SelectedLaw(t.clips, selected) && CallsLaw(t.calls, t.requests)
    requires t.active.Some? ==> Has(t.clips, t.active.value)
    requires Some(id) != t.active && Some(id) != t.pending ==> Base(t.(selected := selected), exact)
    ensures Inv(Disabled(t, id, selected), exact)
  {
    if Some(id) == t.active || Some(id) == t.pending {
      StoppedAndArmed(t, selected, exact);
    } else {
      DisarmedAndArmed(t.(selected := selected), exact);
      ArmNextInv(t.(selected := selected), exact);
    }
  }

  lemma SelectedPastHas(clips: seq<Clip>, i: nat)
    requires i < |clips|
    ensures SelectedLaw(clips, SelectedPast(clips, i))
  {
    var next := StepEnabled(clips, i, Forward, true);
    if next.Some? {
      EnabledAt(clips, next.value);
    }
  }

  lemma DisableInv(s: State, i: nat, disabled: bool, exact: bool)
    requires Inv(s, exact) && i < |s.clips|
    ensures Inv(SetDisabled(s, i, disabled), exact)
  {
    var id, clips := s.clips[i].id, Toggled(s.clips, i, disabled);
    ToggledMembers(s.clips, i, disabled);
    if !disabled {
      EditInv(s, clips, exact);
    } else {
      SelectedPastHas(clips, i);
      DisabledInv(s.(clips := clips), id, if Some(id) == s.selected then SelectedPast(clips, i) else s.selected, exact);
    }
  }

  lemma ReplacedHas(clips: seq<Clip>, i: nat, c: Clip)
    requires i < |clips| && GoodClips(clips) && ValidClip(c) && c.id == clips[i].id
    ensures GoodClips(clips[i := c])
    ensures forall id :: Has(clips, id) ==> Has(clips[i := c], id)
    ensures forall id :: HasEnabled(clips, id) && (id != c.id || !c.disabled) ==> HasEnabled(clips[i := c], id)
  {
    var after := clips[i := c];
    forall id
      ensures Has(clips, id) ==> Has(after, id)
      ensures HasEnabled(clips, id) && (id != c.id || !c.disabled) ==> HasEnabled(after, id)
    {
      forall k | 0 <= k < |clips| && clips[k].id == id
        ensures Has(after, id) && (!clips[k].disabled && (id != c.id || !c.disabled) ==> HasEnabled(after, id))
      {
        EnabledAt(after, k);
      }
    }
  }

  lemma OnlyAt(clips: seq<Clip>, i: nat)
    requires i < |clips| && Unique(clips)
    ensures HasEnabled(clips, clips[i].id) <==> !clips[i].disabled
  {
    EnabledAt(clips, i);
    assert forall k :: 0 <= k < |clips| && clips[k].id == clips[i].id ==> k == i;
  }

  lemma IndexOfSameIds(a: seq<Clip>, b: seq<Clip>, id: Option<Id>)
    requires |a| == |b| && Unique(a) && forall k :: 0 <= k < |a| ==> a[k].id == b[k].id
    ensures IndexOf(a, id) == IndexOf(b, id)
  {
    var i := IndexOf(b, id);
    if i.Some? {
      IndexOfUnique(a, i.value);
    }
  }

  /** On the way from the active element to the armed one. */
  predicate StandsBetween(s: State, i: nat) {
    var a, j := ActiveIndex(s), IndexOf(s.clips, s.armed);
    a.Some? && j.Some? && Between(a.value, i, j.value, Forward)
  }

  /** When replacing an element by `c`, of the same ID, leaves the exact laws intact. */
  predicate ReplaceKeeps(s: State, i: nat, c: Clip) {
    if s.active == Some(c.id) && OnScreen(s.transport) then !c.disabled
    else
      && (s.pending == Some(c.id) ==> !c.disabled)
      && (s.armed.Some? && s.armed != Some(c.id) && StandsBetween(s, i) ==> c.disabled)
  }

  lemma ReplacedNames(clips: seq<Clip>, i: nat, c: Clip, id: Id)
    requires i < |clips| && GoodClips(clips) && ValidClip(c) && c.id == clips[i].id && Names(clips, id, true)
    ensures Names(clips[i := c], id, true) <==> (id == c.id ==> !c.disabled)
  {
    ReplacedHas(clips, i, c);
    OnlyAt(clips[i := c], i);
  }

  lemma ReplacedBase(s: State, i: nat, c: Clip, exact: bool)
    requires Inv(s, exact) && i < |s.clips| && ValidClip(c) && c.id == s.clips[i].id
    ensures Base(s.(clips := s.clips[i := c]), false)
    ensures exact ==> (Base(s.(clips := s.clips[i := c]), true) <==>
                       (s.pending == Some(c.id) || (s.active == Some(c.id) && OnScreen(s.transport)) ==> !c.disabled))
  {
    ReplacedHas(s.clips, i, c);
    if exact && s.pending.Some? {
      ReplacedNames(s.clips, i, c, s.pending.value);
    }
    if exact && OnScreen(s.transport) {
      ReplacedNames(s.clips, i, c, s.active.value);
    }
  }

  /** Replacing an element that is neither on air nor armed: the armed one stays right unless `c` now stands before it. */
  lemma ReplacedSucceeds(clips: seq<Clip>, mode: PlaylistMode, active: Option<Id>, armed: Id, i: nat, c: Clip)
    requires GoodClips(clips) && i < |clips| && c.id == clips[i].id && active != Some(c.id) && armed != c.id
    requires Succeeds(clips, mode, active, armed)
    ensures var a, j := IndexOf(clips, active), IndexOf(clips, Some(armed));
      && a.Some? && j.Some?
      && (Succeeds(clips[i := c], mode, active, armed) <==> (Between(a.value, i, j.value, Forward) ==> c.disabled))
  {
    var after := clips[i := c];
    var a := IndexOf(clips, active).value;
    var j := ResolveAutomatic(clips, Some(a), mode).value;
    IndexOfUnique(clips, j);
    IndexOfSameIds(clips, after, active);
    StepIsNearest(clips, a, Forward, Loops(mode), j);
    StepIsNearest(after, a, Forward, Loops(mode), j);
    assert Succeeds(after, mode, active, armed) <==> StepEnabled(after, a, Forward, Loops(mode)) == Some(j) by {
      var r := ResolveAutomatic(after, Some(a), mode);
      if r.Some? && after[r.value].id == armed {
        assert clips[r.value].id == armed && clips[j].id == armed;
      }
    }
  }

  lemma ReplacedArmed(s: State, i: nat, c: Clip)
    requires Inv(s, true) && i < |s.clips| && ValidClip(c) && c.id == s.clips[i].id
    requires s.armed != Some(c.id) && (s.active != Some(c.id) || !OnScreen(s.transport))
    ensures Armed(s.(clips := s.clips[i := c]), true) <==> (s.armed.Some? && StandsBetween(s, i) ==> c.disabled)
  {
    ReplacedHas(s.clips, i, c);
    if s.armed.Some? {
      ReplacedSucceeds(s.clips, s.mode, s.active, s.armed.value, i, c);
    }
  }

  lemma RescheduledInv(s: State, id: Id, accepts: bool, exact: bool)
    requires Base(s, exact)
    requires !exact || ((s.active != Some(id) || !OnScreen(s.transport)) && s.armed != Some(id)) ==> Armed(s, exact)
    ensures Inv(Rescheduled(s, id, accepts), exact)
  {
    if s.active == Some(id) && OnScreen(s.transport) {
      EnabledHasIndex(s.clips, id);
      var i := ActiveIndex(s).value;
      if !s.clips[i].disabled {
        TakenInv(s, i, accepts, exact);
      }
    } else if s.armed == Some(id) {
      ArmNextInv(s, exact);
    }
  }

  /** Neither cueing a disabled element again nor re-arming mends what is wrong with the element on air or pending. */
  lemma RescheduledBase(s: State, id: Id, accepts: bool)
    requires !PendingLaw(s.clips, s.pending, true) || !ActiveLaw(s.clips, s.active, s.transport, true)
    requires s.active == Some(id) && OnScreen(s.transport) ==>
      var i := ActiveIndex(s); i.Some? && s.clips[i.value].disabled
    ensures !Inv(Rescheduled(s, id, accepts), true)
  {
  }

  lemma ReplaceInv(s: State, i: nat, c: Clip, accepts: bool)
    requires Inv(s, false) && i < |s.clips| && ValidClip(c)
    ensures Inv(Replace(s, i, c, accepts), false)
  {
    if c.id == s.clips[i].id {
      ReplacedBase(s, i, c, false);
      ReplacedHas(s.clips, i, c);
      RescheduledInv(s.(clips := s.clips[i := c]), c.id, accepts, false);
    }
  }

  /** An edit of a clip keeps the exact laws exactly when the clip's place and the new `disabled` say so. */
  lemma ReplaceExact(s: State, i: nat, c: Clip, accepts: bool)
    requires Inv(s, true) && i < |s.clips| && ValidClip(c) && c.id == s.clips[i].id
    ensures Inv(Replace(s, i, c, accepts), true) <==> ReplaceKeeps(s, i, c)
  {
    var t := s.(clips := s.clips[i := c]);
    ReplacedBase(s, i, c, true);
    IndexOfUnique(t.clips, i);
    if Base(t, true) {
      if s.armed != Some(c.id) && (s.active != Some(c.id) || !OnScreen(s.transport)) {
        ReplacedArmed(s, i, c);
        assert Rescheduled(t, c.id, accepts) == t;
      } else {
        RescheduledInv(t, c.id, accepts, true);
      }
    } else {
      RescheduledBase(t, c.id, accepts);
    }
  }

  /** In particular an edit that leaves `disabled` alone keeps them. */
  lemma ReplaceKeepsDisabled(s: State, i: nat, c: Clip)
    requires Inv(s, true) && i < |s.clips| && ValidClip(c) && c.id == s.clips[i].id && c.disabled == s.clips[i].disabled
    ensures ReplaceKeeps(s, i, c)
  {
    OnlyAt(s.clips, i);
    if s.armed.Some? {
      var a := IndexOf(s.clips, s.active).value;
      var j := ResolveAutomatic(s.clips, Some(a), s.mode).value;
      IndexOfUnique(s.clips, j);
      StepIsNearest(s.clips, a, Forward, Loops(s.mode), j);
    }
  }

  // ------------------------------------------------------------------ every run

  lemma ModeInv(s: State, mode: PlaylistMode, exact: bool)
    requires Inv(s, exact)
    ensures Inv(SetMode(s, mode), exact) && Inv(ArmNext(s), exact)
  {
    assert Base(s.(mode := mode), exact);
    ArmNextInv(s.(mode := mode), exact);
    ArmNextInv(s, exact);
  }

  /** What keeps the exact laws: everything but an edit that switches a clip on or off in the wrong place. */
  predicate KeepsLaws(s: State, op: Op) {
    op.DoReplace? && op.i < |s.clips| && op.clip.id == s.clips[op.i].id ==> ReplaceKeeps(s, op.i, op.clip)
  }

  lemma InvKept(s: State, op: Op, accepts: bool, exact: bool)
    requires Inv(s, exact) && Allowed(s, op) && (exact ==> KeepsLaws(s, op))
    ensures Inv(Apply(s, op, accepts), exact)
  {
    if IndexOk(s, op) {
      match op
      case DoSelect(i) => SelectInv(s, i, exact);
      case DoPlay => PlayInv(s, accepts, exact);
      case DoPause => PauseInv(s, exact);
      case DoStop => StopKeepsInv(s, exact);
      case DoElementPlay(i) => ElementPlayInv(s, i, accepts, exact);
      case DoElementPause(i) => ElementInv(s, i, exact);
      case DoElementStop(i) => ElementInv(s, i, exact);
      case DoNavigate(d) => NavigateInv(s, d, accepts, exact);
      case DoInsert(i, c) => InsertInv(s, i, c, exact);
      case DoRemove(i) => RemoveInv(s, i, exact);
      case DoReorder(i, j) => ReorderInv(s, i, j, exact);
      case DoDisable(i, disabled) => DisableInv(s, i, disabled, exact);
      case DoReplace(i, c) =>
        if !exact {
          ReplaceInv(s, i, c, accepts);
        } else if c.id == s.clips[i].id {
          ReplaceExact(s, i, c, accepts);
        }
      case DoMode(mode) => ModeInv(s, mode, exact);
      case DoTransition => ModeInv(s, s.mode, exact);
      case DoPoll(now, events) => PollInv(s, now, events, accepts, exact);
      case LengthKnown(_, _) =>
    }
  }

  /** A command, edit or honest report keeps the exact laws if and only if it is no such edit. */
  lemma ExactlyKept(s: State, op: Op, accepts: bool)
    requires Inv(s, true) && Allowed(s, op)
    ensures Inv(Apply(s, op, accepts), true) <==> KeepsLaws(s, op)
  {
    if KeepsLaws(s, op) {
      InvKept(s, op, accepts, true);
    } else {
      ReplaceExact(s, op.i, op.clip, accepts);
    }
  }

  ghost predicate StepTo(s: State, t: State, exact: bool) {
    exists op, accepts ::
      ValidClips(s.clips) && Allowed(s, op) && (exact ==> KeepsLaws(s, op)) && t == Apply(s, op, accepts)
  }

  /** Every state some run leads to; where `exact`, a run in which every edit of a clip keeps the exact laws. */
  least predicate Reachable[nat](s: State, exact: bool) {
    || (exists clips, mode, lengths :: ValidClips(clips) && Initial(clips, mode, lengths) == Some(s))
    || (exists r :: Reachable(r, exact) && StepTo(r, s, exact))
  }

  lemma InitialInv(clips: seq<Clip>, mode: PlaylistMode, lengths: map<Url, int>, exact: bool)
    requires ValidClips(clips) && Initial(clips, mode, lengths).Some?
    ensures Inv(Initial(clips, mode, lengths).value, exact)
  {
    EnabledAt(clips, FirstEnabled(clips).value);
  }

  least lemma ReachableInv[nat](s: State, exact: bool)
    requires Reachable(s, exact)
    ensures Inv(s, exact)
  {
    if clips, mode, lengths :| ValidClips(clips) && Initial(clips, mode, lengths) == Some(s) {
      InitialInv(clips, mode, lengths, exact);
    } else {
      var r :| Reachable(r, exact) && StepTo(r, s, exact);
      ReachableInv(r, exact);
      var op, accepts :|
        ValidClips(r.clips) && Allowed(r, op) && (exact ==> KeepsLaws(r, op)) && s == Apply(r, op, accepts);
      InvKept(r, op, accepts, exact);
    }
  }
}

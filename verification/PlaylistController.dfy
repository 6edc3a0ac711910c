/**
  The controller as the object it is. Every method is tied to the function that specifies it; every command, edit
  and report keeps the laws: `Valid` whatever was edited, `Exact` where the edits of clips allow it.
 */
module PlaylistController {
  import opened Options
  import opened PlaylistCommands
  import opened PlaylistLaws
  import opened PlaylistPolicy
  import opened PlaylistSafety

  lemma Kept(s: State, op: Op, accepts: bool)
    requires Inv(s, false) && Allowed(s, op)
    ensures Inv(Apply(s, op, accepts), false)
    ensures Inv(s, true) ==> (Inv(Apply(s, op, accepts), true) <==> KeepsLaws(s, op))
  {
    InvKept(s, op, accepts, false);
    if Inv(s, true) {
      ExactlyKept(s, op, accepts);
    }
  }

  class Controller {
    var clips: seq<Clip>
    var mode: PlaylistMode
    var lengths: map<Url, int>
    var transport: Transport
    var selected: Option<Id>
    var active: Option<Id>
    var pending: Option<Id>
    var armed: Option<Id>
    var requests: nat
    var pendingRequest: Option<nat>
    var armedRequest: Option<nat>
    var start: Option<int>
    var end: Option<int>
    var pausedAt: Option<int>
    var now: int
    var calls: seq<Call>

    ghost function View(): State
      reads this
    {
      State(clips, mode, lengths, transport, selected, active, pending, armed, requests, pendingRequest, armedRequest,
            start, end, pausedAt, now, calls)
    }

    /** The laws of any run. */
    ghost predicate Valid()
      reads this
    {
      Inv(View(), false)
    }

    /** ... and with those an edit of a clip may break by switching it on or off in passing. */
    ghost predicate Exact()
      reads this
    {
      Inv(View(), true)
    }

    constructor (clips: seq<Clip>, mode: PlaylistMode, lengths: map<Url, int>)
      requires Initial(clips, mode, lengths).Some? && ValidClips(clips)
      ensures View() == Initial(clips, mode, lengths).value
      ensures Valid() && Exact()
    {
      InitialInv(clips, mode, lengths, false);
      InitialInv(clips, mode, lengths, true);
      var first := FirstEnabled(clips);
      this.clips, this.mode, this.lengths, transport := clips, mode, lengths, Stopped;
      selected, active, pending, armed := Some(clips[first.value].id), None, None, None;
      requests, pendingRequest, armedRequest := 0, None, None;
      start, end, pausedAt, now, calls := None, None, None, 0, [];
    }

    // ---------------------------------------------------------------- scheduling

    /** One call to the backend. */
    method Ask(call: Call)
      modifies `calls
      ensures View() == Called(old(View()), call)
    {
      calls := calls + [call];
    }

    method DisarmNow()
      modifies `armed, `armedRequest, `calls
      ensures View() == Disarm(old(View()))
    {
      if armed.Some? {
        Ask(Park(armed.value));
      }
      armed, armedRequest := None, None;
    }

    method Schedule(i: nat)
      requires i < |clips|
      modifies `armed, `armedRequest, `requests, `calls
      ensures View() == Arm(old(View()), i)
    {
      armed := Some(clips[i].id);
      requests := requests + 1;
      armedRequest := Some(requests);
      Ask(Cue(requests, armed.value, end));
    }

    /** What is armed afterwards is where playback goes at the end, if that is known and elsewhere. */
    method ArmTheNext()
      modifies `armed, `armedRequest, `requests, `calls
      ensures View() == ArmNext(old(View()))
      ensures armed == (if Target(old(View())).None? then None else Some(clips[Target(old(View())).value].id))
    {
      ArmNextArms(View());
      DisarmNow();
      var index := IndexOf(clips, active);
      if index.Some? && end.Some? {
        var target := ResolveAutomatic(clips, index, mode);
        if target.Some? && target != index {
          Schedule(target.value);
        }
      }
    }

    method SpanAt(i: nat) returns (span: Option<int>)
      requires i < |clips| && ValidClips(clips)
      ensures span == SpanOf(View(), i)
    {
      span := Span(clips[i], LengthOf(lengths, clips[i]));
    }

    method DropRequests()
      modifies `pending, `pendingRequest, `armed, `armedRequest
      ensures View() == old(View()).(pending := None, pendingRequest := None, armed := None, armedRequest := None)
    {
      pending, pendingRequest := None, None;
      armed, armedRequest := None, None;
    }

    method SetTimes(start: int, span: Option<int>)
      modifies `start, `end
      ensures View() == old(View()).(start := Some(start), end := EndOf(start, span))
    {
      this.start := Some(start);
      end := if span.None? then None else Some(start + span.value);
    }

    method PutOnAir(id: Id, at: int, span: Option<int>)
      modifies this
      ensures View() == Aired(old(View()), id, at, span)
    {
      active := Some(id);
      DropRequests();
      transport, pausedAt := Playing, None;
      SetTimes(at, span);
    }

    /** _went_on_air(). */
    method GoOnAir(i: nat, at: int)
      requires i < |clips| && ValidClips(clips)
      modifies this
      ensures View() == WentOnAir(old(View()), i, at)
    {
      var previous := active;
      var span := SpanAt(i);
      PutOnAir(clips[i].id, at, span);
      if previous.Some? && previous != active {
        Ask(Park(previous.value));
      }
      ArmTheNext();
    }

    // ---------------------------------------------------------------- what the backend reports

    method NotifyFailed(request: Option<nat>) returns (known: bool)
      modifies `pending, `pendingRequest, `armed, `armedRequest, `transport
      ensures known <==> Live(old(View()), request)
      ensures View() == Failed(old(View()), request)
    {
      if request == pendingRequest && request.Some? {
        pending, pendingRequest := None, None;
        if active.None? {
          transport := Stopped;
        }
      } else if request == armedRequest && request.Some? {
        armed, armedRequest := None, None;
      } else {
        return false;
      }
      known := true;
    }

    /** An answer to a live request puts the element on air, and when it names the one cued, keeps the laws. */
    method NotifyOnAir(item: Id, request: Option<nat>, at: Option<int>) returns (known: bool)
      requires ValidClips(clips)
      requires Live(View(), request) ==> IndexOf(clips, Some(item)).Some?
      modifies this
      ensures known <==> Live(old(View()), request)
      ensures View() == Handle(old(View()), CameOnAir(item, request, at))
      ensures known ==> active == Some(item) && transport == Playing
                        && start == Some(if at.None? then old(now) else at.value)
      ensures old(Valid()) && Honest(old(calls), CameOnAir(item, request, at)) ==>
        Valid() && (known ==> Some(item) == old(pending) || Some(item) == old(armed))
    {
      AnswerIs(View(), item, request, at);
      if (request != pendingRequest && request != armedRequest) || request.None? {
        return false;
      }
      GoOnAir(IndexOf(clips, Some(item)).value, if at.None? then now else at.value);
      known := true;
    }

    // ---------------------------------------------------------------- taking and stopping

    method SelectElement(i: nat)
      requires i < |clips|
      modifies `selected
      ensures View() == Select(old(View()), i)
    {
      selected := Some(clips[i].id);
    }

    /** A manual take in flight. */
    method Expect(i: nat)
      requires i < |clips|
      modifies `pending, `pendingRequest, `requests, `transport
      ensures View() == old(View()).(pending := Some(clips[i].id), pendingRequest := Some(old(requests) + 1),
                                     requests := old(requests) + 1,
                                     transport := if active.None? then Loading else old(transport))
    {
      pending := Some(clips[i].id);
      requests := requests + 1;
      pendingRequest := Some(requests);
      if active.None? {
        transport := Loading;
      }
    }

    method CueElement(i: nat)
      requires i < |clips|
      modifies this
      ensures View() == Take(old(View()), i)
    {
      DisarmNow();
      Expect(i);
      Ask(Cue(requests, clips[i].id, None));
    }

    /** _take(); `accepts` is false when the backend's cue raises. */
    method TakeElement(i: nat, accepts: bool) returns (taken: bool)
      requires i < |clips|
      modifies this
      ensures taken <==> !old(clips)[i].disabled && accepts
      ensures View() == TakeOrFail(old(View()), i, accepts)
    {
      if clips[i].disabled {
        return false;
      }
      CueElement(i);
      if !accepts {
        var known := NotifyFailed(pendingRequest);
      }
      taken := accepts;
    }

    method ParkUsed()
      modifies `calls
      ensures View() == ParkIf(ParkIf(old(View()), if old(pending) != old(active) then old(pending) else None), old(active))
    {
      if pending.Some? && pending != active {
        Ask(Park(pending.value));
      }
      if active.Some? {
        Ask(Park(active.value));
      }
    }

    method Clear()
      modifies `pending, `pendingRequest, `transport, `start, `end, `pausedAt
      ensures View() == old(View()).(pending := None, pendingRequest := None, transport := Stopped,
                                     start := None, end := None, pausedAt := None)
    {
      pending, pendingRequest := None, None;
      transport := Stopped;
      start, end, pausedAt := None, None, None;
    }

    method Halt() returns (stopped: bool)
      modifies this
      ensures stopped <==> old(active).Some? || old(pending).Some?
      ensures View() == Stop(old(View()))
    {
      stopped := active.Some? || pending.Some?;
      if stopped {
        DisarmNow();
        ParkUsed();
        Clear();
      }
    }

    /** stop(): afterwards nothing plays and no report can put anything on air. */
    method StopNow() returns (stopped: bool)
      requires Valid()
      modifies this
      ensures Valid() && (old(Exact()) ==> Exact())
      ensures stopped <==> old(active).Some? || old(pending).Some?
      ensures View() == Stop(old(View()))
      ensures Silent(View())
    {
      Kept(View(), DoStop, true);
      StopSilences(View());
      stopped := Halt();
    }

    // ---------------------------------------------------------------- transport

    /** Afterwards, if it was playing, no automatic cut is scheduled and the time is kept. */
    method Pauses() returns (paused: bool)
      requires Valid()
      modifies `armed, `armedRequest, `transport, `pausedAt, `calls
      ensures Valid() && (old(Exact()) ==> Exact())
      ensures paused <==> old(transport) == Playing
      ensures View() == PauseNow(old(View()))
      ensures paused ==> transport == Paused && pausedAt == Some(now) && armed.None?
    {
      Kept(View(), DoPause, true);
      if transport != Playing || active.None? {
        return false;
      }
      DisarmNow();
      Ask(Pause(active.value));
      pausedAt := Some(now);
      transport := Paused;
      paused := true;
    }

    method Unpause()
      requires end.Some? ==> start.Some?
      modifies `transport, `start, `end, `pausedAt
      ensures View() == Shifted(old(View()))
    {
      transport := Playing;
      if end.Some? && pausedAt.Some? {
        var shift := now - pausedAt.value;
        start, end := Some(start.value + shift), Some(end.value + shift);
      }
      pausedAt := None;
    }

    method ResumeNow()
      requires transport == Paused && active.Some? && (end.Some? ==> start.Some?)
      modifies this
      ensures View() == Play(old(View()), true)
    {
      Ask(Resume(active.value));
      Unpause();
      ArmTheNext();
    }

    method Plays(accepts: bool) returns (played: bool)
      requires Valid()
      modifies this
      ensures Valid() && (old(Exact()) ==> Exact())
      ensures View() == Play(old(View()), accepts)
      ensures old(transport) == Paused ==> played && transport == Playing && active == old(active)
    {
      Kept(View(), DoPlay, accepts);
      played := false;
      if transport == Paused && active.Some? {
        ResumeNow();
        played := true;
      } else if transport != Playing && transport != Loading {
        var target := IndexOf(clips, active);
        if target.None? {
          target := FirstEnabled(clips);
        }
        if target.Some? {
          played := TakeElement(target.value, accepts);
        }
      }
    }

    method ElementPlays(i: nat, accepts: bool) returns (played: bool)
      requires Valid() && i < |clips|
      modifies this
      ensures Valid() && (old(Exact()) ==> Exact())
      ensures View() == ElementPlay(old(View()), i, accepts)
    {
      Kept(View(), DoElementPlay(i), accepts);
      Kept(View(), DoSelect(i), accepts);
      SelectElement(i);
      if active == Some(clips[i].id) && transport == Playing {
        played := false;
      } else if active == Some(clips[i].id) && transport == Paused {
        played := Plays(accepts);
      } else {
        played := TakeElement(i, accepts);
      }
    }

    method ElementPauses(i: nat) returns (paused: bool)
      requires Valid() && i < |clips|
      modifies `selected, `armed, `armedRequest, `transport, `pausedAt, `calls
      ensures Valid() && (old(Exact()) ==> Exact())
      ensures View() == ElementPause(old(View()), i)
    {
      Kept(View(), DoElementPause(i), true);
      Kept(View(), DoSelect(i), true);
      SelectElement(i);
      if active == Some(clips[i].id) {
        paused := Pauses();
      } else {
        Ask(Pause(clips[i].id));
        paused := true;
      }
    }

    method ElementStops(i: nat) returns (stopped: bool)
      requires Valid() && i < |clips|
      modifies this
      ensures Valid() && (old(Exact()) ==> Exact())
      ensures View() == ElementStop(old(View()), i)
    {
      Kept(View(), DoElementStop(i), true);
      Kept(View(), DoSelect(i), true);
      SelectElement(i);
      stopped := true;
      if active == Some(clips[i].id) || pending == Some(clips[i].id) {
        stopped := StopNow();
      } else if armed == Some(clips[i].id) {
        DisarmNow();
      } else {
        Ask(Park(clips[i].id));
      }
    }

    /** _navigation_origin(). */
    method Origin() returns (r: Option<nat>)
      ensures r == if IndexOf(clips, active).Some? then IndexOf(clips, active) else IndexOf(clips, selected)
    {
      r := IndexOf(clips, active);
      if r.None? {
        r := IndexOf(clips, selected);
      }
    }

    /** next() and prev(). */
    method Navigates(d: Direction, accepts: bool) returns (taken: bool)
      requires Valid()
      modifies this
      ensures Valid() && (old(Exact()) ==> Exact())
      ensures View() == Navigate(old(View()), d, accepts)
    {
      Kept(View(), DoNavigate(d), accepts);
      var origin := Origin();
      var target := ResolveManual(clips, origin, mode, d);
      taken := false;
      if target.Some? && target != origin {
        SelectElement(target.value);
        taken := TakeElement(target.value, accepts);
      }
    }

    // ---------------------------------------------------------------- polls

    /** The loop over the events poll_events() returned. */
    method DrainEvents(events: seq<Event>)
      requires ValidClips(clips)
      modifies this
      ensures View() == Drain(old(View()), events)
    {
      var k := 0;
      while k < |events|
        invariant 0 <= k <= |events| && ValidClips(clips)
        invariant Drain(View(), events[k..]) == Drain(old(View()), events)
      {
        assert events[k..][1..] == events[k + 1..];
        match events[k] {
          case CameOnAir(item, request, at) =>
            if IndexOf(clips, Some(item)).Some? {
              var known := NotifyOnAir(item, request, at);
            }
          case CueFailed(_, request) =>
            var known := NotifyFailed(request);
        }
        k := k + 1;
      }
    }

    method RepeatElement(i: nat)
      requires i < |clips| && ValidClips(clips) && end.Some?
      modifies `armed, `armedRequest, `requests, `start, `end, `calls
      ensures View() == Repeat(old(View()), i)
    {
      var span := SpanAt(i);
      SetTimes(end.value, span);
      ArmTheNext();
    }

    /** What poll() does once the events are handled. */
    method CompleteNow(accepts: bool)
      requires ValidClips(clips)
      modifies this
      ensures View() == Complete(old(View()), accepts)
    {
      if transport != Playing || end.None? || now < end.value {
        return;
      }
      var index := IndexOf(clips, active);
      var target := ResolveAutomatic(clips, index, mode);
      if target.None? {
        var stopped := Halt();
      } else if target == index {
        RepeatElement(index.value);
      } else if armed.None? && pending.None? {
        var taken := TakeElement(target.value, accepts);
      }
    }

    /** Only enabled elements are cued; reports that name what was cued keep the laws. */
    method PollAt(time: int, events: seq<Event>, accepts: bool)
      requires Valid()
      modifies this
      ensures View() == Poll(old(View()), time, events, accepts)
      ensures clips == old(clips) && Asks(clips, old(calls), calls)
      ensures (forall k :: 0 <= k < |events| ==> Honest(old(calls), events[k])) ==>
        Valid() && (old(Exact()) ==> Exact())
    {
      PollIs(View(), time, events, accepts);
      now := time;
      assert View() == old(View()).(now := time);
      DrainEvents(events);
      CompleteNow(accepts);
    }

    // ---------------------------------------------------------------- edits

    method InsertClip(i: nat, c: Clip) returns (inserted: bool)
      requires Valid() && i <= |clips| && ValidClip(c)
      modifies this
      ensures Valid() && (old(Exact()) ==> Exact())
      ensures inserted <==> IndexOf(old(clips), Some(c.id)).None? && |old(clips)| < SLOT_CAPACITY
      ensures View() == Insert(old(View()), i, c)
    {
      Kept(View(), DoInsert(i, c), true);
      if IndexOf(clips, Some(c.id)).Some? || |clips| >= SLOT_CAPACITY {
        return false;
      }
      clips := clips[..i] + [c] + clips[i..];
      ArmTheNext();
      inserted := true;
    }

    method TakeOffAir(id: Id)
      modifies this
      ensures var s := old(View());
        View() == if Some(id) == s.active || Some(id) == s.pending then Stop(s).(active := None) else s
    {
      if Some(id) == active || Some(id) == pending {
        var stopped := Halt();
        active := None;
      }
    }

    /** Takes what is about to leave the playlist out of use. */
    method Forget(id: Id)
      modifies this
      ensures clips == old(clips) && selected == old(selected)
      ensures View() == Forgotten(old(View()), id)
    {
      TakeOffAir(id);
      if Some(id) == armed {
        armed, armedRequest := None, None;
      }
      Ask(Remove(id));
    }

    method Reselect(i: nat)
      requires clips != []
      modifies `selected
      ensures View() == old(View()).(selected := Reselected(clips, i))
    {
      var candidate: nat := if i <= |clips| - 1 then i else |clips| - 1;
      if clips[candidate].disabled {
        var first := FirstEnabled(clips);
        selected := if first.None? then None else Some(clips[first.value].id);
      } else {
        selected := Some(clips[candidate].id);
      }
    }

    /** Everything of remove_clip() but the refusal. */
    method Drop(i: nat)
      requires i < |clips| && |clips| > 1
      modifies this
      ensures View() == RemoveAt(old(View()), i)
    {
      var id := clips[i].id;
      clips := clips[..i] + clips[i + 1..];
      assert View() == old(View()).(clips := PoppedAt(old(clips), i));
      Forget(id);
      if Some(id) == selected {
        Reselect(i);
      }
      ArmTheNext();
    }

    method RemoveClip(i: nat) returns (removed: bool)
      requires Valid() && i < |clips|
      modifies this
      ensures Valid() && (old(Exact()) ==> Exact())
      ensures removed <==> |old(clips)| > 1
      ensures View() == RemoveAt(old(View()), i)
    {
      Kept(View(), DoRemove(i), true);
      removed := |clips| > 1;
      if removed {
        Drop(i);
      }
    }

    method ReorderClip(from: nat, to: nat)
      requires Valid() && from < |clips| && to < |clips|
      modifies this
      ensures Valid() && (old(Exact()) ==> Exact())
      ensures View() == Reorder(old(View()), from, to)
    {
      Kept(View(), DoReorder(from, to), true);
      var c := clips[from];
      clips := clips[..from] + clips[from + 1..];
      clips := clips[..to] + [c] + clips[to..];
      ArmTheNext();
    }

    /** Takes what is no longer enabled out of use. */
    method Withdraw(id: Id)
      modifies this
      ensures clips == old(clips) && selected == old(selected) && mode == old(mode)
      ensures var t := old(View());
        View() ==
          if Some(id) == t.active || Some(id) == t.pending then Stop(t)
          else if Some(id) == t.armed then Disarm(t)
          else t
    {
      if Some(id) == active || Some(id) == pending {
        var stopped := Halt();
      } else if Some(id) == armed {
        DisarmNow();
      }
    }

    method SelectPast(i: nat)
      requires i < |clips|
      modifies `selected
      ensures View() == old(View()).(selected := SelectedPast(clips, i))
    {
      var target := StepEnabled(clips, i, Forward, true);
      selected := if target.None? then None else Some(clips[target.value].id);
    }

    /** set_disabled() to true, once the element is marked. */
    method SwitchOff(i: nat)
      requires i < |clips|
      modifies this
      ensures var s := old(View()); var id := s.clips[i].id;
        View() == Disabled(s, id, if Some(id) == s.selected then SelectedPast(s.clips, i) else s.selected)
    {
      Withdraw(clips[i].id);
      if Some(clips[i].id) == selected {
        SelectPast(i);
      }
      ArmTheNext();
    }

    method DisableClip(i: nat, disabled: bool)
      requires Valid() && i < |clips|
      modifies this
      ensures Valid() && (old(Exact()) ==> Exact())
      ensures View() == SetDisabled(old(View()), i, disabled)
    {
      Kept(View(), DoDisable(i, disabled), true);
      clips := clips[i := clips[i].(disabled := disabled)];
      assert View() == old(View()).(clips := Toggled(old(clips), i, disabled));
      if disabled {
        SwitchOff(i);
      } else {
        ArmTheNext();
      }
    }

    /** _reschedule_if_active(). */
    method Reschedule(id: Id, accepts: bool)
      requires active == Some(id) ==> IndexOf(clips, active).Some?
      modifies this
      ensures View() == Rescheduled(old(View()), id, accepts)
    {
      if active == Some(id) && (transport == Playing || transport == Paused) {
        var taken := TakeElement(IndexOf(clips, active).value, accepts);
      } else if armed == Some(id) {
        ArmTheNext();
      }
    }

    /** Keeps the exact laws if and only if ReplaceKeeps says so. */
    method ReplaceClip(i: nat, c: Clip, accepts: bool) returns (replaced: bool)
      requires Valid() && i < |clips| && ValidClip(c)
      modifies this
      ensures Valid()
      ensures old(Exact()) && replaced ==> (Exact() <==> ReplaceKeeps(old(View()), i, c))
      ensures replaced <==> c.id == old(clips)[i].id
      ensures View() == Replace(old(View()), i, c, accepts)
    {
      Kept(View(), DoReplace(i, c), accepts);
      replaced := c.id == clips[i].id;
      if replaced {
        clips := clips[i := c];
        assert View() == old(View()).(clips := old(clips)[i := c]);
        IndexOfSome(clips, i);
        Reschedule(c.id, accepts);
      }
    }

    method ChangeMode(mode: PlaylistMode)
      requires Valid()
      modifies this
      ensures Valid() && (old(Exact()) ==> Exact())
      ensures View() == SetMode(old(View()), mode)
    {
      Kept(View(), DoMode(mode), true);
      this.mode := mode;
      ArmTheNext();
    }

    /** set_transition(), without the transition itself. */
    method ChangeTransition()
      requires Valid()
      modifies this
      ensures Valid() && (old(Exact()) ==> Exact())
      ensures View() == ArmNext(old(View()))
    {
      Kept(View(), DoTransition, true);
      ArmTheNext();
    }
  }

  // ------------------------------------------------------------------ what the methods' results mean

  lemma AnswerIs(s: State, item: Id, request: Option<nat>, at: Option<int>)
    requires ValidClips(s.clips) && (Live(s, request) ==> IndexOf(s.clips, Some(item)).Some?)
    ensures var e := CameOnAir(item, request, at); var t := Handle(s, e);
      && (Live(s, request) ==> t.active == Some(item) && t.transport == Playing
                               && t.start == Some(if at.None? then s.now else at.value))
      && (Inv(s, false) && Honest(s.calls, e) ==>
            Inv(t, false) && (Live(s, request) ==> Some(item) == s.pending || Some(item) == s.armed))
  {
    var e := CameOnAir(item, request, at);
    if Live(s, request) {
      WentOnAirActive(s, IndexOf(s.clips, Some(item)).value, if at.None? then s.now else at.value);
    }
    if Inv(s, false) && Honest(s.calls, e) {
      HandleInv(s, e, false);
      if Live(s, request) {
        HonestNamesElement(s, e, false);
      }
    }
  }

  lemma StopSilences(s: State)
    requires Inv(s, false)
    ensures Silent(Stop(s))
  {
  }

  lemma IndexOfSome(clips: seq<Clip>, i: nat)
    requires i < |clips|
    ensures IndexOf(clips, Some(clips[i].id)).Some?
  {
  }

  lemma PollIs(s: State, now: int, events: seq<Event>, accepts: bool)
    requires Inv(s, false)
    ensures var t := Poll(s, now, events, accepts);
      && t.clips == s.clips && Asks(t.clips, s.calls, t.calls)
      && ((forall k :: 0 <= k < |events| ==> Honest(s.calls, events[k])) ==>
            Inv(t, false) && (Inv(s, true) ==> Inv(t, true)))
  {
    PollAsks(s, now, events, accepts);
    if forall k :: 0 <= k < |events| ==> Honest(s.calls, events[k]) {
      PollInv(s, now, events, accepts, false);
      if Inv(s, true) {
        PollInv(s, now, events, accepts, true);
      }
    }
  }
}

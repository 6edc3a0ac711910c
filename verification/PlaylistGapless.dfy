/**
  The controller composed with the in-memory backend, left to itself: nobody gives a command, and the
  pair is polled at arbitrary times. Elements then follow one another without a gap and without drift.
 */
module PlaylistGapless {
  import opened Options
  import opened PlaylistCommands
  import opened PlaylistPolicy

  // ------------------------------------------------------------------ the in-memory backend

  /** `events` are reported at the next poll, `scheduled` ones once their time has come. */
  datatype Backend = Backend(events: seq<Event>, scheduled: seq<Event>)

  predicate DueBy(e: Event, now: int) {
    e.CameOnAir? && e.at.Some? && e.at.value <= now
  }

  function Due(es: seq<Event>, now: int): (r: seq<Event>)
    ensures forall k :: 0 <= k < |r| ==> DueBy(r[k], now)
  {
    if es == [] then [] else (if DueBy(es[0], now) then [es[0]] else []) + Due(es[1..], now)
  }

  function NotDue(es: seq<Event>, now: int): (r: seq<Event>)
    ensures forall k :: 0 <= k < |r| ==> !DueBy(r[k], now)
  {
    if es == [] then [] else (if DueBy(es[0], now) then [] else [es[0]]) + NotDue(es[1..], now)
  }

  function Without(es: seq<Event>, item: Id): (r: seq<Event>)
    ensures forall k :: 0 <= k < |r| ==> r[k].item != item
  {
    if es == [] then [] else (if es[0].item == item then [] else [es[0]]) + Without(es[1..], item)
  }

  function Absorb(b: Backend, call: Call): Backend {
    match call
    case Cue(request, item, at) =>
      var e := CameOnAir(item, Some(request), at);
      if at.Some? then b.(scheduled := b.scheduled + [e]) else b.(events := b.events + [e])
    case Park(item) => b.(scheduled := Without(b.scheduled, item))
    case _ => b
  }

  function AbsorbAll(b: Backend, calls: seq<Call>): Backend
    decreases |calls|
  {
    if calls == [] then b else AbsorbAll(Absorb(b, calls[0]), calls[1..])
  }

  class InMemoryBackend {
    var events: seq<Event>
    var scheduled: seq<Event>

    ghost function View(): Backend
      reads this
    {
      Backend(events, scheduled)
    }

    constructor ()
      ensures View() == Backend([], [])
    {
      events, scheduled := [], [];
    }

    method CueItem(request: nat, item: Id, at: Option<int>)
      modifies this
      ensures View() == Absorb(old(View()), Cue(request, item, at))
    {
      var e := CameOnAir(item, Some(request), at);
      if at.Some? {
        scheduled := scheduled + [e];
      } else {
        events := events + [e];
      }
    }

    method ParkItem(item: Id)
      modifies this
      ensures View() == Absorb(old(View()), Park(item))
    {
      scheduled := Without(scheduled, item);
    }

    method PollEvents(now: int) returns (reported: seq<Event>)
      modifies this
      ensures reported == old(events) + Due(old(scheduled), now)
      ensures View() == Backend([], NotDue(old(scheduled), now))
    {
      var due := Due(scheduled, now);
      scheduled := NotDue(scheduled, now);
      reported, events := events + due, [];
    }
  }

  // ------------------------------------------------------------------ the closed system

  datatype Airing = Airing(index: nat, start: int)

  /** `aired`: what went on air, repeats included, and when. */
  datatype System = System(c: State, b: Backend, aired: seq<Airing>)

  function NewCalls(c: State, d: State): seq<Call> {
    if |c.calls| <= |d.calls| then d.calls[|c.calls|..] else []
  }

  function Airs(c: State, e: Event): seq<Airing> {
    match e
    case CueFailed(_, _) => []
    case CameOnAir(item, request, at) =>
      var i := IndexOf(c.clips, Some(item));
      if Live(c, request) && i.Some? then [Airing(i.value, if at.None? then c.now else at.value)] else []
  }

  function AirsAll(c: State, events: seq<Event>): seq<Airing>
    requires ValidClips(c.clips)
    decreases |events|
  {
    if events == [] then [] else Airs(c, events[0]) + AirsAll(Handle(c, events[0]), events[1..])
  }

  /** poll(), its first half: the backend reports, the controller takes the reports in. */
  function Report(y: System, now: int): System
    requires ValidClips(y.c.clips)
  {
    var events := y.b.events + Due(y.b.scheduled, now);
    var c := y.c.(now := now);
    var d := Drain(c, events);
    System(d, AbsorbAll(Backend([], NotDue(y.b.scheduled, now)), NewCalls(c, d)), y.aired + AirsAll(c, events))
  }

  predicate Repeats(c: State) {
    Finished(c) && Next(c).Some? && Next(c) == ActiveIndex(c)
  }

  /** ... and its second half. */
  function Finish(y: System): System
    requires ValidClips(y.c.clips)
  {
    var d := Complete(y.c, true);
    System(d, AbsorbAll(y.b, NewCalls(y.c, d)),
           if Repeats(y.c) then y.aired + [Airing(Next(y.c).value, y.c.end.value)] else y.aired)
  }

  function PollOnce(y: System, now: int): System
    requires ValidClips(y.c.clips)
  {
    Finish(Report(y, now))
  }

  /** A new playlist that has just been told to play. */
  function Started(clips: seq<Clip>, mode: PlaylistMode, lengths: map<Url, int>): System
    requires Initial(clips, mode, lengths).Some?
  {
    var c := Initial(clips, mode, lengths).value;
    System(Play(c, true), AbsorbAll(Backend([], []), Play(c, true).calls), [])
  }

  // ------------------------------------------------------------------ the three phases of a run

  datatype Setup = Setup(clips: seq<Clip>, mode: PlaylistMode, lengths: map<Url, int>)

  predicate GoodSetup(p: Setup) {
    Unique(p.clips) && ValidClips(p.clips) && FirstEnabled(p.clips).Some?
  }

  predicate Of(p: Setup, c: State) {
    c.clips == p.clips && c.mode == p.mode && c.lengths == p.lengths
  }

  function SpanIn(p: Setup, i: nat): Option<int>
    requires ValidClips(p.clips) && i < |p.clips|
  {
    Span(p.clips[i], LengthOf(p.lengths, p.clips[i]))
  }

  predicate Waiting(p: Setup, y: System)
    requires GoodSetup(p)
  {
    var first := FirstEnabled(p.clips).value;
    && y.c.pending == Some(p.clips[first].id) && y.c.pendingRequest.Some?
    && y.c.armed.None? && y.c.armedRequest.None? && y.c.active.None? && y.c.end.None? && y.c.transport == Loading
    && y.b == Backend([CameOnAir(p.clips[first].id, y.c.pendingRequest, None)], []) && y.aired == []
  }

  /** Element `i` is on air since `start`, and what follows it is armed and scheduled for its end. */
  predicate PlayingAt(p: Setup, c: State, b: Backend, i: nat, start: int)
    requires GoodSetup(p)
  {
    && i < |p.clips| && c.active == Some(p.clips[i].id) && c.transport == Playing
    && c.start == Some(start) && c.end == EndOf(start, SpanIn(p, i)) && c.pending.None? && c.pendingRequest.None?
    && match Target(c)
       case None => c.armed.None? && c.armedRequest.None? && b == Backend([], [])
       case Some(j) => c.armed == Some(c.clips[j].id) && c.armedRequest.Some?
                       && b == Backend([], [CameOnAir(c.clips[j].id, c.armedRequest, c.end)])
  }

  predicate Over(p: Setup, c: State, b: Backend, i: nat) {
    && i < |p.clips| && c.transport == Stopped
    && c.pending.None? && c.pendingRequest.None? && c.armed.None? && c.armedRequest.None?
    && c.end.None? && b == Backend([], []) && ResolveAutomatic(p.clips, Some(i), p.mode).None?
  }

  predicate InPhase(p: Setup, y: System)
    requires GoodSetup(p)
  {
    && Of(p, y.c)
    && if y.aired == [] then Waiting(p, y)
       else
         var last := y.aired[|y.aired| - 1];
         PlayingAt(p, y.c, y.b, last.index, last.start) || Over(p, y.c, y.b, last.index)
  }

  /** Each starts exactly where the one before it ended, and is what follows it. */
  predicate Follows(p: Setup, a: Airing, b: Airing)
    requires ValidClips(p.clips)
  {
    && a.index < |p.clips| && ResolveAutomatic(p.clips, Some(a.index), p.mode) == Some(b.index)
    && SpanIn(p, a.index).Some? && b.start == a.start + SpanIn(p, a.index).value
  }

  predicate Chain(p: Setup, aired: seq<Airing>)
    requires GoodSetup(p)
  {
    && (aired != [] ==> aired[0].index == FirstEnabled(p.clips).value)
    && (forall k :: 0 <= k < |aired| - 1 ==> Follows(p, aired[k], aired[k + 1]))
  }

  // ------------------------------------------------------------------ one poll

  lemma ActiveAt(p: Setup, c: State, i: nat)
    requires GoodSetup(p) && Of(p, c) && i < |p.clips| && c.active == Some(p.clips[i].id)
    ensures ActiveIndex(c) == Some(i) && Next(c) == ResolveAutomatic(p.clips, Some(i), p.mode)
  {
    IndexOfUnique(p.clips, i);
  }

  /** Whatever was on air before, going on air ends in the playing phase. */
  lemma AirsPlaying(p: Setup, c: State, i: nat, at: int)
    requires GoodSetup(p) && Of(p, c) && i < |p.clips|
    ensures var d := WentOnAir(c, i, at);
      && Of(p, d) && |c.calls| <= |d.calls|
      && PlayingAt(p, d, AbsorbAll(Backend([], []), NewCalls(c, d)), i, at)
  {
    var t := OnAir(c, i, at);
    var u := if c.active.Some? && c.active != t.active then Called(t, Park(c.active.value)) else t;
    ActiveAt(p, u, i);
    var d := WentOnAir(c, i, at);
    ActiveAt(p, d, i);
    assert Target(d) == Target(u);
    ArmedCalls(c, u);
  }

  /** What the calls made by going on air leave scheduled. */
  lemma ArmedCalls(c: State, u: State)
    requires u.armed.None? && (u.calls == c.calls || exists x :: u.calls == c.calls + [Park(x)])
    ensures AbsorbAll(Backend([], []), NewCalls(c, ArmNext(u))) ==
      if Target(u).None? then Backend([], [])
      else Backend([], [CameOnAir(u.clips[Target(u).value].id, Some(u.requests + 1), u.end)])
  {
    assert Target(Disarm(u)) == Target(u);
    var calls := NewCalls(c, ArmNext(u));
    var cues := if Target(u).None? then [] else [Cue(u.requests + 1, u.clips[Target(u).value].id, u.end)];
    if u.calls == c.calls {
      assert calls == cues;
    } else {
      var x :| u.calls == c.calls + [Park(x)];
      assert calls == [Park(x)] + cues;
      AbsorbHead(Backend([], []), Park(x), cues);
    }
    if cues != [] {
      AbsorbHead(Backend([], []), cues[0], []);
    }
  }

  lemma AbsorbHead(b: Backend, call: Call, rest: seq<Call>)
    ensures AbsorbAll(b, [call] + rest) == AbsorbAll(Absorb(b, call), rest)
    ensures AbsorbAll(b, [call]) == Absorb(b, call)
  {
    assert ([call] + rest)[1..] == rest;
    assert [call][1..] == [];
  }

  /** A drained report of at most one event. */
  lemma DrainOne(c: State, e: Event)
    requires ValidClips(c.clips)
    ensures Drain(c, [e]) == Handle(c, e) && AirsAll(c, [e]) == Airs(c, e)
    ensures Drain(c, []) == c && AirsAll(c, []) == []
  {
    assert [e][1..] == [];
    assert Drain(Handle(c, e), []) == Handle(c, e);
  }

  lemma ReportFirst(p: Setup, y: System, now: int)
    requires GoodSetup(p) && Of(p, y.c) && Waiting(p, y)
    ensures var z := Report(y, now);
      && Of(p, z.c) && z.aired == [Airing(FirstEnabled(p.clips).value, now)]
      && PlayingAt(p, z.c, z.b, FirstEnabled(p.clips).value, now)
  {
    var c, first := y.c.(now := now), FirstEnabled(p.clips).value;
    var e := CameOnAir(p.clips[first].id, y.c.pendingRequest, None);
    assert y.b.events + Due(y.b.scheduled, now) == [e];
    DrainOne(c, e);
    IndexOfUnique(p.clips, first);
    AirsPlaying(p, c, first, now);
  }

  lemma DueOne(e: Event, now: int)
    ensures Due([e], now) == (if DueBy(e, now) then [e] else []) && NotDue([e], now) == (if DueBy(e, now) then [] else [e])
  {
    assert [e][1..] == [];
  }

  /** Nothing is reported, so nothing changes but the clock. */
  lemma ReportNothing(p: Setup, y: System, now: int)
    requires ValidClips(y.c.clips) && y.b.events == [] && Due(y.b.scheduled, now) == []
    ensures Report(y, now) == System(y.c.(now := now), Backend([], NotDue(y.b.scheduled, now)), y.aired)
  {
    assert y.b.events + Due(y.b.scheduled, now) == [];
    assert NewCalls(y.c.(now := now), y.c.(now := now)) == [];
  }

  lemma ReportNext(p: Setup, y: System, i: nat, start: int, now: int)
    requires GoodSetup(p) && Of(p, y.c) && PlayingAt(p, y.c, y.b, i, start)
    ensures var z := Report(y, now);
      && Of(p, z.c)
      && if Target(y.c).Some? && y.c.end.value <= now then
           var b := Airing(Target(y.c).value, y.c.end.value);
           z.aired == y.aired + [b] && PlayingAt(p, z.c, z.b, b.index, b.start) && Follows(p, Airing(i, start), b)
         else z == System(y.c.(now := now), y.b, y.aired)
  {
    ActiveAt(p, y.c, i);
    if Target(y.c).None? {
      ReportNothing(p, y, now);
    } else {
      var c, j := y.c.(now := now), Target(y.c).value;
      var e := CameOnAir(y.c.clips[j].id, y.c.armedRequest, y.c.end);
      DueOne(e, now);
      if DueBy(e, now) {
        assert y.b.events + Due(y.b.scheduled, now) == [e];
        DrainOne(c, e);
        IndexOfUnique(p.clips, j);
        AirsPlaying(p, c, j, y.c.end.value);
      } else {
        ReportNothing(p, y, now);
      }
    }
  }

  lemma RepeatPlaying(p: Setup, y: System, i: nat, start: int)
    requires GoodSetup(p) && Of(p, y.c) && PlayingAt(p, y.c, y.b, i, start) && Repeats(y.c)
    ensures var z := Finish(y); var b := Airing(i, y.c.end.value);
      && Of(p, z.c) && z.aired == y.aired + [b] && PlayingAt(p, z.c, z.b, b.index, b.start)
      && Follows(p, Airing(i, start), b)
  {
    ActiveAt(p, y.c, i);
    var t := Rolled(y.c, i);
    ActiveAt(p, t, i);
    assert Target(t).None?;
    assert NewCalls(y.c, ArmNext(t)) == [];
  }

  lemma StopPlaying(p: Setup, y: System, i: nat, start: int)
    requires GoodSetup(p) && Of(p, y.c) && PlayingAt(p, y.c, y.b, i, start) && Finished(y.c) && Next(y.c).None?
    ensures var z := Finish(y); Of(p, z.c) && z.aired == y.aired && Over(p, z.c, z.b, i)
  {
    ActiveAt(p, y.c, i);
    assert NewCalls(y.c, Stop(y.c)) == [Park(y.c.active.value)];
    AbsorbHead(y.b, Park(y.c.active.value), []);
  }

  lemma FinishPlaying(p: Setup, y: System, i: nat, start: int)
    requires GoodSetup(p) && Of(p, y.c) && PlayingAt(p, y.c, y.b, i, start)
    ensures var z := Finish(y);
      && Of(p, z.c)
      && if !Finished(y.c) then z == y
         else if Next(y.c).None? then z.aired == y.aired && Over(p, z.c, z.b, i)
         else if Repeats(y.c) then
           var b := Airing(i, y.c.end.value);
           z.aired == y.aired + [b] && PlayingAt(p, z.c, z.b, b.index, b.start) && Follows(p, Airing(i, start), b)
         else z == y
  {
    ActiveAt(p, y.c, i);
    if Repeats(y.c) {
      RepeatPlaying(p, y, i, start);
    } else if Finished(y.c) && Next(y.c).None? {
      StopPlaying(p, y, i, start);
    } else {
      assert NewCalls(y.c, y.c) == [];
    }
  }

  lemma ChainGrows(p: Setup, aired: seq<Airing>, b: Airing)
    requires GoodSetup(p) && Chain(p, aired)
    requires if aired == [] then b.index == FirstEnabled(p.clips).value else Follows(p, aired[|aired| - 1], b)
    ensures Chain(p, aired + [b])
  {
  }

  predicate Good(p: Setup, y: System) {
    GoodSetup(p) && InPhase(p, y) && Chain(p, y.aired)
  }

  predicate Ended(p: Setup, y: System) {
    y.aired != [] && GoodSetup(p) && Over(p, y.c, y.b, y.aired[|y.aired| - 1].index)
  }

  /** A poll that finds the element on air at its end either moves on or stops. */
  predicate Moves(p: Setup, y: System, z: System, now: int) {
    && (Ended(p, y) ==> Ended(p, z))
    && (y.aired == [] || (y.c.end.Some? && y.c.end.value <= now) ==> |z.aired| > |y.aired| || Ended(p, z))
  }

  /** One more on air after those that were. */
  lemma GoodGrows(p: Setup, y: System, z: System, b: Airing)
    requires GoodSetup(p) && Chain(p, y.aired) && y.aired != [] && Follows(p, y.aired[|y.aired| - 1], b)
    requires Of(p, z.c) && z.aired == y.aired + [b] && PlayingAt(p, z.c, z.b, b.index, b.start)
    ensures Good(p, z) && y.aired <= z.aired && |z.aired| > |y.aired|
  {
    ChainGrows(p, y.aired, b);
    assert z.aired[|z.aired| - 1] == b;
  }

  lemma ReportPlaying(p: Setup, y: System, last: Airing, now: int)
    requires Good(p, y) && y.aired != [] && last == y.aired[|y.aired| - 1]
    requires PlayingAt(p, y.c, y.b, last.index, last.start)
    ensures var z := Report(y, now);
      && Good(p, z) && y.aired <= z.aired
      && (|z.aired| > |y.aired| || (z.c == y.c.(now := now) && z.aired == y.aired))
  {
    var z := Report(y, now);
    ReportNext(p, y, last.index, last.start, now);
    if Target(y.c).Some? && y.c.end.value <= now {
      GoodGrows(p, y, z, Airing(Target(y.c).value, y.c.end.value));
    } else {
      assert PlayingAt(p, z.c, z.b, last.index, last.start);
    }
  }

  lemma ReportKept(p: Setup, y: System, now: int)
    requires Good(p, y)
    ensures var z := Report(y, now);
      && Good(p, z) && y.aired <= z.aired && z.aired != [] && (Ended(p, y) ==> Ended(p, z))
      && (|z.aired| > |y.aired| || (z.c == y.c.(now := now) && z.aired == y.aired))
  {
    if y.aired == [] {
      ReportFirst(p, y, now);
      ChainGrows(p, [], Airing(FirstEnabled(p.clips).value, now));
    } else {
      var last := y.aired[|y.aired| - 1];
      if PlayingAt(p, y.c, y.b, last.index, last.start) {
        ReportPlaying(p, y, last, now);
      } else {
        ReportNothing(p, y, now);
      }
    }
  }

  lemma FinishKept(p: Setup, y: System)
    requires Good(p, y) && y.aired != []
    ensures var z := Finish(y);
      && Good(p, z) && y.aired <= z.aired && (Ended(p, y) ==> Ended(p, z))
      && (Finished(y.c) && Target(y.c).None? ==> |z.aired| > |y.aired| || Ended(p, z))
  {
    var last := y.aired[|y.aired| - 1];
    if PlayingAt(p, y.c, y.b, last.index, last.start) {
      ActiveAt(p, y.c, last.index);
      FinishPlaying(p, y, last.index, last.start);
      if Repeats(y.c) {
        ChainGrows(p, y.aired, Airing(last.index, y.c.end.value));
      }
    } else {
      assert NewCalls(y.c, y.c) == [];
    }
  }

  lemma TargetIgnoresClock(c: State, now: int)
    ensures Target(c.(now := now)) == Target(c)
  {
  }

  lemma PollKept(p: Setup, y: System, now: int)
    requires Good(p, y)
    ensures var z := PollOnce(y, now); Good(p, z) && y.aired <= z.aired && Moves(p, y, z, now)
  {
    ReportKept(p, y, now);
    var r := Report(y, now);
    FinishKept(p, r);
    TargetIgnoresClock(y.c, now);
    if y.aired != [] && y.c.end.Some? && y.c.end.value <= now {
      var last := y.aired[|y.aired| - 1];
      if PlayingAt(p, y.c, y.b, last.index, last.start) {
        ReportNext(p, y, last.index, last.start, now);
      }
    }
  }

  lemma StartedGood(p: Setup)
    requires GoodSetup(p) && Initial(p.clips, p.mode, p.lengths).Some?
    ensures Good(p, Started(p.clips, p.mode, p.lengths))
  {
    var c := Initial(p.clips, p.mode, p.lengths).value;
    var first := FirstEnabled(p.clips).value;
    var d := Play(c, true);
    assert d.calls == [Cue(1, p.clips[first].id, None)];
    AbsorbHead(Backend([], []), d.calls[0], []);
  }

  // ------------------------------------------------------------------ main results

  /** The pair polled at these times, one after another. */
  function Polled(y: System, times: seq<int>): System
    requires ValidClips(y.c.clips)
    decreases |times|
  {
    if times == [] then y
    else
      var z := PollOnce(y, times[0]);
      if z.c.clips == y.c.clips then Polled(z, times[1..]) else z
  }

  lemma {:induction false} PolledGood(p: Setup, y: System, times: seq<int>)
    requires Good(p, y)
    ensures Good(p, Polled(y, times))
    decreases |times|
  {
    if times != [] {
      PollKept(p, y, times[0]);
      PolledGood(p, PollOnce(y, times[0]), times[1..]);
    }
  }

  /** What the elements up to the k-th take together. */
  function Elapsed(p: Setup, aired: seq<Airing>, k: nat): int
    requires ValidClips(p.clips) && k <= |aired| && forall m :: 0 <= m < |aired| ==> aired[m].index < |p.clips|
  {
    if k == 0 then 0
    else
      var span := SpanIn(p, aired[k - 1].index);
      Elapsed(p, aired, k - 1) + if span.Some? then span.value else 0
  }

  lemma {:induction false} ChainSums(p: Setup, aired: seq<Airing>, k: nat)
    requires GoodSetup(p) && Chain(p, aired) && k < |aired| && forall m :: 0 <= m < |aired| ==> aired[m].index < |p.clips|
    ensures aired[k].start == aired[0].start + Elapsed(p, aired, k)
    decreases k
  {
    if k > 0 {
      ChainSums(p, aired, k - 1);
      assert Follows(p, aired[k - 1], aired[k - 1 + 1]);
    }
  }

  lemma ChainInRange(p: Setup, aired: seq<Airing>)
    requires GoodSetup(p) && Chain(p, aired)
    ensures forall m :: 0 <= m < |aired| ==> aired[m].index < |p.clips|
  {
    forall m | 0 <= m < |aired|
      ensures aired[m].index < |p.clips|
    {
      if m > 0 {
        assert Follows(p, aired[m - 1], aired[m - 1 + 1]);
      }
    }
  }

  /**
    Whatever the polling times, the k-th start is the first start plus the spans in between, self-repeats
    included, and each element is the automatic successor of the one before it.
   */
  lemma Gapless(p: Setup, times: seq<int>, k: nat)
    requires GoodSetup(p) && Initial(p.clips, p.mode, p.lengths).Some?
    requires k < |Polled(Started(p.clips, p.mode, p.lengths), times).aired|
    ensures var aired := Polled(Started(p.clips, p.mode, p.lengths), times).aired;
      && (forall m :: 0 <= m < |aired| ==> aired[m].index < |p.clips|)
      && aired[k].start == aired[0].start + Elapsed(p, aired, k)
      && (k > 0 ==> SpanIn(p, aired[k - 1].index).Some?
                    && ResolveAutomatic(p.clips, Some(aired[k - 1].index), p.mode) == Some(aired[k].index))
  {
    StartedGood(p);
    PolledGood(p, Started(p.clips, p.mode, p.lengths), times);
    var aired := Polled(Started(p.clips, p.mode, p.lengths), times).aired;
    ChainInRange(p, aired);
    ChainSums(p, aired, k);
    if k > 0 {
      assert Follows(p, aired[k - 1], aired[k - 1 + 1]);
    }
  }

  // ------------------------------------------------------------------ PlayAll

  /** The enabled elements from place k on, in playlist order. */
  function EnabledFrom(clips: seq<Clip>, k: nat): seq<nat>
    requires k <= |clips|
    decreases |clips| - k
  {
    if k == |clips| then [] else (if clips[k].disabled then [] else [k]) + EnabledFrom(clips, k + 1)
  }

  lemma {:induction false} EnabledHead(clips: seq<Clip>, k: nat)
    requires k <= |clips|
    ensures match FirstEnabledFrom(clips, k)
      case None => EnabledFrom(clips, k) == []
      case Some(j) => EnabledFrom(clips, k) == [j] + EnabledFrom(clips, j + 1)
    decreases |clips| - k
  {
    if k < |clips| && clips[k].disabled {
      EnabledHead(clips, k + 1);
    }
  }

  function Indices(aired: seq<Airing>): (r: seq<nat>)
    ensures |r| == |aired|
  {
    if aired == [] then [] else Indices(aired[..|aired| - 1]) + [aired[|aired| - 1].index]
  }

  lemma OneMore(before: seq<nat>, b: nat, rest: seq<nat>, last: seq<nat>, all: seq<nat>)
    requires before + rest == all && rest == [b] + last
    ensures (before + [b]) + last == all
  {
    assert before + ([b] + last) == (before + [b]) + last;
  }

  lemma ChainBefore(p: Setup, aired: seq<Airing>)
    requires GoodSetup(p) && Chain(p, aired) && |aired| > 1
    ensures var n := |aired| - 1; Chain(p, aired[..n]) && Follows(p, aired[n - 1], aired[n])
  {
    var n := |aired| - 1;
    assert Follows(p, aired[n - 1], aired[n - 1 + 1]);
  }

  /** What has been on air, and what is still to come, make up the enabled elements, each once. */
  lemma {:induction false} PlayAllOrder(p: Setup, aired: seq<Airing>)
    requires GoodSetup(p) && Chain(p, aired) && p.mode == PlayAll && aired != []
    requires forall m :: 0 <= m < |aired| ==> aired[m].index < |p.clips|
    ensures Indices(aired) + EnabledFrom(p.clips, aired[|aired| - 1].index + 1) == EnabledFrom(p.clips, 0)
    decreases |aired|
  {
    var n := |aired| - 1;
    if n == 0 {
      EnabledHead(p.clips, 0);
      assert Indices(aired) == [aired[0].index];
    } else {
      var before, a, b := aired[..n], aired[n - 1].index, aired[n].index;
      ChainBefore(p, aired);
      PlayAllOrder(p, before);
      NextIsHead(p, aired[n - 1], aired[n]);
      OneMore(Indices(before), b, EnabledFrom(p.clips, a + 1), EnabledFrom(p.clips, b + 1), EnabledFrom(p.clips, 0));
    }
  }

  lemma NextIsHead(p: Setup, a: Airing, b: Airing)
    requires GoodSetup(p) && p.mode == PlayAll && Follows(p, a, b)
    ensures b.index < |p.clips|
    ensures EnabledFrom(p.clips, a.index + 1) == [b.index] + EnabledFrom(p.clips, b.index + 1)
  {
    PlayAllNext(p.clips, a.index);
    EnabledHead(p.clips, a.index + 1);
  }

  /**
    Under PlayAll every enabled element goes on air, from the first, in order, each once; and once the
    transport stops none is left out.
   */
  lemma PlayAllPlaysEachOnce(p: Setup, times: seq<int>)
    requires GoodSetup(p) && Initial(p.clips, p.mode, p.lengths).Some? && p.mode == PlayAll
    ensures var y := Polled(Started(p.clips, p.mode, p.lengths), times);
      && Indices(y.aired) <= EnabledFrom(p.clips, 0)
      && (y.c.transport == Stopped ==> Indices(y.aired) == EnabledFrom(p.clips, 0))
  {
    StartedGood(p);
    PolledGood(p, Started(p.clips, p.mode, p.lengths), times);
    PlayAllSoFar(p, Polled(Started(p.clips, p.mode, p.lengths), times));
  }

  lemma PlayAllSoFar(p: Setup, y: System)
    requires Good(p, y) && p.mode == PlayAll
    ensures Indices(y.aired) <= EnabledFrom(p.clips, 0)
    ensures y.c.transport == Stopped ==> Indices(y.aired) == EnabledFrom(p.clips, 0)
  {
    if y.aired != [] {
      ChainInRange(p, y.aired);
      PlayAllOrder(p, y.aired);
      if y.c.transport == Stopped {
        NothingLeft(p, y.aired[|y.aired| - 1].index);
      }
    }
  }

  /** Playback ends only after the last enabled element, unless the element loops for ever. */
  lemma NothingLeft(p: Setup, i: nat)
    requires GoodSetup(p) && p.mode == PlayAll && i < |p.clips| && ResolveAutomatic(p.clips, Some(i), p.mode).None?
    ensures EnabledFrom(p.clips, i + 1) == []
  {
    PlayAllNext(p.clips, i);
    EnabledHead(p.clips, i + 1);
  }

  /** Each of these polls comes when what is on air has reached its end. */
  predicate Late(y: System, times: seq<int>)
    requires ValidClips(y.c.clips)
    decreases |times|
  {
    times != [] ==>
      && (y.aired == [] || y.c.end.None? || y.c.end.value <= times[0])
      && var z := PollOnce(y, times[0]);
      z.c.clips == y.c.clips ==> Late(z, times[1..])
  }

  predicate AllKnown(p: Setup)
    requires ValidClips(p.clips)
  {
    forall i :: 0 <= i < |p.clips| && !p.clips[i].disabled ==> SpanIn(p, i).Some?
  }

  lemma AiredBound(p: Setup, y: System)
    requires Good(p, y) && p.mode == PlayAll
    ensures |y.aired| <= |EnabledFrom(p.clips, 0)|
    ensures y.aired != [] ==> !p.clips[y.aired[|y.aired| - 1].index].disabled
  {
    if y.aired != [] {
      ChainInRange(p, y.aired);
      PlayAllOrder(p, y.aired);
      var n := |y.aired| - 1;
      if n > 0 {
        assert Follows(p, y.aired[n - 1], y.aired[n - 1 + 1]);
        PlayAllNext(p.clips, y.aired[n - 1].index);
      }
    }
  }

  /** ... and then the transport is Stopped: one poll per element and one more are enough. */
  lemma {:induction false} PlayAllStops(p: Setup, y: System, times: seq<int>)
    requires Good(p, y) && p.mode == PlayAll && AllKnown(p) && Late(y, times)
    requires |times| > |EnabledFrom(p.clips, 0)| - |y.aired| || Ended(p, y)
    ensures Ended(p, Polled(y, times)) && Polled(y, times).c.transport == Stopped
    decreases |times|
  {
    AiredBound(p, y);
    if times != [] {
      var z := PollOnce(y, times[0]);
      PollKept(p, y, times[0]);
      PlayAllStops(p, z, times[1..]);
    }
  }
}

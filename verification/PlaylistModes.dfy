/** What each playlist mode comes to when the playlist is left to play, whatever the polling times. */
module PlaylistModes {
  import opened Options
  import opened PlaylistCommands
  import opened PlaylistGapless
  import opened PlaylistPolicy

  /** The playlist that was told to play, after these polls. */
  function Run(p: Setup, times: seq<int>): System
    requires GoodSetup(p) && Initial(p.clips, p.mode, p.lengths).Some?
  {
    Polled(Started(p.clips, p.mode, p.lengths), times)
  }

  lemma RunGood(p: Setup, times: seq<int>)
    requires GoodSetup(p) && Initial(p.clips, p.mode, p.lengths).Some?
    ensures Good(p, Run(p, times)) && Run(p, times).c.clips == p.clips
  {
    StartedGood(p);
    PolledGood(p, Started(p.clips, p.mode, p.lengths), times);
  }

  function First(p: Setup): nat
    requires GoodSetup(p)
  {
    FirstEnabled(p.clips).value
  }

  // ------------------------------------------------------------------ PlayCurrent

  lemma OneOnAir(p: Setup, y: System)
    requires Good(p, y) && p.mode == PlayCurrent
    ensures |y.aired| <= 1 && (y.aired != [] ==> y.aired[0].index == First(p))
  {
    if |y.aired| > 1 {
      assert Follows(p, y.aired[0], y.aired[0 + 1]);
      CurrentOnlyNext(p.clips, y.aired[0].index);
    }
  }

  /** Under PlayCurrent the first enabled element goes on air, once, and nothing else does. */
  lemma PlayCurrentPlaysOne(p: Setup, times: seq<int>)
    requires GoodSetup(p) && Initial(p.clips, p.mode, p.lengths).Some? && p.mode == PlayCurrent
    ensures var aired := Run(p, times).aired; |aired| <= 1 && (aired != [] ==> aired[0].index == First(p))
  {
    RunGood(p, times);
    OneOnAir(p, Run(p, times));
  }

  /** The element on air, while it is. */
  lemma OnAirUntil(p: Setup, y: System)
    requires Good(p, y) && y.aired != []
    ensures var last := y.aired[|y.aired| - 1];
      && last.index < |p.clips|
      && (Ended(p, y) || (y.c.transport == Playing && y.c.end == EndOf(last.start, SpanIn(p, last.index))))
  {
  }

  lemma StillOnAir(p: Setup, y: System, now: int)
    requires Good(p, y) && y.aired != [] && y.c.end.Some? && y.c.end.value > now && y.c.transport == Playing
    ensures PollOnce(y, now).c.transport == Playing && PollOnce(y, now).aired == y.aired
  {
    var last := y.aired[|y.aired| - 1];
    assert PlayingAt(p, y.c, y.b, last.index, last.start);
    ReportNext(p, y, last.index, last.start, now);
    FinishPlaying(p, Report(y, now), last.index, last.start);
  }

  /** ... and a poll leaves the transport Stopped exactly from the end of the element on, if that is known. */
  lemma PlayCurrentStops(p: Setup, times: seq<int>, now: int)
    requires GoodSetup(p) && Initial(p.clips, p.mode, p.lengths).Some? && p.mode == PlayCurrent
    requires SpanIn(p, First(p)).Some? && Run(p, times).aired != [] && Run(p, times).c.transport == Playing
    ensures Run(p, times).c.clips == p.clips
    ensures PollOnce(Run(p, times), now).c.transport == Stopped <==>
      now >= Run(p, times).aired[0].start + SpanIn(p, First(p)).value
  {
    RunGood(p, times);
    var y := Run(p, times);
    OneOnAir(p, y);
    OnAirUntil(p, y);
    PollKept(p, y, now);
    OneOnAir(p, PollOnce(y, now));
    if now < y.c.end.value {
      StillOnAir(p, y, now);
    }
  }

  // ------------------------------------------------------------------ LoopCurrent

  lemma {:induction false} AllFirst(p: Setup, aired: seq<Airing>, k: nat)
    requires GoodSetup(p) && Chain(p, aired) && p.mode == LoopCurrent && k < |aired|
    ensures aired[k].index == First(p)
    ensures k > 0 ==> SpanIn(p, First(p)).Some? && aired[k].start == aired[0].start + k * SpanIn(p, First(p)).value
    decreases k
  {
    if k > 0 {
      AllFirst(p, aired, k - 1);
      assert Follows(p, aired[k - 1], aired[k - 1 + 1]);
      CurrentOnlyNext(p.clips, First(p));
      Times(k, SpanIn(p, First(p)).value);
    }
  }

  lemma Times(k: nat, x: int)
    requires k > 0
    ensures k * x == (k - 1) * x + x
  {
  }

  /** Under LoopCurrent the first enabled element repeats, each pass starting where the one before it ends. */
  lemma LoopCurrentRepeats(p: Setup, times: seq<int>, k: nat)
    requires GoodSetup(p) && Initial(p.clips, p.mode, p.lengths).Some? && p.mode == LoopCurrent
    requires k < |Run(p, times).aired|
    ensures var aired := Run(p, times).aired;
      && aired[k].index == First(p)
      && (k > 0 ==> SpanIn(p, First(p)).Some? && aired[k].start == aired[0].start + k * SpanIn(p, First(p)).value)
  {
    RunGood(p, times);
    AllFirst(p, Run(p, times).aired, k);
  }

  /** It never stops by itself, and every poll at or after the end of a pass puts the next one on air. */
  lemma LoopCurrentGoesOn(p: Setup, times: seq<int>, now: int)
    requires GoodSetup(p) && Initial(p.clips, p.mode, p.lengths).Some? && p.mode == LoopCurrent
    ensures var y := Run(p, times);
      && y.c.clips == p.clips && y.c.transport != Stopped
      && (y.c.end.Some? && y.c.end.value <= now ==> |PollOnce(y, now).aired| > |y.aired|)
  {
    RunGood(p, times);
    var y := Run(p, times);
    PollKept(p, y, now);
    NeverOver(p, y);
    NeverOver(p, PollOnce(y, now));
  }

  lemma NeverOver(p: Setup, y: System)
    requires Good(p, y) && p.mode == LoopCurrent
    ensures !Ended(p, y) && y.c.transport != Stopped
  {
    if y.aired != [] {
      var k := |y.aired| - 1;
      AllFirst(p, y.aired, k);
      CurrentOnlyNext(p.clips, First(p));
    }
  }

  // ------------------------------------------------------------------ LoopAll

  lemma {:induction false} AiredEnabled(p: Setup, aired: seq<Airing>, k: nat)
    requires GoodSetup(p) && Chain(p, aired) && k < |aired|
    ensures aired[k].index < |p.clips| && !p.clips[aired[k].index].disabled
    decreases k
  {
    if k > 0 {
      AiredEnabled(p, aired, k - 1);
      assert Follows(p, aired[k - 1], aired[k - 1 + 1]);
    }
  }

  /**
    Under LoopAll what follows an element is the enabled one reached forward, around the end of the list where need
    be, or the element itself where no other is enabled: none is ever left out.
   */
  lemma LoopAllGoesRound(p: Setup, times: seq<int>, k: nat)
    requires GoodSetup(p) && Initial(p.clips, p.mode, p.lengths).Some? && p.mode == LoopAll
    requires 0 < k < |Run(p, times).aired|
    ensures var a, b := Run(p, times).aired[k - 1].index, Run(p, times).aired[k].index;
      && a < |p.clips| && b < |p.clips| && !p.clips[b].disabled && NoneBetween(p.clips, a, b, Forward)
  {
    RunGood(p, times);
    var aired := Run(p, times).aired;
    AiredEnabled(p, aired, k - 1);
    AiredEnabled(p, aired, k);
    assert Follows(p, aired[k - 1], aired[k - 1 + 1]);
    LoopAllNext(p.clips, aired[k - 1].index, aired[k].index);
  }

  /** ... and it never stops by itself: every poll at or after the end of an element puts another on air. */
  lemma LoopAllGoesOn(p: Setup, times: seq<int>, now: int)
    requires GoodSetup(p) && Initial(p.clips, p.mode, p.lengths).Some? && p.mode == LoopAll
    ensures var y := Run(p, times);
      && y.c.clips == p.clips && y.c.transport != Stopped
      && (y.c.end.Some? && y.c.end.value <= now ==> |PollOnce(y, now).aired| > |y.aired|)
  {
    RunGood(p, times);
    var y := Run(p, times);
    PollKept(p, y, now);
    NeverOut(p, y);
    NeverOut(p, PollOnce(y, now));
  }

  lemma NeverOut(p: Setup, y: System)
    requires Good(p, y) && p.mode == LoopAll
    ensures !Ended(p, y) && y.c.transport != Stopped
  {
    if y.aired != [] {
      var k := |y.aired| - 1;
      AiredEnabled(p, y.aired, k);
      var i := y.aired[k].index;
      if p.clips[i].mode == LoopSelf {
        CurrentOnlyNext(p.clips, i);
      } else {
        LoopAllNext(p.clips, i, i);
      }
    }
  }
}

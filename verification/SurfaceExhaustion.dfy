/**
  What a decoder does while its pool has no surface for a picture: episodes of exhaustion, packets
  sent again or given up on, and pictures hidden until the next keyframe.
 */
module SurfaceExhaustion {

  /**
    `episodeDrops` counts the packets given up on in the present episode; the rest is as the decoder
    keeps it. Times are in one unit.
   */
  datatype State = State(
    stuck: bool,
    hiding: bool,
    since: int,
    episodeSince: int,
    exhaustions: nat,
    dropped: nat,
    lost: nat,
    hidden: nat,
    recoveries: nat,
    repeats: nat,
    episodeDrops: nat)

  function Fresh(): State {
    State(false, false, 0, 0, 0, 0, 0, 0, 0, 0, 0)
  }

  function Begin(s: State, now: int): State {
    if s.stuck then s
    else s.(stuck := true, since := now, episodeSince := now, exhaustions := s.exhaustions + 1, episodeDrops := 0)
  }

  predicate Drops(s: State, now: int, giveUp: int) {
    now - Begin(s, now).since >= giveUp
  }

  function Failed(s: State, now: int, giveUp: int): State {
    var t := Begin(s, now);
    if !Drops(s, now, giveUp) then t
    else t.(dropped := t.dropped + 1, hiding := true, since := now, episodeDrops := t.episodeDrops + 1)
  }

  function Lost(s: State, now: int): State {
    var t := Begin(s, now);
    t.(lost := t.lost + 1, hiding := true)
  }

  /** Whole picture periods since the episode began, none outside one. */
  function EpisodePictures(stuck: bool, episodeSince: int, now: int, period: int): (r: nat)
    ensures !stuck || period <= 0 || now < episodeSince ==> r == 0
    ensures stuck && period > 0 && now >= episodeSince ==> r * period <= now - episodeSince < (r + 1) * period
  {
    if !stuck || period <= 0 || now < episodeSince then 0 else (now - episodeSince) / period
  }

  function Shown(s: State, now: int, period: int): State {
    if !s.stuck then s
    else
      s.(stuck := false, recoveries := s.recoveries + 1,
         repeats := s.repeats + EpisodePictures(s.stuck, s.episodeSince, now, period))
  }

  predicate Shows(s: State, keyframe: bool) {
    !s.hiding || keyframe
  }

  function Picture(s: State, keyframe: bool): State {
    if !s.hiding then s
    else if keyframe then s.(hiding := false)
    else s.(hidden := s.hidden + 1)
  }

  class Exhaustion {
    const giveUp: int
    var stuck: bool
    var hiding: bool
    var since: int
    var episodeSince: int
    var exhaustions: nat
    var dropped: nat
    var lost: nat
    var hidden: nat
    var recoveries: nat
    var repeats: nat
    ghost var episodeDrops: nat

    ghost function View(): State
      reads this
    {
      State(stuck, hiding, since, episodeSince, exhaustions, dropped, lost, hidden, recoveries, repeats, episodeDrops)
    }

    constructor (giveUp: int)
      ensures View() == Fresh() && this.giveUp == giveUp
    {
      this.giveUp := giveUp;
      stuck, hiding, since, episodeSince := false, false, 0, 0;
      exhaustions, dropped, lost, hidden, recoveries, repeats, episodeDrops := 0, 0, 0, 0, 0, 0, 0;
    }

    method BeginAt(now: int)
      modifies this
      ensures View() == Begin(old(View()), now)
    {
      if stuck {
        return;
      }
      stuck, since, episodeSince := true, now, now;
      exhaustions, episodeDrops := exhaustions + 1, 0;
    }

    method FailedAt(now: int) returns (drop: bool)
      modifies this
      ensures drop <==> Drops(old(View()), now, giveUp)
      ensures View() == Failed(old(View()), now, giveUp)
    {
      BeginAt(now);
      if now - since < giveUp {
        return false;
      }
      dropped, episodeDrops := dropped + 1, episodeDrops + 1;
      hiding, since := true, now;
      drop := true;
    }

    method LostAt(now: int)
      modifies this
      ensures View() == Lost(old(View()), now)
    {
      BeginAt(now);
      lost, hiding := lost + 1, true;
    }

    method ShownAt(now: int, period: int) returns (pictures: nat)
      modifies this
      ensures pictures == EpisodePictures(old(stuck), old(episodeSince), now, period)
      ensures View() == Shown(old(View()), now, period)
    {
      pictures := EpisodePictures(stuck, episodeSince, now, period);
      if stuck {
        stuck, recoveries, repeats := false, recoveries + 1, repeats + pictures;
      }
    }

    method ShowPicture(keyframe: bool) returns (show: bool)
      modifies this
      ensures show <==> Shows(old(View()), keyframe)
      ensures View() == Picture(old(View()), keyframe)
    {
      if !hiding {
        return true;
      }
      if keyframe {
        hiding := false;
        return true;
      }
      hidden := hidden + 1;
      show := false;
    }
  }

  // ------------------------------------------------------------------ every trace with a clock that does not go back

  datatype Event =
    | FailsAt(now: int)
    | LosesAt(now: int)
    | ShownAgain(now: int, period: int)
    | Decoded(keyframe: bool)

  function Apply(s: State, e: Event, giveUp: int): State {
    match e
    case FailsAt(now) => Failed(s, now, giveUp)
    case LosesAt(now) => Lost(s, now)
    case ShownAgain(now, period) => Shown(s, now, period)
    case Decoded(keyframe) => Picture(s, keyframe)
  }

  predicate ClockAt(clock: int, e: Event) {
    e.Decoded? || clock <= e.now
  }

  function Clock(clock: int, e: Event): int {
    if e.Decoded? then clock else e.now
  }

  function Run(s: State, es: seq<Event>, giveUp: int): State
    decreases |es|
  {
    if es == [] then s else Run(Apply(s, es[0], giveUp), es[1..], giveUp)
  }

  predicate Steady(clock: int, es: seq<Event>)
    decreases |es|
  {
    es == [] || (ClockAt(clock, es[0]) && Steady(Clock(clock, es[0]), es[1..]))
  }

  /** Each packet given up on in this episode waited its turn after the one before it. */
  predicate Valid(s: State, clock: int, giveUp: int) {
    && s.exhaustions == s.recoveries + (if s.stuck then 1 else 0)
    && (s.stuck ==> s.episodeSince <= s.since <= clock && s.episodeDrops * giveUp <= s.since - s.episodeSince)
  }

  lemma OneMore(n: nat, giveUp: int, waited: int, more: int)
    requires n * giveUp <= waited && giveUp <= more
    ensures (n + 1) * giveUp <= waited + more
  {
  }

  lemma StepValid(s: State, e: Event, clock: int, giveUp: int)
    requires Valid(s, clock, giveUp) && ClockAt(clock, e)
    ensures Valid(Apply(s, e, giveUp), Clock(clock, e), giveUp)
  {
    if e.FailsAt? {
      var t := Begin(s, e.now);
      if Drops(s, e.now, giveUp) {
        OneMore(t.episodeDrops, giveUp, t.since - t.episodeSince, e.now - t.since);
      }
    }
  }

  lemma {:induction false} RunValid(s: State, es: seq<Event>, clock: int, giveUp: int) returns (end: int)
    requires Valid(s, clock, giveUp) && Steady(clock, es)
    ensures clock <= end && Valid(Run(s, es, giveUp), end, giveUp)
    decreases |es|
  {
    if es == [] {
      end := clock;
    } else {
      StepValid(s, es[0], clock, giveUp);
      end := RunValid(Apply(s, es[0], giveUp), es[1..], Clock(clock, es[0]), giveUp);
    }
  }

  /**
    Over every trace: each episode ended or goes on, and the packets dropped in it took at least
    `giveUp` each.
   */
  lemma EpisodesAddUp(es: seq<Event>, clock: int, giveUp: int)
    requires Steady(clock, es)
    ensures var s := Run(Fresh(), es, giveUp);
      && s.exhaustions == s.recoveries + (if s.stuck then 1 else 0)
      && (s.stuck ==> s.episodeDrops * giveUp <= s.since - s.episodeSince)
  {
    var end := RunValid(Fresh(), es, clock, giveUp);
  }

  // ------------------------------------------------------------------ when a packet is given up

  /** Failures short of the time, losses and pictures: the episode goes on and nothing is given up. */
  predicate Waits(es: seq<Event>, since: int, giveUp: int) {
    forall k :: 0 <= k < |es| ==> !es[k].ShownAgain? && (es[k].FailsAt? ==> es[k].now < since + giveUp)
  }

  lemma {:induction false} NoneDropped(s: State, es: seq<Event>, giveUp: int)
    requires s.stuck && Waits(es, s.since, giveUp)
    ensures var t := Run(s, es, giveUp);
      t.stuck && t.since == s.since && t.dropped == s.dropped && t.episodeSince == s.episodeSince
    decreases |es|
  {
    if es != [] {
      assert !es[0].ShownAgain?;
      NoneDropped(Apply(s, es[0], giveUp), es[1..], giveUp);
    }
  }

  /**
    In an episode a packet is given up exactly if `giveUp` has passed since the packet before it was given up, or
    since the episode began; the next one then waits as long again.
   */
  lemma GivenUpExactly(s: State, es: seq<Event>, now: int, giveUp: int)
    requires s.stuck && Waits(es, s.since, giveUp)
    ensures var t := Run(s, es, giveUp); var u := Apply(t, FailsAt(now), giveUp);
      && u.dropped == s.dropped + (if now >= s.since + giveUp then 1 else 0)
      && u.stuck && u.since == if now >= s.since + giveUp then now else s.since
  {
    NoneDropped(s, es, giveUp);
  }

  /** An episode begins with the failure or the loss that finds none, and a failure is the first to wait for. */
  lemma EpisodeBegins(s: State, now: int, giveUp: int)
    requires !s.stuck
    ensures var t := Apply(s, FailsAt(now), giveUp);
      t.stuck && t.since == now && t.episodeSince == now && t.exhaustions == s.exhaustions + 1
      && t.dropped == s.dropped + (if giveUp <= 0 then 1 else 0)
    ensures var t := Apply(s, LosesAt(now), giveUp);
      t.stuck && t.since == now && t.episodeSince == now && t.exhaustions == s.exhaustions + 1 && t.dropped == s.dropped
  {
  }

  predicate LosesPicture(s: State, e: Event, giveUp: int) {
    e.LosesAt? || (e.FailsAt? && Drops(s, e.now, giveUp))
  }

  predicate NoKeyframe(es: seq<Event>) {
    forall k :: 0 <= k < |es| ==> es[k] != Decoded(true)
  }

  lemma {:induction false} HiddenMeanwhile(s: State, es: seq<Event>, giveUp: int)
    requires s.hiding && NoKeyframe(es)
    ensures Run(s, es, giveUp).hiding
    decreases |es|
  {
    if es != [] {
      assert es[0] != Decoded(true);
      HiddenMeanwhile(Apply(s, es[0], giveUp), es[1..], giveUp);
    }
  }

  /** Between a picture lost or dropped and the next keyframe, no other picture is shown; the keyframe is. */
  lemma HiddenUntilKeyframe(s: State, e: Event, es: seq<Event>, giveUp: int)
    requires LosesPicture(s, e, giveUp) && NoKeyframe(es)
    ensures var t := Run(Apply(s, e, giveUp), es, giveUp);
      && !Shows(t, false) && Shows(t, true) && Shows(Picture(t, true), false)
  {
    HiddenMeanwhile(Apply(s, e, giveUp), es, giveUp);
  }

  /** Only a loss starts hiding: without one every picture is shown. */
  lemma {:induction false} NothingHiddenWithoutLoss(s: State, es: seq<Event>, giveUp: int)
    requires !s.hiding && forall k :: 0 <= k < |es| ==> !LosesPicture(Run(s, es[..k], giveUp), es[k], giveUp)
    ensures !Run(s, es, giveUp).hiding && Run(s, es, giveUp).hidden == s.hidden
    decreases |es|
  {
    if es != [] {
      assert es[..0] == [];
      assert !LosesPicture(Run(s, es[..0], giveUp), es[0], giveUp);
      var t := Apply(s, es[0], giveUp);
      forall k | 0 <= k < |es[1..]|
        ensures !LosesPicture(Run(t, es[1..][..k], giveUp), es[1..][k], giveUp)
      {
        assert es[..k + 1][1..] == es[1..][..k] && es[..k + 1][0] == es[0];
        assert !LosesPicture(Run(s, es[..k + 1], giveUp), es[k + 1], giveUp);
      }
      NothingHiddenWithoutLoss(t, es[1..], giveUp);
    }
  }
}

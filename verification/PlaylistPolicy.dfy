/** What plays next and for how long: the playlist's pure decisions. */
module PlaylistPolicy {
  import opened Options

  type Id = int
  type Url = int

  datatype PlaylistMode = PlayAll | PlayCurrent | LoopAll | LoopCurrent

  predicate Loops(mode: PlaylistMode) { mode == LoopAll || mode == LoopCurrent }
  predicate CurrentOnly(mode: PlaylistMode) { mode == PlayCurrent || mode == LoopCurrent }

  datatype ElementMode = PlayToEnd | Timed | LoopSelf

  datatype Clip = Clip(
    id: Id,
    url: Url,
    mode: ElementMode,
    playFrom: int,
    playTo: Option<int>,
    duration: Option<int>,
    disabled: bool,
    speed: real)

  /** What a clip's constructor checks. */
  predicate ValidClip(c: Clip) {
    && 0 <= c.playFrom && (c.playTo.Some? ==> c.playFrom < c.playTo.value)
    && (c.mode == Timed ==> c.duration.Some?) && (c.duration.Some? ==> 0 < c.duration.value)
    && 0.0 < c.speed
  }

  // ------------------------------------------------------------------ spans

  /** Rounding to the nearest, ties to even. */
  function Rounded(x: real): (r: int)
    ensures x - 0.5 <= r as real <= x + 0.5
    ensures r as real == x + 0.5 || r as real == x - 0.5 ==> r % 2 == 0
  {
    var f := x.Floor;
    var d := x - f as real;
    if d < 0.5 || (d == 0.5 && f % 2 == 0) then f else f + 1
  }

  /** One pass from cue-in to cue-out on the wall clock, or None when the end is not known. */
  function MediaSpan(c: Clip, length: Option<int>): (r: Option<int>)
    requires ValidClip(c)
    ensures r.Some? ==> 0 <= r.value
    ensures r.None? <==> (if c.playTo.Some? then c.playTo.value <= c.playFrom else length.None? || length.value <= c.playFrom)
    ensures r.Some? ==> PassTakes(c, if c.playTo.Some? then c.playTo.value else length.value, r.value)
  {
    var end := if c.playTo.Some? then c.playTo else length;
    if end.None? || end.value <= c.playFrom then None
    else
      var span := (end.value - c.playFrom) as real / c.speed;
      assert 0.0 <= span;
      RoundedTakes((end.value - c.playFrom) as real, span, c.speed);
      Some(Rounded(span))
  }

  /** At its speed the clip gets from cue-in to the end in this time, to half a millisecond. */
  predicate PassTakes(c: Clip, end: int, span: int) {
    var played := span as real * c.speed;
    (end - c.playFrom) as real - c.speed * 0.5 <= played <= (end - c.playFrom) as real + c.speed * 0.5
  }

  lemma RoundedTakes(y: real, x: real, speed: real)
    requires 0.0 < speed && x == y / speed
    ensures y - speed * 0.5 <= Rounded(x) as real * speed <= y + speed * 0.5
  {
    Quotient(y, x, speed);
    Nearest(y, x, Rounded(x) as real, Rounded(x) as real - x, speed);
  }

  lemma Nearest(y: real, x: real, r: real, d: real, k: real)
    requires 0.0 < k && x * k == y && r == x + d && -0.5 <= d <= 0.5
    ensures y - k * 0.5 <= r * k <= y + k * 0.5
  {
    Spread(r, x, d, k);
    HalfOf(d, k);
  }

  lemma Quotient(y: real, x: real, k: real)
    requires 0.0 < k && x == y / k
    ensures x * k == y
  {
  }

  lemma Spread(r: real, x: real, d: real, k: real)
    requires r == x + d
    ensures r * k == x * k + d * k
  {
  }

  lemma HalfOf(d: real, k: real)
    requires 0.0 < k && -0.5 <= d <= 0.5
    ensures -(k * 0.5) <= d * k <= k * 0.5
  {
    assert 0.0 <= (d + 0.5) * k && 0.0 <= (0.5 - d) * k;
  }

  /** How long the element stays on air; None when that is unknown, or for ever. */
  function Span(c: Clip, length: Option<int>): (r: Option<int>)
    requires ValidClip(c)
    ensures r.Some? ==> 0 <= r.value && c.mode != LoopSelf
  {
    match c.mode
    case Timed => c.duration
    case LoopSelf => None
    case PlayToEnd => MediaSpan(c, length)
  }

  // ------------------------------------------------------------------ finding elements

  function IndexOf(clips: seq<Clip>, id: Option<Id>): (r: Option<nat>)
    ensures r.Some? ==> r.value < |clips| && id == Some(clips[r.value].id)
    ensures r.None? && id.Some? ==> forall i :: 0 <= i < |clips| ==> clips[i].id != id.value
    ensures r.Some? ==> forall i :: 0 <= i < r.value ==> clips[i].id != id.value
  {
    if id.None? || clips == [] then None
    else if clips[0].id == id.value then Some(0)
    else
      match IndexOf(clips[1..], id)
      case None => assert forall i :: 1 <= i < |clips| ==> clips[i] == clips[1..][i - 1]; None
      case Some(i) => assert forall j :: 1 <= j < |clips| ==> clips[j] == clips[1..][j - 1]; Some(i + 1)
  }

  predicate Unique(clips: seq<Clip>) {
    forall i, j :: 0 <= i < j < |clips| ==> clips[i].id != clips[j].id
  }

  lemma IndexOfUnique(clips: seq<Clip>, i: nat)
    requires Unique(clips) && i < |clips|
    ensures IndexOf(clips, Some(clips[i].id)) == Some(i)
  {
    var r := IndexOf(clips, Some(clips[i].id));
    assert r.Some? && clips[r.value].id == clips[i].id;
  }

  function FirstEnabled(clips: seq<Clip>): (r: Option<nat>)
    ensures r.Some? ==> r.value < |clips| && !clips[r.value].disabled
    ensures r.Some? ==> forall i :: 0 <= i < r.value ==> clips[i].disabled
    ensures r.None? ==> forall i :: 0 <= i < |clips| ==> clips[i].disabled
  {
    FirstEnabledFrom(clips, 0)
  }

  function FirstEnabledFrom(clips: seq<Clip>, k: nat): (r: Option<nat>)
    requires k <= |clips|
    ensures r.Some? ==> k <= r.value < |clips| && !clips[r.value].disabled
    ensures r.Some? ==> forall i :: k <= i < r.value ==> clips[i].disabled
    ensures r.None? ==> forall i :: k <= i < |clips| ==> clips[i].disabled
    decreases |clips| - k
  {
    if k == |clips| then None else if !clips[k].disabled then Some(k) else FirstEnabledFrom(clips, k + 1)
  }

  function LastEnabled(clips: seq<Clip>): (r: Option<nat>)
    ensures r.Some? ==> r.value < |clips| && !clips[r.value].disabled
    ensures r.Some? ==> forall i :: r.value < i < |clips| ==> clips[i].disabled
    ensures r.None? ==> forall i :: 0 <= i < |clips| ==> clips[i].disabled
  {
    if clips == [] then None
    else if !clips[|clips| - 1].disabled then Some(|clips| - 1)
    else LastEnabled(clips[..|clips| - 1])
  }

  // ------------------------------------------------------------------ stepping to the next enabled element

  datatype Direction = Forward | Backward

  function Moved(index: int, d: Direction): int {
    if d == Forward then index + 1 else index - 1
  }

  /** Python's remainder, one place outside the list at most. */
  function Wrapped(i: int, n: nat): (r: nat)
    requires 0 < n && -1 <= i <= n
    ensures r == if i < 0 then n - 1 else if i == n then 0 else i
  {
    if i == n then assert n % n == 0; i % n else i % n
  }

  /** At most `steps` moves from `index`, to the first enabled element. */
  function Step(clips: seq<Clip>, index: nat, d: Direction, wrap: bool, steps: nat): (r: Option<nat>)
    requires index < |clips|
    ensures r.Some? ==> r.value < |clips| && !clips[r.value].disabled
    decreases steps
  {
    var i := Moved(index, d);
    if steps == 0 || (!wrap && !(0 <= i < |clips|)) then None
    else
      var j := Wrapped(i, |clips|);
      if !clips[j].disabled then Some(j) else Step(clips, j, d, wrap, steps - 1)
  }

  function StepEnabled(clips: seq<Clip>, index: nat, d: Direction, wrap: bool): (r: Option<nat>)
    requires index < |clips|
    ensures r.Some? ==> r.value < |clips| && !clips[r.value].disabled
  {
    Step(clips, index, d, wrap, |clips|)
  }

  method FindEnabled(clips: seq<Clip>, start: nat, d: Direction, wrap: bool) returns (r: Option<nat>)
    requires start < |clips|
    ensures r == StepEnabled(clips, start, d, wrap)
  {
    var index: nat := start;
    var left: nat := |clips|;
    while left > 0
      invariant index < |clips|
      invariant Step(clips, index, d, wrap, left) == StepEnabled(clips, start, d, wrap)
    {
      var i := Moved(index, d);
      if i < 0 || i >= |clips| {
        if !wrap {
          return None;
        }
        i := Wrapped(i, |clips|);
      }
      if !clips[i].disabled {
        return Some(i);
      }
      index := i;
      left := left - 1;
    }
    r := None;
  }

  /** Without wrapping, a step forward finds the nearest enabled element after the current one. */
  lemma {:induction false} ForwardIsNearest(clips: seq<Clip>, index: nat, steps: nat)
    requires index < |clips| && |clips| - index <= steps
    ensures Step(clips, index, Forward, false, steps) == FirstEnabledFrom(clips, index + 1)
    decreases steps
  {
    if index + 1 < |clips| {
      if clips[index + 1].disabled {
        ForwardIsNearest(clips, index + 1, steps - 1);
      }
    }
  }

  /** ... and a step backward the nearest one before it. */
  lemma {:induction false} BackwardIsNearest(clips: seq<Clip>, index: nat, steps: nat)
    requires index < |clips| && index <= steps
    ensures Step(clips, index, Backward, false, steps) == LastEnabled(clips[..index])
    decreases index
  {
    if index > 0 {
      assert clips[..index][..index - 1] == clips[..index - 1];
      if clips[index - 1].disabled {
        BackwardIsNearest(clips, index - 1, steps - 1);
      }
    }
  }

  /** Met on the way from a to b, around the end of the list where need be; from a to itself, every other place. */
  predicate Between(a: nat, i: nat, b: nat, d: Direction) {
    match d
    case Forward => if a < b then a < i < b else i > a || i < b
    case Backward => if b < a then b < i < a else i > b || i < a
  }

  /** How many steps lead from a to b. */
  function Distance(a: nat, b: nat, d: Direction, n: nat): int {
    match d
    case Forward => if b > a then b - a else n + b - a
    case Backward => if b < a then a - b else n + a - b
  }

  predicate NoneBetween(clips: seq<Clip>, a: nat, b: nat, d: Direction) {
    forall i :: 0 <= i < |clips| && Between(a, i, b, d) ==> clips[i].disabled
  }

  /** With wrapping, some element is found whenever one is enabled, passing over disabled ones only. */
  lemma {:induction false} WrappingFinds(clips: seq<Clip>, index: nat, d: Direction, steps: nat, k: nat)
    requires index < |clips| && k < |clips| && !clips[k].disabled && steps >= Distance(index, k, d, |clips|)
    ensures var r := Step(clips, index, d, true, steps); r.Some? && NoneBetween(clips, index, r.value, d)
    decreases steps
  {
    var j := Wrapped(Moved(index, d), |clips|);
    if clips[j].disabled {
      WrappingFinds(clips, j, d, steps - 1, k);
    }
  }

  predicate Ahead(a: nat, b: nat, d: Direction) {
    if d == Forward then a < b else b < a
  }

  /** What a step finds is exactly the enabled element with only disabled ones on the way. */
  lemma StepIsNearest(clips: seq<Clip>, a: nat, d: Direction, wrap: bool, j: nat)
    requires a < |clips| && j < |clips| && j != a
    ensures StepEnabled(clips, a, d, wrap) == Some(j) <==>
      !clips[j].disabled && (wrap || Ahead(a, j, d)) && NoneBetween(clips, a, j, d)
  {
    if wrap {
      if !clips[j].disabled {
        WrappingFinds(clips, a, d, |clips|, j);
      }
    } else if d == Forward {
      ForwardIsNearest(clips, a, |clips|);
    } else {
      BackwardIsNearest(clips, a, |clips|);
      assert forall i :: 0 <= i < a ==> clips[..a][i] == clips[i];
    }
  }

  // ------------------------------------------------------------------ resolution

  /** Where playback goes when the current element completes. */
  function ResolveAutomatic(clips: seq<Clip>, current: Option<nat>, mode: PlaylistMode): (r: Option<nat>)
    requires current.Some? ==> current.value < |clips|
    ensures r.Some? ==> current.Some? && r.value < |clips| && (r == current || !clips[r.value].disabled)
  {
    if current.None? then None
    else if clips[current.value].mode == LoopSelf then current
    else if CurrentOnly(mode) then if Loops(mode) then current else None
    else StepEnabled(clips, current.value, Forward, Loops(mode))
  }

  /** Under PlayAll playback goes to the nearest enabled element after the current one, unless that loops. */
  lemma PlayAllNext(clips: seq<Clip>, i: nat)
    requires i < |clips|
    ensures ResolveAutomatic(clips, Some(i), PlayAll) ==
      if clips[i].mode == LoopSelf then Some(i) else FirstEnabledFrom(clips, i + 1)
  {
    ForwardIsNearest(clips, i, |clips|);
  }

  /** A self-loop stays where it is, PlayCurrent ends with its element, and LoopCurrent repeats it. */
  lemma CurrentOnlyNext(clips: seq<Clip>, i: nat)
    requires i < |clips|
    ensures clips[i].mode == LoopSelf ==> forall mode :: ResolveAutomatic(clips, Some(i), mode) == Some(i)
    ensures clips[i].mode != LoopSelf ==> ResolveAutomatic(clips, Some(i), PlayCurrent) == None
    ensures ResolveAutomatic(clips, Some(i), LoopCurrent) == Some(i)
  {
  }

  /**
    Under LoopAll playback goes to the enabled element reached forward, from the end of the list to its start where
    need be, and repeats an element only where that is the one enabled.
   */
  lemma LoopAllNext(clips: seq<Clip>, i: nat, j: nat)
    requires i < |clips| && j < |clips| && clips[i].mode != LoopSelf
    ensures ResolveAutomatic(clips, Some(i), LoopAll) == Some(j) <==> !clips[j].disabled && NoneBetween(clips, i, j, Forward)
    ensures ResolveAutomatic(clips, Some(i), LoopAll).None? ==> clips[j].disabled
  {
    if !clips[j].disabled {
      WrappingFinds(clips, i, Forward, |clips|, j);
    }
    if j != i {
      StepIsNearest(clips, i, Forward, true, j);
    } else {
      var r := StepEnabled(clips, i, Forward, true);
      if r.Some? {
        WrappingFinds(clips, i, Forward, |clips|, r.value);
      }
    }
  }

  function ResolveManual(clips: seq<Clip>, current: Option<nat>, mode: PlaylistMode, d: Direction): (r: Option<nat>)
    requires current.Some? ==> current.value < |clips|
    ensures r.Some? ==> r.value < |clips| && (r == current || !clips[r.value].disabled)
  {
    if clips == [] then None
    else if current.None? then if d == Forward then FirstEnabled(clips) else LastEnabled(clips)
    else
      var target := StepEnabled(clips, current.value, d, Loops(mode));
      if target.None? then current else target
  }

  /** Automatic resolution looks at nothing but which elements are enabled and how the current one ends. */
  predicate SameShape(a: seq<Clip>, b: seq<Clip>, i: nat) {
    && |a| == |b| && i < |a| && a[i].mode == b[i].mode
    && forall k :: 0 <= k < |a| ==> a[k].disabled == b[k].disabled
  }

  lemma {:induction false} StepSameShape(a: seq<Clip>, b: seq<Clip>, index: nat, d: Direction, wrap: bool, steps: nat)
    requires |a| == |b| && index < |a| && forall k :: 0 <= k < |a| ==> a[k].disabled == b[k].disabled
    ensures Step(a, index, d, wrap, steps) == Step(b, index, d, wrap, steps)
    decreases steps
  {
    var i := Moved(index, d);
    if steps > 0 && (wrap || 0 <= i < |a|) {
      StepSameShape(a, b, Wrapped(i, |a|), d, wrap, steps - 1);
    }
  }

  lemma ResolveSameShape(a: seq<Clip>, b: seq<Clip>, i: nat, mode: PlaylistMode)
    requires SameShape(a, b, i)
    ensures ResolveAutomatic(a, Some(i), mode) == ResolveAutomatic(b, Some(i), mode)
  {
    StepSameShape(a, b, i, Forward, Loops(mode), |a|);
  }

  /** Manual navigation leaves current-only playlists and self-looping elements; only wrapping depends on the mode. */
  lemma ManualEscapes(clips: seq<Clip>, i: nat, k: nat, mode: PlaylistMode, d: Direction)
    requires i < |clips| && k < |clips| && k != i && !clips[k].disabled && (Loops(mode) || Ahead(i, k, d))
    ensures var r := ResolveManual(clips, Some(i), mode, d);
      r.Some? && r.value != i && !clips[r.value].disabled && NoneBetween(clips, i, r.value, d)
  {
    if Loops(mode) {
      WrappingFinds(clips, i, d, |clips|, k);
    } else if d == Forward {
      ForwardIsNearest(clips, i, |clips|);
    } else {
      BackwardIsNearest(clips, i, |clips|);
      assert forall j :: 0 <= j < i ==> clips[..i][j] == clips[j];
    }
  }

  /** With nowhere to go manual navigation stays; with nothing current it goes to the first or the last enabled element. */
  lemma ManualOtherwise(clips: seq<Clip>, i: nat, mode: PlaylistMode, d: Direction)
    ensures i < |clips| && (forall k :: 0 <= k < |clips| ==> clips[k].disabled) ==>
      ResolveManual(clips, Some(i), mode, d) == Some(i)
    ensures var r := ResolveManual(clips, None, mode, d);
      && (r.None? <==> forall k :: 0 <= k < |clips| ==> clips[k].disabled)
      && (r.Some? ==> !clips[r.value].disabled
                      && forall k :: 0 <= k < |clips| && (if d == Forward then k < r.value else r.value < k) ==> clips[k].disabled)
  {
  }
}

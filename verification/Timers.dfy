/**
  The event loop's timers: a multimap by time whose equal keys keep the order they were set in.
  A timer's number is its place in the order of setting.
 */
module Timers {

  datatype Timer = Timer(at: int, id: nat)

  predicate Before(a: Timer, b: Timer) {
    a.at < b.at || (a.at == b.at && a.id < b.id)
  }

  predicate Sorted(ts: seq<Timer>) {
    forall i, j :: 0 <= i < j < |ts| ==> Before(ts[i], ts[j])
  }

  /** emplace(): after every timer of the same or an earlier time. */
  function Insert(ts: seq<Timer>, t: Timer): (r: seq<Timer>) {
    if ts == [] || t.at < ts[0].at then [t] + ts else [ts[0]] + Insert(ts[1..], t)
  }

  lemma {:induction false} InsertPlace(ts: seq<Timer>, t: Timer) returns (k: nat)
    ensures k <= |ts| && Insert(ts, t) == ts[..k] + [t] + ts[k..]
    ensures forall i :: 0 <= i < k ==> ts[i].at <= t.at
    ensures k < |ts| ==> t.at < ts[k].at
  {
    if ts == [] || t.at < ts[0].at {
      k := 0;
      assert ts[..0] + [t] + ts[0..] == [t] + ts;
    } else {
      var rest := InsertPlace(ts[1..], t);
      k := rest + 1;
      assert ts[..k] == [ts[0]] + ts[1..][..rest] && ts[k..] == ts[1..][rest..];
      assert [ts[0]] + (ts[1..][..rest] + [t] + ts[1..][rest..]) == ts[..k] + [t] + ts[k..];
    }
  }

  /** Setting a timer later than all others keeps the order, first set first among equals. */
  lemma InsertSorted(ts: seq<Timer>, t: Timer)
    requires Sorted(ts) && forall i :: 0 <= i < |ts| ==> ts[i].id < t.id
    ensures Sorted(Insert(ts, t))
  {
    var k := InsertPlace(ts, t);
    var r := ts[..k] + [t] + ts[k..];
    forall i, j | 0 <= i < j < |r|
      ensures Before(r[i], r[j])
    {
      if i == k {
        assert r[j] == ts[j - 1] && Before(t, ts[k]);
        if j - 1 > k {
          assert Before(ts[k], ts[j - 1]);
        }
      } else if j == k {
        assert r[i] == ts[i];
      } else {
        var i', j' := if i < k then i else i - 1, if j < k then j else j - 1;
        assert r[i] == ts[i'] && r[j] == ts[j'] && i' < j';
      }
    }
  }

  lemma InsertHead(ts: seq<Timer>, t: Timer)
    ensures Insert(ts, t) != [] && Insert(ts, t)[0] == if ts == [] || t.at < ts[0].at then t else ts[0]
  {
  }

  /** How many leading timers are due at `now`. */
  function DueCount(ts: seq<Timer>, now: int): (n: nat)
    ensures n <= |ts|
  {
    if ts == [] || ts[0].at > now then 0 else 1 + DueCount(ts[1..], now)
  }

  lemma {:induction false} DueExactly(ts: seq<Timer>, now: int)
    requires Sorted(ts)
    ensures forall i :: 0 <= i < |ts| ==> (i < DueCount(ts, now) <==> ts[i].at <= now)
  {
    if ts != [] {
      assert forall i :: 1 <= i < |ts| ==> ts[i] == ts[1..][i - 1] && Before(ts[0], ts[i]);
      if ts[0].at <= now {
        DueExactly(ts[1..], now);
      }
    }
  }

  /** The loop that moves due timers out of the map, front first. */
  method CollectDue(scheduled: seq<Timer>, now: int) returns (due: seq<Timer>, rest: seq<Timer>)
    ensures due == scheduled[..DueCount(scheduled, now)] && rest == scheduled[DueCount(scheduled, now)..]
  {
    due, rest := [], scheduled;
    while rest != []
      invariant |due| + |rest| == |scheduled| && due == scheduled[..|due|] && rest == scheduled[|due|..]
      invariant DueCount(scheduled, now) == |due| + DueCount(rest, now)
      decreases |rest|
    {
      if rest[0].at > now {
        break;
      }
      due, rest := due + [rest[0]], rest[1..];
    }
  }
}

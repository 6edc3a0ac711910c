/**
  The memory ledger of a show's fixed-pool decoders and the parking lot of decoders that left it:
  what is reserved under which owner, which decoders are kept, and which are freed or taken over.
 */
module DecoderParking {
  import opened Options

  datatype Owner = LiveDecoder(id: nat) | ParkedEntry(id: nat)

  type Pools = map<Owner, int>

  // ------------------------------------------------------------------ the ledger

  /** All pools together. */
  ghost function Total(pools: Pools): int
    decreases |pools|
  {
    if pools == map[] then 0
    else
      var k :| k in pools;
      pools[k] + Total(pools - {k})
  }

  lemma {:induction false} TotalWithout(pools: Pools, k: Owner)
    requires k in pools
    ensures Total(pools) == pools[k] + Total(pools - {k})
    decreases |pools|
  {
    var j :| j in pools && Total(pools) == pools[j] + Total(pools - {j});
    if j != k {
      TotalWithout(pools - {j}, k);
      TotalWithout(pools - {k}, j);
      assert pools - {j} - {k} == pools - {k} - {j};
    }
  }

  function OwnedBy(pools: Pools, owner: Owner): int {
    if owner in pools then pools[owner] else 0
  }

  /** What a reservation would bring the total to: an owner has one pool, so its old one does not count. */
  lemma TotalWith(pools: Pools, owner: Owner, bytes: int)
    ensures Total(pools[owner := bytes]) == Total(pools) - OwnedBy(pools, owner) + bytes
    ensures Total(pools - {owner}) == Total(pools) - OwnedBy(pools, owner)
  {
    TotalWithout(pools[owner := bytes], owner);
    assert pools[owner := bytes] - {owner} == pools - {owner};
    if owner in pools {
      TotalWithout(pools, owner);
    } else {
      assert pools - {owner} == pools;
    }
  }

  class DecoderPoolLedger {
    var pools: Pools

    constructor ()
      ensures pools == map[]
    {
      pools := map[];
    }

    method SumBut(but: set<Owner>) returns (total: int)
      ensures total == Total(pools - but)
    {
      total := 0;
      var left := pools - but;
      while left != map[]
        invariant total + Total(left) == Total(pools - but)
        decreases |left|
      {
        var owner :| owner in left;
        TotalWithout(left, owner);
        total := total + left[owner];
        left := left - {owner};
      }
    }

    method Sum() returns (total: int)
      ensures total == Total(pools)
    {
      total := SumBut({});
      assert pools - {} == pools;
    }

    /** Refused only over a budget; the total includes this pool either way. */
    method Reserve(owner: Owner, bytes: int, budget: int) returns (total: int, accepted: bool)
      modifies this
      ensures total == Total(old(pools)[owner := bytes])
      ensures accepted <==> budget == 0 || total <= budget
      ensures pools == Reserved(old(pools), owner, bytes, budget)
    {
      var others := SumBut({owner});
      TotalWith(pools, owner, bytes);
      total := bytes + others;
      accepted := budget == 0 || total <= budget;
      if accepted {
        pools := pools[owner := bytes];
      }
    }

    method Release(owner: Owner)
      modifies this
      ensures pools == old(pools) - {owner}
    {
      pools := pools - {owner};
    }
  }

  /** reserve(): refused over a budget, zero being none. */
  ghost function Reserved(pools: Pools, owner: Owner, bytes: int, budget: int): Pools {
    var after := pools[owner := bytes];
    if budget == 0 || Total(after) <= budget then after else pools
  }

  /** A reservation under a budget and a release keep the total within it. */
  lemma ReservedWithinBudget(pools: Pools, owner: Owner, bytes: int, budget: int)
    requires 0 < budget && Total(pools) <= budget
    ensures Total(Reserved(pools, owner, bytes, budget)) <= budget
    ensures 0 <= OwnedBy(pools, owner) ==> Total(pools - {owner}) <= budget
  {
    TotalWith(pools, owner, bytes);
  }

  // ------------------------------------------------------------------ the parking lot

  datatype Geometry = Geometry(codec: int, width: int, height: int, format: int, surfaces: int)

  predicate Fits(g: Geometry, need: Geometry) {
    g.codec == need.codec && g.width == need.width && g.height == need.height && g.format == need.format
    && g.surfaces >= need.surfaces
  }

  /** A decoder made for this geometry but for having as many surfaces or more. */
  predicate Serves(g: Geometry, need: Geometry) {
    g == need.(surfaces := g.surfaces) && need.surfaces <= g.surfaces
  }

  lemma ServesAsFits(parked: seq<Entry>, need: Geometry)
    ensures forall k :: 0 <= k < |parked| ==> (Fits(parked[k].geometry, need) <==> Serves(parked[k].geometry, need))
  {
  }

  /** `accounted`: the entry's pool is in the ledger, under the entry. */
  datatype Entry = Entry(id: nat, bytes: int, geometry: Geometry, accounted: bool)

  datatype Lot = Lot(
    parked: seq<Entry>,      // oldest first
    parkedTotal: nat,
    freed: nat,
    reused: nat,
    live: nat,
    peak: nat,
    nextId: nat,
    pools: Pools)

  function Destroyed(pools: Pools, e: Entry): Pools {
    if e.accounted then pools - {ParkedEntry(e.id)} else pools
  }

  function FreeOldest(l: Lot): Lot
    requires l.parked != []
  {
    l.(parked := l.parked[1..], freed := l.freed + 1, pools := Destroyed(l.pools, l.parked[0]))
  }

  /** The n oldest, freed one after another. */
  function FreeFirst(l: Lot, n: nat): (r: Lot)
    requires n <= |l.parked|
    ensures r.parked == l.parked[n..] && r.freed == l.freed + n
    ensures r.live == l.live && r.peak == l.peak
    ensures r.parkedTotal == l.parkedTotal && r.reused == l.reused && r.nextId == l.nextId
    decreases n
  {
    if n == 0 then l else FreeFirst(FreeOldest(l), n - 1)
  }

  /** How many of the oldest have to go: as few as bring the lot back within its bounds. */
  function Excess(l: Lot, limit: int): (n: nat)
    requires 0 < limit && l.live <= l.peak
    ensures n <= |l.parked|
  {
    var over := if |l.parked| - limit < l.live + |l.parked| - l.peak - limit then |l.parked| - limit
                else l.live + |l.parked| - l.peak - limit;
    if over < 0 then 0 else over
  }

  function Added(l: Lot, bytes: int, g: Geometry, ledger: bool): Lot {
    var e := Entry(l.nextId, bytes, g, ledger && bytes > 0);
    l.(parked := l.parked + [e], parkedTotal := l.parkedTotal + 1, nextId := l.nextId + 1,
       pools := if e.accounted then l.pools[ParkedEntry(e.id) := bytes] else l.pools)
  }

  /** park(): nothing with a limit of zero. */
  function Park(l: Lot, bytes: int, g: Geometry, ledger: bool, limit: int): Lot
    requires l.live <= l.peak
  {
    if limit <= 0 then l
    else
      var m := Added(l, bytes, g, ledger);
      FreeFirst(m, Excess(m, limit))
  }

  function Opened(l: Lot): Lot {
    l.(live := l.live + 1, peak := if l.live + 1 > l.peak then l.live + 1 else l.peak)
  }

  function Closed(l: Lot): Lot {
    l.(live := if l.live > 0 then l.live - 1 else 0)
  }

  function FreeOne(l: Lot): Lot {
    if l.parked == [] then l else FreeOldest(l)
  }

  ghost predicate Enough(l: Lot, bytes: int, budget: int) {
    budget == 0 || Total(l.pools) + bytes <= budget
  }

  /** makeRoom(): the oldest go, one by one, while the request does not fit. */
  ghost function MakeRoom(l: Lot, bytes: int, budget: int): Lot
    decreases |l.parked|
  {
    if Enough(l, bytes, budget) || l.parked == [] then l else MakeRoom(FreeOldest(l), bytes, budget)
  }

  /** `k` is the first among the smallest that fit. */
  predicate Best(parked: seq<Entry>, need: Geometry, k: nat) {
    && k < |parked| && Fits(parked[k].geometry, need)
    && (forall j :: 0 <= j < |parked| && Fits(parked[j].geometry, need) ==>
          parked[k].geometry.surfaces < parked[j].geometry.surfaces
          || (parked[k].geometry.surfaces == parked[j].geometry.surfaces && k <= j))
  }

  function Choice(parked: seq<Entry>, need: Geometry): (r: Option<nat>)
    ensures r.Some? ==> Best(parked, need, r.value)
    ensures r.None? ==> forall j :: 0 <= j < |parked| ==> !Fits(parked[j].geometry, need)
  {
    ChoiceAmong(parked, need, |parked|)
  }

  /** The same among the first n. */
  function ChoiceAmong(parked: seq<Entry>, need: Geometry, n: nat): (r: Option<nat>)
    requires n <= |parked|
    ensures r.Some? ==> r.value < n && Best(parked[..n], need, r.value)
    ensures r.None? ==> forall j :: 0 <= j < n ==> !Fits(parked[j].geometry, need)
  {
    if n == 0 then None
    else
      var before := ChoiceAmong(parked, need, n - 1);
      if Fits(parked[n - 1].geometry, need)
         && (before.None? || parked[n - 1].geometry.surfaces < parked[before.value].geometry.surfaces) then Some(n - 1)
      else before
  }

  function TakeAt(l: Lot, k: nat): Lot
    requires k < |l.parked|
  {
    l.(parked := l.parked[..k] + l.parked[k + 1..], reused := l.reused + 1, pools := Destroyed(l.pools, l.parked[k]))
  }

  function Take(l: Lot, need: Geometry): Lot {
    var k := Choice(l.parked, need);
    if k.None? then l else TakeAt(l, k.value)
  }

  // ------------------------------------------------------------------ the lot as the object it is

  class Parking {
    var parked: seq<Entry>
    var parkedTotal: nat
    var freed: nat
    var reused: nat
    var live: nat
    var peak: nat
    var nextId: nat
    const ledger: DecoderPoolLedger

    ghost function View(): Lot
      reads this, ledger
    {
      Lot(parked, parkedTotal, freed, reused, live, peak, nextId, ledger.pools)
    }

    /** What every operation keeps, see below. */
    ghost predicate Good()
      reads this, ledger
    {
      Valid(View())
    }

    constructor (ledger: DecoderPoolLedger)
      ensures this.ledger == ledger && View() == Lot([], 0, 0, 0, 0, 0, 0, ledger.pools)
    {
      this.ledger := ledger;
      parked, parkedTotal, freed, reused, live, peak, nextId := [], 0, 0, 0, 0, 0, 0;
    }

    method Destroy(e: Entry)
      modifies ledger
      ensures ledger.pools == Destroyed(old(ledger.pools), e)
    {
      if e.accounted {
        ledger.Release(ParkedEntry(e.id));
      }
    }

    /** The new entry, booked without a budget. */
    method AddEntry(bytes: int, g: Geometry, inLedger: bool)
      modifies this, ledger
      ensures View() == Added(old(View()), bytes, g, inLedger) && freed == old(freed)
    {
      var e := Entry(nextId, bytes, g, inLedger && bytes > 0);
      if e.accounted {
        var total, accepted := ledger.Reserve(ParkedEntry(e.id), bytes, 0);
      }
      parked, parkedTotal, nextId := parked + [e], parkedTotal + 1, nextId + 1;
    }

    /** The loop that frees the oldest beyond the bounds. */
    method Evict(limit: int) returns (evicted: nat)
      requires live <= peak && 0 < limit
      modifies this, ledger
      ensures View() == FreeFirst(old(View()), Excess(old(View()), limit))
      ensures evicted == Excess(old(View()), limit)
    {
      ghost var m := View();
      evicted := 0;
      while |parked| > limit && live + |parked| > peak + limit
        invariant FreedTo(m, limit, evicted, View())
        decreases |parked|
      {
        FreedOn(m, limit, evicted, View());
        FreeOldestNow();
        evicted := evicted + 1;
      }
      FreedEnough(m, limit, evicted, View());
    }

    method ParkDecoder(bytes: int, g: Geometry, inLedger: bool, limit: int) returns (evicted: nat)
      requires live <= peak
      modifies this, ledger
      ensures View() == Park(old(View()), bytes, g, inLedger, limit)
      ensures evicted == freed - old(freed)
      ensures old(Good()) ==> Good()
    {
      Keeps(View(), DoPark(bytes, g, inLedger, limit));
      evicted := 0;
      if limit > 0 {
        AddEntry(bytes, g, inLedger);
        evicted := Evict(limit);
      }
    }

    method FreeOldestNow()
      requires parked != []
      modifies this, ledger
      ensures View() == FreeOldest(old(View()))
    {
      var e := parked[0];
      parked, freed := parked[1..], freed + 1;
      Destroy(e);
    }

    method FreeOneDecoder() returns (any: bool)
      modifies this, ledger
      ensures any <==> old(parked) != []
      ensures View() == FreeOne(old(View()))
      ensures old(Good()) ==> Good()
    {
      if live <= peak {
        Keeps(View(), DoFreeOne);
      }
      any := parked != [];
      if any {
        FreeOldestNow();
      }
    }

    method MakeRoomFor(bytes: int, budget: int) returns (count: nat)
      modifies this, ledger
      ensures View() == MakeRoom(old(View()), bytes, budget)
      ensures count == freed - old(freed)
      ensures old(Good()) ==> Good()
    {
      if live <= peak {
        Keeps(View(), DoMakeRoom(bytes, budget));
      }
      count := 0;
      var any := true;
      while any && budget != 0
        invariant count == freed - old(freed)
        invariant MakeRoom(View(), bytes, budget) == MakeRoom(old(View()), bytes, budget)
        invariant !any ==> parked == [] || Enough(View(), bytes, budget)
        decreases any, |parked|
      {
        var total := ledger.Sum();
        if total + bytes > budget {
          any := FreeOneDecoder();
          count := if any then count + 1 else count;
        } else {
          any := false;
        }
      }
    }

    method FindParked(need: Geometry) returns (best: Option<nat>)
      ensures best == Choice(parked, need)
    {
      best := None;
      var n: nat := 0;
      while n < |parked|
        invariant n <= |parked| && best == ChoiceAmong(parked, need, n)
      {
        if Fits(parked[n].geometry, need)
           && (best.None? || parked[n].geometry.surfaces < parked[best.value].geometry.surfaces) {
          best := Some(n);
        }
        n := n + 1;
      }
    }

    method TakeDecoder(need: Geometry) returns (taken: Option<Entry>)
      modifies this, ledger
      ensures View() == Take(old(View()), need)
      ensures taken == var k := Choice(old(parked), need); if k.None? then None else Some(old(parked)[k.value])
      ensures taken.Some? ==> Serves(taken.value.geometry, need) && taken.value in old(parked)
      ensures taken.Some? ==> forall e :: e in old(parked) && Serves(e.geometry, need) ==>
        taken.value.geometry.surfaces <= e.geometry.surfaces
      ensures taken.None? ==> forall e :: e in old(parked) ==> !Serves(e.geometry, need)
      ensures old(Good()) ==> Good()
    {
      if live <= peak {
        Keeps(View(), DoTake(need));
      }
      var best := FindParked(need);
      ServesAsFits(parked, need);
      if best.None? {
        return None;
      }
      var e := parked[best.value];
      parked, reused := parked[..best.value] + parked[best.value + 1..], reused + 1;
      Destroy(e);
      taken := Some(e);
    }

    method OpenSession()
      modifies this
      ensures View() == Opened(old(View()))
      ensures old(Good()) ==> Good()
    {
      if live <= peak {
        Keeps(View(), DoOpen);
      }
      live := live + 1;
      if live > peak {
        peak := live;
      }
    }

    method CloseSession()
      modifies this
      ensures View() == Closed(old(View()))
      ensures old(Good()) ==> Good()
    {
      if live <= peak {
        Keeps(View(), DoClose);
      }
      if live > 0 {
        live := live - 1;
      }
    }
  }

  /** So many of the oldest were freed, and not more than need be. */
  predicate FreedTo(m: Lot, limit: int, n: nat, l: Lot) {
    0 < limit && m.live <= m.peak && n <= Excess(m, limit) && l == FreeFirst(m, n)
  }

  predicate Beyond(l: Lot, limit: int) {
    |l.parked| > limit && l.live + |l.parked| > l.peak + limit
  }

  lemma FreedOn(m: Lot, limit: int, n: nat, l: Lot)
    requires FreedTo(m, limit, n, l) && Beyond(l, limit)
    ensures l.parked != [] && FreedTo(m, limit, n + 1, FreeOldest(l))
  {
    FreeFirstNext(m, n);
  }

  lemma FreedEnough(m: Lot, limit: int, n: nat, l: Lot)
    requires FreedTo(m, limit, n, l) && !Beyond(l, limit)
    ensures n == Excess(m, limit)
  {
  }

  lemma Keeps(l: Lot, op: Op)
    requires l.live <= l.peak
    ensures Valid(l) ==> Valid(Apply(l, op))
  {
    if Valid(l) {
      AlwaysConserved(l, op);
    }
  }

  lemma {:induction false} FreeFirstNext(l: Lot, n: nat)
    requires n < |l.parked|
    ensures FreeFirst(l, n + 1) == FreeOldest(FreeFirst(l, n))
    decreases n
  {
    if n > 0 {
      FreeFirstNext(FreeOldest(l), n - 1);
    }
  }

  // ------------------------------------------------------------------ what every operation keeps

  /** Every decoder ever parked was freed, reused, or is still parked. */
  predicate Conserved(l: Lot) {
    l.parkedTotal == l.freed + l.reused + |l.parked|
  }

  predicate DistinctEntries(parked: seq<Entry>, next: nat) {
    && (forall k :: 0 <= k < |parked| ==> parked[k].id < next)
    && (forall j, k :: 0 <= j < k < |parked| ==> parked[j].id != parked[k].id)
  }

  /** Each accounted parked pool is in the ledger once, and nothing else of the lot's is. */
  ghost predicate Booked(parked: seq<Entry>, pools: Pools) {
    && (forall k :: 0 <= k < |parked| && parked[k].accounted ==>
          && ParkedEntry(parked[k].id) in pools && pools[ParkedEntry(parked[k].id)] == parked[k].bytes
          && 0 < parked[k].bytes)
    && (forall id :: ParkedEntry(id) in pools ==> exists k :: 0 <= k < |parked| && parked[k].accounted && parked[k].id == id)
  }

  ghost predicate Valid(l: Lot) {
    l.live <= l.peak && Conserved(l) && DistinctEntries(l.parked, l.nextId) && Booked(l.parked, l.pools)
  }

  lemma OutKept(parked: seq<Entry>, pools: Pools, next: nat, k: nat)
    requires DistinctEntries(parked, next) && Booked(parked, pools) && k < |parked|
    ensures var rest := parked[..k] + parked[k + 1..];
      DistinctEntries(rest, next) && Booked(rest, Destroyed(pools, parked[k]))
  {
    var rest, after := parked[..k] + parked[k + 1..], Destroyed(pools, parked[k]);
    assert forall j :: 0 <= j < |rest| ==> rest[j] == parked[if j < k then j else j + 1];
    forall id | ParkedEntry(id) in after
      ensures exists j :: 0 <= j < |rest| && rest[j].accounted && rest[j].id == id
    {
      var j :| 0 <= j < |parked| && parked[j].accounted && parked[j].id == id;
      assert j != k;
      assert rest[if j < k then j else j - 1] == parked[j];
    }
  }

  lemma FreedValid(l: Lot)
    requires Valid(l) && l.parked != []
    ensures Valid(FreeOldest(l))
  {
    OutKept(l.parked, l.pools, l.nextId, 0);
    assert l.parked[..0] + l.parked[0 + 1..] == l.parked[1..];
  }

  lemma {:induction false} FreeFirstValid(l: Lot, n: nat)
    requires Valid(l) && n <= |l.parked|
    ensures Valid(FreeFirst(l, n))
    decreases n
  {
    if n > 0 {
      FreedValid(l);
      FreeFirstValid(FreeOldest(l), n - 1);
    }
  }

  lemma AddedValid(l: Lot, bytes: int, g: Geometry, ledger: bool)
    requires Valid(l)
    ensures Valid(Added(l, bytes, g, ledger))
  {
    var m := Added(l, bytes, g, ledger);
    var last := |l.parked|;
    forall id | ParkedEntry(id) in m.pools
      ensures exists k :: 0 <= k < |m.parked| && m.parked[k].accounted && m.parked[k].id == id
    {
      if ParkedEntry(id) in l.pools {
        var k :| 0 <= k < |l.parked| && l.parked[k].accounted && l.parked[k].id == id;
        assert m.parked[k] == l.parked[k];
      } else {
        assert m.parked[last].id == id;
      }
    }
  }

  datatype Op =
    | DoPark(bytes: int, geometry: Geometry, ledger: bool, limit: int)
    | DoOpen
    | DoClose
    | DoFreeOne
    | DoMakeRoom(bytes: int, budget: int)
    | DoTake(need: Geometry)
    | LiveReserves(id: nat, size: nat, budget: int)
    | LiveReleases(id: nat)

  ghost function Apply(l: Lot, op: Op): Lot
    requires l.live <= l.peak
  {
    match op
    case DoPark(bytes, g, ledger, limit) => Park(l, bytes, g, ledger, limit)
    case DoOpen => Opened(l)
    case DoClose => Closed(l)
    case DoFreeOne => FreeOne(l)
    case DoMakeRoom(bytes, budget) => MakeRoom(l, bytes, budget)
    case DoTake(need) => Take(l, need)
    case LiveReserves(id, bytes, budget) => l.(pools := Reserved(l.pools, LiveDecoder(id), bytes, budget))
    case LiveReleases(id) => l.(pools := l.pools - {LiveDecoder(id)})
  }

  lemma {:induction false} MakeRoomValid(l: Lot, bytes: int, budget: int)
    requires Valid(l)
    ensures Valid(MakeRoom(l, bytes, budget))
    decreases |l.parked|
  {
    if !Enough(l, bytes, budget) && l.parked != [] {
      FreedValid(l);
      MakeRoomValid(FreeOldest(l), bytes, budget);
    }
  }

  /**
    Whatever the show does: nothing parked is lost from the count, and the ledger holds each parked
    pool exactly once beside the live ones.
   */
  lemma AlwaysConserved(l: Lot, op: Op)
    requires Valid(l)
    ensures Valid(Apply(l, op))
  {
    match op
    case DoPark(bytes, g, ledger, limit) =>
      if limit > 0 {
        AddedValid(l, bytes, g, ledger);
        var m := Added(l, bytes, g, ledger);
        FreeFirstValid(m, Excess(m, limit));
      }
    case DoFreeOne =>
      if l.parked != [] {
        FreedValid(l);
      }
    case DoMakeRoom(bytes, budget) => MakeRoomValid(l, bytes, budget);
    case DoTake(need) =>
      if Choice(l.parked, need).Some? {
        OutKept(l.parked, l.pools, l.nextId, Choice(l.parked, need).value);
      }
    case _ =>
  }

  /** The lot of a new show. */
  function NewLot(): Lot {
    Lot([], 0, 0, 0, 0, 0, 0, map[])
  }

  ghost predicate RunOf(lots: seq<Lot>, ops: seq<Op>) {
    && |lots| == |ops| + 1
    && forall k :: 0 <= k < |ops| ==> lots[k].live <= lots[k].peak && lots[k + 1] == Apply(lots[k], ops[k])
  }

  /** ... in every run from a new show on. */
  lemma {:induction false} RunConserves(lots: seq<Lot>, ops: seq<Op>, k: nat)
    requires RunOf(lots, ops) && lots[0] == NewLot() && k <= |ops|
    ensures Valid(lots[k])
  {
    if k > 0 {
      RunConserves(lots, ops, k - 1);
      assert lots[k - 1 + 1] == Apply(lots[k - 1], ops[k - 1]);
      AlwaysConserved(lots[k - 1], ops[k - 1]);
    }
  }

  // ------------------------------------------------------------------ the budget of everything

  /** What entries hold of the ledger. */
  function BytesOf(entries: seq<Entry>): int {
    if entries == [] then 0
    else (if entries[0].accounted then entries[0].bytes else 0) + BytesOf(entries[1..])
  }

  /** Freeing gives back exactly what the freed ones hold. */
  lemma {:induction false} FreedBytes(l: Lot, n: nat)
    requires Valid(l) && n <= |l.parked|
    ensures Total(FreeFirst(l, n).pools) == Total(l.pools) - BytesOf(l.parked[..n])
    decreases n
  {
    if n > 0 {
      var e, m := l.parked[0], FreeOldest(l);
      FreedValid(l);
      FreedBytes(m, n - 1);
      TotalWith(l.pools, ParkedEntry(e.id), 0);
      assert l.parked[..n][0] == e && l.parked[..n][1..] == m.parked[..n - 1];
    } else {
      assert l.parked[..0] == [];
    }
  }

  function NewBytes(bytes: int, ledger: bool): int {
    if ledger && bytes > 0 then bytes else 0
  }

  /** What a park brings the total to: it reserves without a budget, and gives back what it frees. */
  function ParkTotal(l: Lot, total: int, bytes: int, g: Geometry, ledger: bool, limit: int): int
    requires l.live <= l.peak
  {
    if limit <= 0 then total
    else
      var m := Added(l, bytes, g, ledger);
      total + NewBytes(bytes, ledger) - BytesOf(m.parked[..Excess(m, limit)])
  }

  lemma ParkReserves(l: Lot, bytes: int, g: Geometry, ledger: bool, limit: int)
    requires Valid(l)
    ensures Total(Park(l, bytes, g, ledger, limit).pools) == ParkTotal(l, Total(l.pools), bytes, g, ledger, limit)
  {
    if limit > 0 {
      var m := Added(l, bytes, g, ledger);
      AddedValid(l, bytes, g, ledger);
      FreedBytes(m, Excess(m, limit));
      TotalWith(l.pools, ParkedEntry(l.nextId), bytes);
    }
  }

  /** Every live reservation is made under this budget. */
  predicate Budgeted(ops: seq<Op>, budget: int) {
    forall k :: 0 <= k < |ops| && ops[k].LiveReserves? ==> ops[k].budget == budget
  }

  predicate NotNegative(pools: Pools) {
    forall k :: k in pools ==> 0 <= pools[k]
  }

  lemma {:induction false} RunNotNegative(lots: seq<Lot>, ops: seq<Op>, k: nat)
    requires RunOf(lots, ops) && lots[0] == NewLot() && k <= |ops|
    ensures Valid(lots[k]) && NotNegative(lots[k].pools)
  {
    RunConserves(lots, ops, k);
    if k > 0 {
      RunNotNegative(lots, ops, k - 1);
      assert lots[k - 1 + 1] == Apply(lots[k - 1], ops[k - 1]);
      StepNotNegative(lots[k - 1], ops[k - 1]);
    }
  }

  lemma {:induction false} FreeFirstNotNegative(l: Lot, n: nat)
    requires NotNegative(l.pools) && n <= |l.parked|
    ensures NotNegative(FreeFirst(l, n).pools)
    decreases n
  {
    if n > 0 {
      FreeFirstNotNegative(FreeOldest(l), n - 1);
    }
  }

  lemma StepNotNegative(l: Lot, op: Op)
    requires Valid(l) && NotNegative(l.pools)
    ensures NotNegative(Apply(l, op).pools)
  {
    match op
    case DoPark(bytes, g, ledger, limit) =>
      if limit > 0 {
        var m := Added(l, bytes, g, ledger);
        FreeFirstNotNegative(m, Excess(m, limit));
      }
    case DoMakeRoom(bytes, budget) =>
      var n := MakeRoomFreesNoMore(l, bytes, budget);
      FreeFirstNotNegative(l, n);
    case _ =>
  }

  lemma {:induction false} BytesNotNegative(entries: seq<Entry>)
    requires forall k :: 0 <= k < |entries| && entries[k].accounted ==> 0 < entries[k].bytes
    ensures 0 <= BytesOf(entries)
  {
    if entries != [] {
      BytesNotNegative(entries[1..]);
    }
  }

  lemma FreeingAddsNothing(l: Lot, n: nat)
    requires Valid(l) && n <= |l.parked|
    ensures Total(FreeFirst(l, n).pools) <= Total(l.pools)
  {
    FreedBytes(l, n);
    BytesNotNegative(l.parked[..n]);
  }

  /** Only a park can take the total beyond where it was and beyond the budget. */
  lemma OthersStayWithin(l: Lot, op: Op, budget: int)
    requires Valid(l) && NotNegative(l.pools) && !op.DoPark? && Total(l.pools) <= budget && 0 < budget
    requires op.LiveReserves? ==> op.budget == budget
    ensures Total(Apply(l, op).pools) <= budget
  {
    match op
    case DoFreeOne =>
      if l.parked != [] {
        TotalWith(l.pools, ParkedEntry(l.parked[0].id), 0);
      }
    case DoMakeRoom(bytes, b) =>
      var n := MakeRoomFreesNoMore(l, bytes, b);
      FreeingAddsNothing(l, n);
    case DoTake(need) =>
      var k := Choice(l.parked, need);
      if k.Some? {
        TotalWith(l.pools, ParkedEntry(l.parked[k.value].id), 0);
      }
    case LiveReleases(id) => TotalWith(l.pools, LiveDecoder(id), 0);
    case _ =>
  }

  /** This step is a park after which the total is over the budget. */
  ghost predicate Overbooks(l: Lot, op: Op, budget: int)
    requires l.live <= l.peak
  {
    op.DoPark? && ParkTotal(l, Total(l.pools), op.bytes, op.geometry, op.ledger, op.limit) > budget
  }

  lemma {:induction false} WithinUntil(lots: seq<Lot>, ops: seq<Op>, budget: int, k: nat)
    requires RunOf(lots, ops) && lots[0] == NewLot() && 0 < budget && Budgeted(ops, budget) && k <= |ops|
    requires forall j :: 0 <= j < k ==> !Overbooks(lots[j], ops[j], budget)
    ensures Total(lots[k].pools) <= budget
  {
    if k > 0 {
      var l, op := lots[k - 1], ops[k - 1];
      WithinUntil(lots, ops, budget, k - 1);
      RunNotNegative(lots, ops, k - 1);
      assert lots[k - 1 + 1] == Apply(l, op) && !Overbooks(l, op, budget);
      if op.DoPark? {
        ParkReserves(l, op.bytes, op.geometry, op.ledger, op.limit);
      } else {
        OthersStayWithin(l, op, budget);
      }
    }
  }

  /**
    In a show whose live reservations are made under one budget, the ledger stays within it throughout if and
    only if no park overbooks it: nothing else can.
   */
  lemma TotalWithinBudget(lots: seq<Lot>, ops: seq<Op>, budget: int)
    requires RunOf(lots, ops) && lots[0] == NewLot() && 0 < budget && Budgeted(ops, budget)
    ensures (forall k :: 0 <= k <= |ops| ==> Total(lots[k].pools) <= budget) <==>
            (forall k :: 0 <= k < |ops| ==> !Overbooks(lots[k], ops[k], budget))
  {
    if forall k :: 0 <= k <= |ops| ==> Total(lots[k].pools) <= budget {
      forall k | 0 <= k < |ops|
        ensures !Overbooks(lots[k], ops[k], budget)
      {
        RunConserves(lots, ops, k);
        assert lots[k + 1] == Apply(lots[k], ops[k]);
        if ops[k].DoPark? {
          ParkReserves(lots[k], ops[k].bytes, ops[k].geometry, ops[k].ledger, ops[k].limit);
        }
      }
    } else if forall k :: 0 <= k < |ops| ==> !Overbooks(lots[k], ops[k], budget) {
      forall k | 0 <= k <= |ops|
        ensures Total(lots[k].pools) <= budget
      {
        WithinUntil(lots, ops, budget, k);
      }
    }
  }

  lemma RunGrows(lots: seq<Lot>, ops: seq<Op>, op: Op) returns (longer: seq<Lot>)
    requires RunOf(lots, ops) && lots[|ops|].live <= lots[|ops|].peak
    ensures longer == lots + [Apply(lots[|ops|], op)] && RunOf(longer, ops + [op]) && longer[0] == lots[0]
  {
    longer := lots + [Apply(lots[|ops|], op)];
  }

  /** A decoder opens within the budget and is about to park. */
  lemma Closes(size: nat, budget: int) returns (lots: seq<Lot>, ops: seq<Op>)
    requires size <= budget
    ensures RunOf(lots, ops) && lots[0] == NewLot() && ops == [DoOpen, LiveReserves(0, size, budget), DoClose]
    ensures lots[3] == Lot([], 0, 0, 0, 0, 1, 0, map[LiveDecoder(0) := size]) && Total(lots[3].pools) == size
  {
    var none: Pools := map[];
    TotalWith(none, LiveDecoder(0), size);
    assert none[LiveDecoder(0) := size] == map[LiveDecoder(0) := size];
    lots := RunGrows([NewLot()], [], DoOpen);
    lots := RunGrows(lots, [DoOpen], LiveReserves(0, size, budget));
    lots := RunGrows(lots, [DoOpen, LiveReserves(0, size, budget)], DoClose);
    ops := [DoOpen, LiveReserves(0, size, budget), DoClose];
  }

  /**
    It happens: a decoder that closes parks before it releases its own pool, which counts twice in between,
    so that one decoder alone takes a show from its whole budget to twice that.
   */
  lemma ClosingOverbooks(budget: nat) returns (lots: seq<Lot>, ops: seq<Op>)
    requires 0 < budget
    ensures RunOf(lots, ops) && lots[0] == NewLot() && Budgeted(ops, budget) && |ops| == 4
    ensures ops[3] == DoPark(budget, Geometry(0, 0, 0, 0, 0), true, 1) && Overbooks(lots[3], ops[3], budget)
    ensures Total(lots[4].pools) == 2 * budget
  {
    var park := DoPark(budget, Geometry(0, 0, 0, 0, 0), true, 1);
    lots, ops := Closes(budget, budget);
    var l := lots[3];
    lots := RunGrows(lots, ops, park);
    ops := ops + [park];
    RunConserves(lots, ops, 3);
    ParkReserves(l, budget, park.geometry, true, 1);
    assert Excess(Added(l, budget, park.geometry, true), 1) == 0;
  }

  /** Once it has released that pool, too, nothing is booked that was not before. */
  lemma ClosedAddsNothing(l: Lot, id: nat, bytes: int, g: Geometry, ledger: bool, limit: int)
    requires Valid(l) && LiveDecoder(id) in l.pools && NewBytes(bytes, ledger) <= l.pools[LiveDecoder(id)]
    ensures var m := Apply(Park(l, bytes, g, ledger, limit), LiveReleases(id)); Total(m.pools) <= Total(l.pools)
  {
    var m := Park(l, bytes, g, ledger, limit);
    ParkReserves(l, bytes, g, ledger, limit);
    ParkKeepsLive(l, bytes, g, ledger, limit);
    assert LiveDecoder(id) in LivePart(m.pools) && LivePart(m.pools)[LiveDecoder(id)] == l.pools[LiveDecoder(id)];
    TotalWith(m.pools, LiveDecoder(id), 0);
    if limit > 0 {
      AddedValid(l, bytes, g, ledger);
      var a := Added(l, bytes, g, ledger);
      BytesNotNegative(a.parked[..Excess(a, limit)]);
    }
  }

  // ------------------------------------------------------------------ the live decoders' budget

  /** The pools of decoders that are not parked. */
  function LivePart(pools: Pools): Pools {
    map k | k in pools && k.LiveDecoder? :: pools[k]
  }

  lemma {:induction false} LiveAtMostTotal(pools: Pools)
    requires forall k :: k in pools && k.ParkedEntry? ==> 0 <= pools[k]
    ensures Total(LivePart(pools)) <= Total(pools)
    decreases |pools|
  {
    if pools != map[] {
      var k :| k in pools;
      LiveAtMostTotal(pools - {k});
      TotalWithout(pools, k);
      if k.LiveDecoder? {
        assert LivePart(pools) - {k} == LivePart(pools - {k});
        TotalWithout(LivePart(pools), k);
      } else {
        assert LivePart(pools) == LivePart(pools - {k});
      }
    } else {
      assert LivePart(pools) == map[];
    }
  }

  lemma {:induction false} FreeFirstKeepsLive(l: Lot, n: nat)
    requires n <= |l.parked|
    ensures LivePart(FreeFirst(l, n).pools) == LivePart(l.pools)
    decreases n
  {
    if n > 0 {
      FreeFirstKeepsLive(FreeOldest(l), n - 1);
      assert LivePart(FreeOldest(l).pools) == LivePart(l.pools);
    }
  }

  lemma ParkKeepsLive(l: Lot, bytes: int, g: Geometry, ledger: bool, limit: int)
    requires l.live <= l.peak
    ensures LivePart(Park(l, bytes, g, ledger, limit).pools) == LivePart(l.pools)
  {
    if limit > 0 {
      var m := Added(l, bytes, g, ledger);
      FreeFirstKeepsLive(m, Excess(m, limit));
      assert LivePart(m.pools) == LivePart(l.pools);
    }
  }

  /** Parking, freeing, making room and taking over do not touch the live decoders' pools. */
  lemma ParkingKeepsLivePools(l: Lot, op: Op)
    requires l.live <= l.peak && !op.LiveReserves? && !op.LiveReleases?
    ensures LivePart(Apply(l, op).pools) == LivePart(l.pools)
  {
    match op
    case DoPark(bytes, g, ledger, limit) => ParkKeepsLive(l, bytes, g, ledger, limit);
    case DoMakeRoom(bytes, budget) =>
      var n := MakeRoomFreesNoMore(l, bytes, budget);
      FreeFirstKeepsLive(l, n);
    case _ =>
  }

  lemma LiveStep(l: Lot, op: Op, budget: int)
    requires Valid(l) && NotNegative(l.pools) && 0 < budget && Total(LivePart(l.pools)) <= budget
    requires op.LiveReserves? ==> op.budget == budget
    ensures Total(LivePart(Apply(l, op).pools)) <= budget
  {
    match op
    case LiveReserves(id, bytes, _) => LiveAtMostTotal(l.pools[LiveDecoder(id) := bytes]);
    case LiveReleases(id) =>
      assert LivePart(l.pools - {LiveDecoder(id)}) == LivePart(l.pools) - {LiveDecoder(id)};
      TotalWith(LivePart(l.pools), LiveDecoder(id), 0);
    case _ => ParkingKeepsLivePools(l, op);
  }

  /** Whatever is parked meanwhile, the live decoders' own pools stay within the budget in every run. */
  lemma {:induction false} LiveWithinBudget(lots: seq<Lot>, ops: seq<Op>, budget: int, k: nat)
    requires RunOf(lots, ops) && lots[0] == NewLot() && 0 < budget && Budgeted(ops, budget) && k <= |ops|
    ensures Total(LivePart(lots[k].pools)) <= budget
  {
    if k > 0 {
      LiveWithinBudget(lots, ops, budget, k - 1);
      RunNotNegative(lots, ops, k - 1);
      assert lots[k - 1 + 1] == Apply(lots[k - 1], ops[k - 1]);
      LiveStep(lots[k - 1], ops[k - 1], budget);
    } else {
      assert LivePart(NewLot().pools) == map[];
    }
  }

  // ------------------------------------------------------------------ the lot's bound

  /** After every park the decoders, live and parked, are at most `limit` more than ever ran at once. */
  lemma ParkBounds(l: Lot, bytes: int, g: Geometry, ledger: bool, limit: int)
    requires l.live <= l.peak && 0 < limit
    ensures var m := Park(l, bytes, g, ledger, limit);
      && m.live + |m.parked| <= m.peak + limit
      && (m.freed > l.freed ==> |m.parked| == limit || m.live + |m.parked| == m.peak + limit)
  {
    var m := Added(l, bytes, g, ledger);
    assert |FreeFirst(m, Excess(m, limit)).parked| == |m.parked| - Excess(m, limit);
  }

  /** Opening alone may exceed that until the next park: exactly when the lot is full and not all the peak runs. */
  lemma OpeningExceeds(l: Lot, limit: int)
    requires Valid(l) && 0 < limit && l.live + |l.parked| <= l.peak + limit
    ensures Opened(l).live + |Opened(l).parked| > Opened(l).peak + limit <==>
            l.live < l.peak && l.live + |l.parked| == l.peak + limit
  {
    var m := Opened(l);
    if l.live == l.peak {
      assert m.peak == l.peak + 1;
    } else {
      assert m.peak == l.peak;
    }
  }

  predicate OneAtATime(lots: seq<Lot>, ops: seq<Op>, parked: nat) {
    && |lots| == |ops| + 1
    && (forall k :: 0 <= k < |ops| && ops[k].DoPark? ==> ops[k].limit == 1)
    && lots[|ops|].live == 0 && lots[|ops|].peak <= 1 && (0 < parked ==> lots[|ops|].peak == 1)
    && |lots[|ops|].parked| == parked
  }

  /** A decoder comes, goes and is parked. */
  lemma ComesAndGoes(lots: seq<Lot>, ops: seq<Op>, parked: nat) returns (longer: seq<Lot>, all: seq<Op>)
    requires RunOf(lots, ops) && OneAtATime(lots, ops, parked) && parked <= 1
    ensures RunOf(longer, all) && longer[0] == lots[0] && OneAtATime(longer, all, parked + 1) && |all| == |ops| + 3
  {
    var park := DoPark(0, Geometry(0, 0, 0, 0, 0), false, 1);
    longer := RunGrows(lots, ops, DoOpen);
    longer := RunGrows(longer, ops + [DoOpen], DoClose);
    longer := RunGrows(longer, ops + [DoOpen] + [DoClose], park);
    all := ops + [DoOpen] + [DoClose] + [park];
  }

  /** ... and a run that comes to that: under a limit of 1 two decoders come and go one after the other, and a third comes. */
  lemma OpeningMayExceed() returns (lots: seq<Lot>, ops: seq<Op>)
    ensures RunOf(lots, ops) && lots[0] == NewLot() && forall k :: 0 <= k < |ops| && ops[k].DoPark? ==> ops[k].limit == 1
    ensures var l := lots[|ops|];
      l.live + |l.parked| <= l.peak + 1 && Opened(l).live + |Opened(l).parked| > Opened(l).peak + 1
  {
    lots, ops := ComesAndGoes([NewLot()], [], 0);
    lots, ops := ComesAndGoes(lots, ops, 1);
  }

  // ------------------------------------------------------------------ a show that changes sources

  /** A source leaves (its decoder closes, then parks), or comes and takes a parked decoder over. */
  datatype Change = Leaves(bytes: int, geometry: Geometry, ledger: bool, limit: int) | Comes(need: Geometry)

  ghost predicate Possible(l: Lot, c: Change) {
    match c
    case Leaves(_, _, _, limit) => l.live > 0 && limit > 0
    case Comes(need) => Choice(l.parked, need).Some?
  }

  function Changed(l: Lot, c: Change): Lot
    requires l.live <= l.peak
  {
    match c
    case Leaves(bytes, g, ledger, limit) => Park(Closed(l), bytes, g, ledger, limit)
    case Comes(need) => Opened(Take(l, need))
  }

  function ChangedBy(l: Lot, cs: seq<Change>): (m: Lot)
    requires l.live <= l.peak
    ensures m.live <= m.peak
    decreases |cs|
  {
    if cs == [] then l else ChangedBy(Changed(l, cs[0]), cs[1..])
  }

  ghost predicate AllPossible(l: Lot, cs: seq<Change>)
    requires l.live <= l.peak
    decreases |cs|
  {
    cs == [] || (Possible(l, cs[0]) && AllPossible(Changed(l, cs[0]), cs[1..]))
  }

  /** Such a show never frees a decoder, however it goes, as long as it starts with no more than ever ran at once. */
  lemma {:induction false} ChangingSourcesFreesNothing(l: Lot, cs: seq<Change>)
    requires l.live + |l.parked| <= l.peak && AllPossible(l, cs)
    ensures var m := ChangedBy(l, cs);
      m.freed == l.freed && m.peak == l.peak && m.live + |m.parked| == l.live + |l.parked|
    decreases |cs|
  {
    if cs != [] {
      var m := Changed(l, cs[0]);
      assert m.freed == l.freed && m.peak == l.peak && m.live + |m.parked| == l.live + |l.parked|;
      ChangingSourcesFreesNothing(m, cs[1..]);
    }
  }

  // ------------------------------------------------------------------ making room

  /** The request fits the budget afterwards, or nothing is parked any more. */
  lemma {:induction false} MakeRoomFits(l: Lot, bytes: int, budget: int)
    ensures var m := MakeRoom(l, bytes, budget); Enough(m, bytes, budget) || m.parked == []
    decreases |l.parked|
  {
    if !Enough(l, bytes, budget) && l.parked != [] {
      MakeRoomFits(FreeOldest(l), bytes, budget);
    }
  }

  /** The oldest went, and not one more than needed. */
  lemma {:induction false} MakeRoomFreesNoMore(l: Lot, bytes: int, budget: int) returns (n: nat)
    ensures n <= |l.parked| && MakeRoom(l, bytes, budget) == FreeFirst(l, n)
    ensures forall k :: 0 <= k < n ==> !Enough(FreeFirst(l, k), bytes, budget)
    decreases |l.parked|
  {
    if Enough(l, bytes, budget) || l.parked == [] {
      n := 0;
    } else {
      var m := MakeRoomFreesNoMore(FreeOldest(l), bytes, budget);
      n := m + 1;
      forall k | 0 <= k < n
        ensures !Enough(FreeFirst(l, k), bytes, budget)
      {
        if k > 0 {
          assert FreeFirst(l, k) == FreeFirst(FreeOldest(l), k - 1);
        }
      }
    }
  }
}

/** Sources, their capacity and their health (src/lane.rs). Lane and source names are only
    compared for equality, so they are numbers here; speeds are never NaN. */
module Lanes {
  import opened Ranges

  const BLACKLIST_THRESHOLD: nat := 3
  const BLACKLIST_DURATION: int := 30000

  type Name = nat

  datatype LaneModel = PerSource | PerSourceProxy
  datatype Health = Healthy | Blacklisted

  datatype Candidate = Candidate(lane: Name, source: Name, speed: real)

  datatype Lane = Lane(
    name: Name, source: Name, speed: real, active: nat, failures: nat, health: Health, blacklistedAt: Option<int>)

  datatype Schedule = Schedule(
    model: LaneModel, maxWorkers: nat, maxPerLane: nat, maxPerSource: Option<nat>, lanes: seq<Lane>)

  // ----- building the lanes

  function Normalize(c: Candidate, model: LaneModel): Candidate {
    if model == PerSource then c.(lane := c.source) else c
  }

  /** A new lane goes behind every lane that is at least as fast, as a stable sort would put it. */
  function Insert(lanes: seq<Lane>, l: Lane): seq<Lane> {
    if lanes == [] then [l]
    else if lanes[0].speed >= l.speed then [lanes[0]] + Insert(lanes[1..], l)
    else [l] + lanes
  }

  function Has(lanes: seq<Lane>, name: Name): bool {
    exists i | 0 <= i < |lanes| :: lanes[i].name == name
  }

  function FromCandidates(cs: seq<Candidate>, model: LaneModel): seq<Lane>
    decreases |cs|
  {
    if cs == [] then []
    else
      var lanes := FromCandidates(cs[..|cs| - 1], model);
      var c := Normalize(cs[|cs| - 1], model);
      if Has(lanes, c.lane) then lanes
      else Insert(lanes, Lane(c.lane, c.source, c.speed, 0, 0, Healthy, None))
  }

  ghost predicate Distinct(lanes: seq<Lane>) {
    forall i, j | 0 <= i < j < |lanes| :: lanes[i].name != lanes[j].name
  }

  ghost predicate FastestFirst(lanes: seq<Lane>) {
    forall i, j | 0 <= i < j < |lanes| :: lanes[i].speed >= lanes[j].speed
  }

  lemma {:induction false} InsertKeeps(lanes: seq<Lane>, l: Lane)
    requires Distinct(lanes) && FastestFirst(lanes) && !Has(lanes, l.name)
    ensures var r := Insert(lanes, l);
      && |r| == |lanes| + 1 && Distinct(r) && FastestFirst(r)
      && (forall x :: x in r <==> x in lanes || x == l)
  {
    if lanes != [] && lanes[0].speed >= l.speed {
      assert forall i | 0 <= i < |lanes[1..]| :: lanes[1..][i] == lanes[i + 1];
      InsertKeeps(lanes[1..], l);
      var t := Insert(lanes[1..], l);
      forall k | 0 <= k < |t| ensures t[k].name != lanes[0].name && t[k].speed <= lanes[0].speed {
        assert t[k] in lanes[1..] || t[k] == l;
      }
      assert forall x :: x in lanes <==> x == lanes[0] || x in lanes[1..];
    }
  }

  /** The lanes of a schedule are distinct, fastest first, idle, and exist when a candidate does. */
  lemma {:induction false} FromCandidatesShape(cs: seq<Candidate>, model: LaneModel)
    ensures var lanes := FromCandidates(cs, model);
      && Distinct(lanes) && FastestFirst(lanes) && (lanes == [] <==> cs == [])
      && (forall i | 0 <= i < |lanes| :: lanes[i].active == 0 && lanes[i].health == Healthy)
      && (model == PerSource ==> forall i | 0 <= i < |lanes| :: lanes[i].name == lanes[i].source)
    decreases |cs|
  {
    if cs != [] {
      FromCandidatesShape(cs[..|cs| - 1], model);
      var lanes := FromCandidates(cs[..|cs| - 1], model);
      var c := Normalize(cs[|cs| - 1], model);
      if !Has(lanes, c.lane) {
        var l := Lane(c.lane, c.source, c.speed, 0, 0, Healthy, None);
        InsertKeeps(lanes, l);
        var r := Insert(lanes, l);
        forall i | 0 <= i < |r| ensures r[i] in lanes || r[i] == l {
          assert r[i] in r;
        }
      }
    }
  }

  /** The position of the first candidate that names lane n, |cs| when none does. */
  ghost function FirstNaming(cs: seq<Candidate>, model: LaneModel, n: Name): (i: nat)
    ensures i <= |cs| && (i < |cs| ==> Normalize(cs[i], model).lane == n)
    ensures forall j | 0 <= j < i :: Normalize(cs[j], model).lane != n
  {
    if cs == [] || Normalize(cs[0], model).lane == n then 0 else 1 + FirstNaming(cs[1..], model, n)
  }

  lemma FirstOfMore(cs: seq<Candidate>, model: LaneModel, n: Name)
    requires cs != []
    ensures var front := cs[..|cs| - 1];
      var i := FirstNaming(front, model, n);
      FirstNaming(cs, model, n) == if i < |front| then i
                                   else if Normalize(cs[|front|], model).lane == n then |front| else |cs|
  {
    var front := cs[..|cs| - 1];
    var i, k := FirstNaming(front, model, n), FirstNaming(cs, model, n);
    assert forall j | 0 <= j < |front| :: front[j] == cs[j];
    assert k < |front| ==> Normalize(front[k], model).lane == n;
  }

  /** Every candidate has its lane, and a lane's source and speed are those of its first candidate. */
  lemma {:induction false} CandidatesHaveLanes(cs: seq<Candidate>, model: LaneModel, n: Name)
    ensures var lanes, i := FromCandidates(cs, model), FirstNaming(cs, model, n);
      && (Has(lanes, n) <==> i < |cs|)
      && (forall l | l in lanes && l.name == n :: i < |cs| && l.source == cs[i].source && l.speed == cs[i].speed)
    decreases |cs|
  {
    if cs != [] {
      hide FirstNaming, Has, Insert;
      var front := cs[..|cs| - 1];
      CandidatesHaveLanes(front, model, n);
      FromCandidatesShape(front, model);
      FirstOfMore(cs, model, n);
      var lanes := FromCandidates(front, model);
      var c := Normalize(cs[|cs| - 1], model);
      if !Has(lanes, c.lane) {
        var l := Lane(c.lane, c.source, c.speed, 0, 0, Healthy, None);
        InsertKeeps(lanes, l);
        HasInserted(lanes, l, n);
      }
    }
  }

  /** Lanes of the same speed stand in the order of their candidates. */
  ghost predicate Stable(lanes: seq<Lane>, cs: seq<Candidate>, model: LaneModel) {
    forall i, j | 0 <= i < j < |lanes| && lanes[i].speed == lanes[j].speed ::
      FirstNaming(cs, model, lanes[i].name) < FirstNaming(cs, model, lanes[j].name)
  }

  lemma {:induction false} CandidatesKeepOrder(cs: seq<Candidate>, model: LaneModel)
    ensures Stable(FromCandidates(cs, model), cs, model)
    decreases |cs|
  {
    if cs != [] {
      hide FirstNaming, Has, Insert;
      var front := cs[..|cs| - 1];
      CandidatesKeepOrder(front, model);
      FromCandidatesShape(front, model);
      var lanes := FromCandidates(front, model);
      var c := Normalize(cs[|cs| - 1], model);
      forall k | 0 <= k < |lanes|
        ensures FirstNaming(cs, model, lanes[k].name) == FirstNaming(front, model, lanes[k].name) < |front|
      {
        HasMember(lanes, lanes[k].name);
        CandidatesHaveLanes(front, model, lanes[k].name);
        FirstOfMore(cs, model, lanes[k].name);
      }
      if !Has(lanes, c.lane) {
        CandidatesHaveLanes(front, model, c.lane);
        FirstOfMore(cs, model, c.lane);
        InsertStable(lanes, Lane(c.lane, c.source, c.speed, 0, 0, Healthy, None), cs, model);
      }
    }
  }

  lemma {:induction false} InsertStable(lanes: seq<Lane>, l: Lane, cs: seq<Candidate>, model: LaneModel)
    requires Stable(lanes, cs, model) && FastestFirst(lanes)
    requires forall k | 0 <= k < |lanes| ::
      FirstNaming(cs, model, lanes[k].name) < FirstNaming(cs, model, l.name)
    ensures Stable(Insert(lanes, l), cs, model)
    ensures forall x | x in Insert(lanes, l) :: x in lanes || x == l
  {
    hide FirstNaming;
    if lanes != [] && lanes[0].speed >= l.speed {
      var tail := lanes[1..];
      assert forall k | 0 <= k < |tail| :: tail[k] == lanes[k + 1];
      InsertStable(tail, l, cs, model);
      var t := Insert(tail, l);
      forall k | 0 <= k < |t| && t[k].speed == lanes[0].speed
        ensures FirstNaming(cs, model, lanes[0].name) < FirstNaming(cs, model, t[k].name)
      {
        assert t[k] in tail || t[k] == l;
      }
      assert forall x | x in tail :: x in lanes;
    }
  }

  lemma HasInserted(lanes: seq<Lane>, l: Lane, n: Name)
    requires forall x :: x in Insert(lanes, l) <==> x in lanes || x == l
    ensures Has(Insert(lanes, l), n) <==> Has(lanes, n) || l.name == n
    ensures Has(lanes, n) <==> exists x :: x in lanes && x.name == n
  {
    HasMember(lanes, n);
    HasMember(Insert(lanes, l), n);
  }

  lemma HasMember(lanes: seq<Lane>, n: Name)
    ensures Has(lanes, n) <==> exists x :: x in lanes && x.name == n
  {
    if Has(lanes, n) {
      var i :| 0 <= i < |lanes| && lanes[i].name == n;
      assert lanes[i] in lanes;
    }
  }

  // ----- choosing a lane

  ghost function Active(): Lane -> int {
    (l: Lane) => l.active
  }

  ghost function ActiveOf(source: Name): Lane -> int {
    (l: Lane) => if l.source == source then l.active else 0
  }

  function Revive(l: Lane, now: int): Lane {
    if l.health == Blacklisted && l.blacklistedAt.Some? && now - l.blacklistedAt.value >= BLACKLIST_DURATION
    then l.(health := Healthy, failures := 0, blacklistedAt := None)
    else l
  }

  function Decay(s: Schedule, now: int): Schedule {
    s.(lanes := seq(|s.lanes|, i requires 0 <= i < |s.lanes| => Revive(s.lanes[i], now)))
  }

  ghost predicate HasCapacity(s: Schedule, l: Lane) {
    && Sum(s.lanes, Active()) < s.maxWorkers
    && l.active < s.maxPerLane
    && (s.model == PerSource && s.maxPerSource.Some? ==> Sum(s.lanes, ActiveOf(l.source)) < s.maxPerSource.value)
  }

  ghost predicate Eligible(s: Schedule, l: Lane, allowBlacklisted: bool) {
    (allowBlacklisted || l.health == Healthy) && HasCapacity(s, l)
  }

  ghost function SelectFrom(s: Schedule, from: nat, allowBlacklisted: bool): (i: nat)
    requires from <= |s.lanes|
    ensures from <= i <= |s.lanes|
    ensures i < |s.lanes| ==> Eligible(s, s.lanes[i], allowBlacklisted)
    ensures forall k | from <= k < i :: !Eligible(s, s.lanes[k], allowBlacklisted)
    decreases |s.lanes| - from
  {
    if from == |s.lanes| || Eligible(s, s.lanes[from], allowBlacklisted) then from
    else SelectFrom(s, from + 1, allowBlacklisted)
  }

  /** The chosen position in the (decayed) schedule, |lanes| when there is none. */
  ghost function BestLane(s: Schedule): (i: nat)
    ensures i <= |s.lanes|
  {
    var healthy := SelectFrom(s, 0, false);
    if healthy < |s.lanes| then healthy else SelectFrom(s, 0, true)
  }

  /** No lane is returned exactly when no lane has capacity; otherwise the lane has capacity and
      is the fastest healthy one, or, only when no healthy lane has capacity, the fastest of all. */
  lemma BestLaneIsBest(s: Schedule)
    requires FastestFirst(s.lanes)
    ensures var i := BestLane(s);
      && (i == |s.lanes| <==> forall k | 0 <= k < |s.lanes| :: !HasCapacity(s, s.lanes[k]))
      && (i < |s.lanes| ==> HasCapacity(s, s.lanes[i]))
      && (i < |s.lanes| && s.lanes[i].health == Healthy ==>
            forall k | 0 <= k < |s.lanes| && Eligible(s, s.lanes[k], false) :: s.lanes[k].speed <= s.lanes[i].speed)
      && (i < |s.lanes| && s.lanes[i].health == Blacklisted ==>
            && (forall k | 0 <= k < |s.lanes| :: !Eligible(s, s.lanes[k], false))
            && (forall k | 0 <= k < |s.lanes| && HasCapacity(s, s.lanes[k]) :: s.lanes[k].speed <= s.lanes[i].speed))
  {
    var healthy, any := SelectFrom(s, 0, false), SelectFrom(s, 0, true);
  }

  function IndexOf(lanes: seq<Lane>, name: Name): (i: nat)
    ensures i <= |lanes| && (i < |lanes| ==> lanes[i].name == name)
    ensures forall k | 0 <= k < i :: lanes[k].name != name
  {
    if lanes == [] || lanes[0].name == name then 0 else 1 + IndexOf(lanes[1..], name)
  }

  function SetLane(s: Schedule, i: nat, l: Lane): Schedule
    requires i < |s.lanes|
  {
    s.(lanes := s.lanes[i := l])
  }

  function Assign(l: Lane): Lane { l.(active := l.active + 1) }

  function Unassign(l: Lane): Lane { l.(active := if l.active > 0 then l.active - 1 else 0) }

  function Blame(l: Lane, now: int): Lane {
    var f := l.failures + 1;
    if f >= BLACKLIST_THRESHOLD then l.(failures := f, health := Blacklisted, blacklistedAt := Some(now))
    else l.(failures := f)
  }

  function Praise(l: Lane): Lane { l.(failures := 0, health := Healthy, blacklistedAt := None) }

  ghost function Claim(s: Schedule, now: int): (Schedule, Option<Name>) {
    var d := Decay(s, now);
    var i := BestLane(d);
    if i == |d.lanes| then (d, None)
    else (SetLane(d, i, Assign(d.lanes[i])), Some(d.lanes[i].name))
  }

  /** What the monitor does to the lane of a chunk that failed (or completed). */
  function Release(s: Schedule, name: Name, failed: bool, now: int): Schedule {
    var i := IndexOf(s.lanes, name);
    if i == |s.lanes| then s
    else SetLane(s, i, Unassign(if failed then Blame(s.lanes[i], now) else Praise(s.lanes[i])))
  }

  // ----- conservation

  ghost function BoundIds(bindings: map<nat, Name>, name: Name): set<nat> {
    set id | id in bindings && bindings[id] == name
  }

  ghost function Bound(bindings: map<nat, Name>, name: Name): nat {
    |BoundIds(bindings, name)|
  }

  /** Each lane's counter is the number of chunks bound to it; every binding names a lane. */
  ghost predicate LoadsMatch(s: Schedule, bindings: map<nat, Name>) {
    && Ordered(s.lanes)
    && (forall i | 0 <= i < |s.lanes| :: s.lanes[i].active == Bound(bindings, s.lanes[i].name))
    && (forall id | id in bindings :: IndexOf(s.lanes, bindings[id]) < |s.lanes|)
  }

  ghost predicate Ordered(lanes: seq<Lane>) {
    Distinct(lanes) && FastestFirst(lanes)
  }

  ghost predicate WithinCaps(s: Schedule) {
    && Sum(s.lanes, Active()) <= s.maxWorkers
    && (forall i | 0 <= i < |s.lanes| :: s.lanes[i].active <= s.maxPerLane)
    && (s.model == PerSource && s.maxPerSource.Some? ==>
          forall source: Name :: Sum(s.lanes, ActiveOf(source)) <= s.maxPerSource.value)
  }

  /** The same lanes in the same order, whatever their counters and health. */
  ghost predicate SameLanes(a: seq<Lane>, b: seq<Lane>) {
    && |a| == |b|
    && forall i | 0 <= i < |a| :: a[i].name == b[i].name && a[i].source == b[i].source && a[i].speed == b[i].speed
  }

  lemma SameOrder(a: seq<Lane>, b: seq<Lane>)
    requires SameLanes(a, b)
    ensures Ordered(a) ==> Ordered(b)
    ensures forall name :: IndexOf(a, name) == IndexOf(b, name)
  {
    forall name ensures IndexOf(a, name) == IndexOf(b, name) {
      var i, j := IndexOf(a, name), IndexOf(b, name);
      assert i < |a| ==> b[i].name == name;
      assert j < |b| ==> a[j].name == name;
    }
  }

  lemma DecayKeeps(s: Schedule, now: int, bindings: map<nat, Name>)
    ensures SameLanes(s.lanes, Decay(s, now).lanes)
    ensures LoadsMatch(s, bindings) ==> LoadsMatch(Decay(s, now), bindings)
  {
    SameOrder(s.lanes, Decay(s, now).lanes);
  }

  lemma DecayKeepsCaps(s: Schedule, now: int)
    requires WithinCaps(s)
    ensures WithinCaps(Decay(s, now))
  {
    var d := Decay(s, now);
    SumDecayed(s.lanes, d.lanes, Active());
    forall source: Name ensures Sum(s.lanes, ActiveOf(source)) == Sum(d.lanes, ActiveOf(source)) {
      SumDecayed(s.lanes, d.lanes, ActiveOf(source));
    }
  }

  lemma {:induction false} SumDecayed(a: seq<Lane>, b: seq<Lane>, f: Lane -> int)
    requires |a| == |b| && forall i | 0 <= i < |a| :: f(a[i]) == f(b[i])
    ensures Sum(a, f) == Sum(b, f)
  {
    if a != [] {
      SumDecayed(a[1..], b[1..], f);
    }
  }

  lemma BoundNone(name: Name)
    ensures Bound(map[], name) == 0
  {
    assert BoundIds(map[], name) == {};
  }

  lemma BoundInsert(bindings: map<nat, Name>, id: nat, name: Name, other: Name)
    requires id !in bindings
    ensures Bound(bindings[id := name], other) == Bound(bindings, other) + if name == other then 1 else 0
  {
    var before, after := BoundIds(bindings, other), BoundIds(bindings[id := name], other);
    assert after == if name == other then before + {id} else before;
  }

  lemma BoundRemove(bindings: map<nat, Name>, id: nat, other: Name)
    requires id in bindings
    ensures Bound(bindings - {id}, other) == Bound(bindings, other) - if bindings[id] == other then 1 else 0
  {
    var rest := bindings - {id};
    BoundInsert(rest, id, bindings[id], other);
    assert rest[id := bindings[id]] == bindings;
  }

  /** Claiming binds one more chunk to the chosen lane and never exceeds a cap. */
  lemma ClaimConserves(s: Schedule, now: int, bindings: map<nat, Name>, id: nat)
    requires LoadsMatch(s, bindings) && WithinCaps(s) && id !in bindings
    ensures var (t, lane) := Claim(s, now);
      && WithinCaps(t)
      && LoadsMatch(t, if lane.Some? then bindings[id := lane.value] else bindings)
  {
    DecayKeeps(s, now, bindings);
    DecayKeepsCaps(s, now);
    var d := Decay(s, now);
    BestLaneIsBest(d);
    var i := BestLane(d);
    if i < |d.lanes| {
      AssignKeepsCaps(d, i);
      AssignMatches(d, bindings, id, i);
    }
  }

  lemma AssignMatches(d: Schedule, bindings: map<nat, Name>, id: nat, i: nat)
    requires LoadsMatch(d, bindings) && id !in bindings && i < |d.lanes|
    ensures LoadsMatch(SetLane(d, i, Assign(d.lanes[i])), bindings[id := d.lanes[i].name])
  {
    var t := SetLane(d, i, Assign(d.lanes[i]));
    SameOrder(d.lanes, t.lanes);
    forall k | 0 <= k < |t.lanes|
      ensures t.lanes[k].active == Bound(bindings[id := d.lanes[i].name], t.lanes[k].name)
    {
      BoundInsert(bindings, id, d.lanes[i].name, d.lanes[k].name);
    }
  }

  lemma AssignKeepsCaps(d: Schedule, i: nat)
    requires WithinCaps(d) && i < |d.lanes| && HasCapacity(d, d.lanes[i])
    ensures WithinCaps(SetLane(d, i, Assign(d.lanes[i])))
  {
    var l := Assign(d.lanes[i]);
    SumUpdate(d.lanes, i, l, Active());
    forall source: Name
      ensures Sum(d.lanes[i := l], ActiveOf(source))
           == Sum(d.lanes, ActiveOf(source)) + if source == l.source then 1 else 0
    {
      SumUpdate(d.lanes, i, l, ActiveOf(source));
    }
  }

  /** Releasing a bound chunk takes exactly its unit back; the saturating floor is not reached. */
  lemma ReleaseConserves(s: Schedule, failed: bool, now: int, bindings: map<nat, Name>, id: nat)
    requires LoadsMatch(s, bindings) && WithinCaps(s) && id in bindings
    ensures var i := IndexOf(s.lanes, bindings[id]);
      i < |s.lanes| && s.lanes[i].active > 0
    ensures LoadsMatch(Release(s, bindings[id], failed, now), bindings - {id})
    ensures WithinCaps(Release(s, bindings[id], failed, now))
  {
    var name := bindings[id];
    var i := IndexOf(s.lanes, name);
    BoundRemove(bindings, id, name);
    var t := Release(s, name, failed, now);
    SameOrder(s.lanes, t.lanes);
    forall k | 0 <= k < |t.lanes| ensures t.lanes[k].active == Bound(bindings - {id}, t.lanes[k].name) {
      BoundRemove(bindings, id, s.lanes[k].name);
    }
    ReleaseKeepsCaps(s, i, t.lanes[i]);
  }

  lemma ReleaseKeepsCaps(s: Schedule, i: nat, l: Lane)
    requires WithinCaps(s) && i < |s.lanes| && l.source == s.lanes[i].source && l.active <= s.lanes[i].active
    ensures WithinCaps(SetLane(s, i, l))
  {
    SumUpdate(s.lanes, i, l, Active());
    forall source: Name ensures Sum(s.lanes[i := l], ActiveOf(source)) <= Sum(s.lanes, ActiveOf(source)) {
      SumUpdate(s.lanes, i, l, ActiveOf(source));
    }
  }

  // ----- which lane a claim hands out

  /** A lane has capacity exactly if one more chunk on it would exceed no cap. */
  lemma CapacityIff(s: Schedule, i: nat)
    requires WithinCaps(s) && i < |s.lanes|
    ensures HasCapacity(s, s.lanes[i]) <==> WithinCaps(SetLane(s, i, Assign(s.lanes[i])))
  {
    var l := Assign(s.lanes[i]);
    if HasCapacity(s, s.lanes[i]) {
      AssignKeepsCaps(s, i);
    } else {
      SumUpdate(s.lanes, i, l, Active());
      SumUpdate(s.lanes, i, l, ActiveOf(l.source));
      assert s.lanes[i := l][i] == l;
    }
  }

  /** Healthy, or blacklisted so long ago that it gets another chance. */
  predicate InFavour(l: Lane, now: int) {
    l.health == Healthy || (l.blacklistedAt.Some? && now - l.blacklistedAt.value >= BLACKLIST_DURATION)
  }

  /** Lane i may take a chunk, and no lane that may comes before it: lanes in favour before the others,
      then the fastest, then the one listed first. */
  ghost predicate ComesFirst(s: Schedule, now: int, i: nat)
    requires i < |s.lanes|
  {
    && HasCapacity(s, s.lanes[i])
    && forall k | 0 <= k < |s.lanes| && HasCapacity(s, s.lanes[k]) ::
         || (InFavour(s.lanes[i], now) && !InFavour(s.lanes[k], now))
         || (InFavour(s.lanes[i], now) == InFavour(s.lanes[k], now)
             && s.lanes[k].speed <= s.lanes[i].speed && i <= k)
  }

  lemma DecayKeepsCapacity(s: Schedule, now: int, k: nat)
    requires k < |s.lanes|
    ensures var d := Decay(s, now);
      && (HasCapacity(d, d.lanes[k]) <==> HasCapacity(s, s.lanes[k]))
      && (d.lanes[k].health == Healthy <==> InFavour(s.lanes[k], now))
  {
    var d := Decay(s, now);
    SumDecayed(s.lanes, d.lanes, Active());
    SumDecayed(s.lanes, d.lanes, ActiveOf(s.lanes[k].source));
  }

  /** A claim is refused exactly when no lane has capacity; otherwise it goes to the lane that comes first,
      whose counter alone grows. */
  lemma ClaimIsBest(s: Schedule, now: int)
    requires FastestFirst(s.lanes)
    ensures var (t, lane) := Claim(s, now);
      && (lane == None <==> forall k | 0 <= k < |s.lanes| :: !HasCapacity(s, s.lanes[k]))
      && SameLanes(s.lanes, t.lanes) && t == s.(lanes := t.lanes)
      && (lane == None ==> forall k | 0 <= k < |s.lanes| :: t.lanes[k].active == s.lanes[k].active)
      && (lane.Some? ==> exists i ::
            && 0 <= i < |s.lanes| && ComesFirst(s, now, i) && lane.value == s.lanes[i].name
            && forall k | 0 <= k < |s.lanes| :: t.lanes[k].active == s.lanes[k].active + if k == i then 1 else 0)
  {
    hide HasCapacity;
    var d := Decay(s, now);
    forall k | 0 <= k < |s.lanes|
      ensures HasCapacity(d, d.lanes[k]) <==> HasCapacity(s, s.lanes[k])
      ensures d.lanes[k].health == Healthy <==> InFavour(s.lanes[k], now)
    {
      DecayKeepsCapacity(s, now, k);
    }
    BestComesFirst(s, now);
  }

  lemma BestComesFirst(s: Schedule, now: int)
    requires FastestFirst(s.lanes)
    requires forall k | 0 <= k < |s.lanes| ::
      && (HasCapacity(Decay(s, now), Decay(s, now).lanes[k]) <==> HasCapacity(s, s.lanes[k]))
      && (Decay(s, now).lanes[k].health == Healthy <==> InFavour(s.lanes[k], now))
    ensures var d := Decay(s, now);
      var i := BestLane(d);
      && (i < |s.lanes| ==> ComesFirst(s, now, i))
      && (i == |s.lanes| ==> forall k | 0 <= k < |s.lanes| :: !HasCapacity(s, s.lanes[k]))
  {
    hide HasCapacity;
    var d := Decay(s, now);
    var healthy, any := SelectFrom(d, 0, false), SelectFrom(d, 0, true);
  }

  /** With nothing bound, a lane can be claimed exactly when there is one and no cap is zero. */
  lemma IdleCanClaim(s: Schedule, now: int)
    requires LoadsMatch(s, map[]) && s.maxWorkers > 0 && s.maxPerLane > 0
    ensures Claim(s, now).1.Some? <==>
            s.lanes != [] && !(s.model == PerSource && s.maxPerSource == Some(0))
  {
    var d := Decay(s, now);
    DecayKeeps(s, now, map[]);
    forall i | 0 <= i < |d.lanes| ensures d.lanes[i].active == 0 {
      BoundNone(d.lanes[i].name);
    }
    SumZero(d.lanes, Active());
    BestLaneIsBest(d);
    if d.lanes != [] {
      SumZero(d.lanes, ActiveOf(d.lanes[0].source));
      assert HasCapacity(d, d.lanes[0]) <==> !(s.model == PerSource && s.maxPerSource == Some(0));
    }
    if s.model == PerSource && s.maxPerSource == Some(0) {
      forall i | 0 <= i < |d.lanes| ensures !HasCapacity(d, d.lanes[i]) {
        SumNonneg(d.lanes, ActiveOf(d.lanes[i].source));
      }
    }
  }

  // ----- the mutable scheduler

  class LaneScheduler {
    const model: LaneModel
    const maxWorkers: nat
    const maxPerLane: nat
    const maxPerSource: Option<nat>
    var lanes: seq<Lane>

    function View(): Schedule
      reads this
    {
      Schedule(model, maxWorkers, maxPerLane, maxPerSource, lanes)
    }

    constructor (cs: seq<Candidate>, model: LaneModel, workers: nat, perLane: nat, perSource: Option<nat>)
      ensures View() == Schedule(model, Max(workers, 1), Max(perLane, 1), perSource, FromCandidates(cs, model))
    {
      this.model, maxWorkers, maxPerLane, maxPerSource := model, Max(workers, 1), Max(perLane, 1), perSource;
      lanes := FromCandidates(cs, model);
    }

    method TotalActive(source: Option<Name>) returns (n: nat)
      ensures source == None ==> n == Sum(lanes, Active())
      ensures source.Some? ==> n == Sum(lanes, ActiveOf(source.value))
    {
      n := 0;
      var i := |lanes|;
      while i > 0
        invariant 0 <= i <= |lanes|
        invariant source == None ==> n == Sum(lanes[i..], Active())
        invariant source.Some? ==> n == Sum(lanes[i..], ActiveOf(source.value))
      {
        i := i - 1;
        assert lanes[i..][1..] == lanes[i + 1..];
        if source == None || lanes[i].source == source.value {
          n := n + lanes[i].active;
        }
      }
    }

    method LaneHasCapacity(l: Lane) returns (b: bool)
      ensures b == HasCapacity(View(), l)
    {
      var total := TotalActive(None);
      if total >= maxWorkers || l.active >= maxPerLane {
        return false;
      }
      if model == PerSource && maxPerSource.Some? {
        var ofSource := TotalActive(Some(l.source));
        return ofSource < maxPerSource.value;
      }
      return true;
    }

    method SelectLane(allowBlacklisted: bool) returns (i: nat)
      ensures i == SelectFrom(View(), 0, allowBlacklisted)
    {
      i := 0;
      while i < |lanes|
        invariant i <= |lanes| && SelectFrom(View(), i, allowBlacklisted) == SelectFrom(View(), 0, allowBlacklisted)
      {
        var fits := LaneHasCapacity(lanes[i]);
        if fits && (allowBlacklisted || lanes[i].health == Healthy) {
          return;
        }
        i := i + 1;
      }
    }

    /** best_lane followed by assign_chunk, as every claim does. */
    method ClaimLane(now: int) returns (lane: Option<Name>)
      modifies this
      ensures (View(), lane) == Claim(old(View()), now)
    {
      lanes := seq(|lanes|, i requires 0 <= i < |lanes| reads this => Revive(lanes[i], now));
      assert View() == Decay(old(View()), now);
      var i := SelectLane(false);
      if i == |lanes| {
        i := SelectLane(true);
      }
      if i == |lanes| {
        return None;
      }
      lane := Some(lanes[i].name);
      lanes := lanes[i := lanes[i].(active := lanes[i].active + 1)];
    }

    method ReleaseChunk(name: Name, failed: bool, now: int)
      modifies this
      ensures View() == Release(old(View()), name, failed, now)
    {
      var i := IndexOf(lanes, name);
      if i < |lanes| {
        var l := lanes[i];
        if failed {
          l := l.(failures := l.failures + 1);
          if l.failures >= BLACKLIST_THRESHOLD {
            l := l.(health := Blacklisted, blacklistedAt := Some(now));
          }
        } else {
          l := l.(failures := 0, health := Healthy, blacklistedAt := None);
        }
        lanes := lanes[i := l.(active := if l.active > 0 then l.active - 1 else 0)];
      }
    }
  }
}

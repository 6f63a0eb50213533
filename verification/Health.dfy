/** A lane's health over any sequence of claims and releases: three failures in a row blacklist it, a
    success or 30 s without another failure restore it. */
module Health {
  import opened Ranges
  import opened Chunk
  import opened Lanes
  import opened MonitorSpec
  import opened Bindings

  /** What happens to a schedule. */
  datatype Use = Claims(now: int) | Releases(name: Name, failed: bool, now: int)

  ghost function Used(s: Schedule, us: seq<Use>): Schedule {
    if us == [] then s
    else
      var before, last := Used(s, us[..|us| - 1]), us[|us| - 1];
      match last
      case Claims(now) => Claim(before, now).0
      case Releases(name, failed, now) => Release(before, name, failed, now)
  }

  /** When the last failure of the lane was. */
  ghost function LastFailure(us: seq<Use>, name: Name): Option<int> {
    if us == [] then None
    else if us[|us| - 1].Releases? && us[|us| - 1].name == name && us[|us| - 1].failed then Some(us[|us| - 1].now)
    else LastFailure(us[..|us| - 1], name)
  }

  /** The lane's failures since it last succeeded, or was claimed from 30 s or more after it had failed three
      times. */
  ghost function Streak(us: seq<Use>, name: Name): nat {
    if us == [] then 0
    else
      var front, last := us[..|us| - 1], us[|us| - 1];
      match last
      case Releases(n, failed, _) =>
        if n != name then Streak(front, name) else if failed then Streak(front, name) + 1 else 0
      case Claims(now) =>
        if Streak(front, name) >= BLACKLIST_THRESHOLD && LastFailure(front, name).Some?
           && now - LastFailure(front, name).value >= BLACKLIST_DURATION then 0
        else Streak(front, name)
  }

  ghost predicate Follows(l: Lane, us: seq<Use>) {
    var streak := Streak(us, l.name);
    && l.failures == streak
    && (l.health == Blacklisted <==> streak >= BLACKLIST_THRESHOLD)
    && l.blacklistedAt == (if streak >= BLACKLIST_THRESHOLD then LastFailure(us, l.name) else None)
    && (streak > 0 ==> LastFailure(us, l.name).Some?)
  }

  lemma ClaimFollows(s: Schedule, now: int, us: seq<Use>, k: nat)
    requires k < |s.lanes| && Follows(s.lanes[k], us)
    ensures var t := Claim(s, now).0;
      k < |t.lanes| && t.lanes[k].name == s.lanes[k].name && Follows(t.lanes[k], us + [Claims(now)])
  {
    hide BestLane;
    assert (us + [Claims(now)])[..|us|] == us;
  }

  lemma ReleaseFollows(s: Schedule, name: Name, failed: bool, now: int, us: seq<Use>, k: nat)
    requires Distinct(s.lanes) && k < |s.lanes| && Follows(s.lanes[k], us)
    ensures var t := Release(s, name, failed, now);
      && k < |t.lanes| && t.lanes[k].name == s.lanes[k].name
      && Follows(t.lanes[k], us + [Releases(name, failed, now)])
  {
    assert (us + [Releases(name, failed, now)])[..|us|] == us;
    if s.lanes[k].name == name {
      assert IndexOf(s.lanes, name) == k;
    }
  }

  lemma UsedKeepsLanes(s: Schedule, u: Use)
    ensures SameLanes(s.lanes, Used(s, [u]).lanes)
  {
    assert [u][..0] == [] && Used(s, []) == s;
    hide BestLane;
  }

  /** For lanes that start healthy, over any sequence of claims and releases: a lane is blacklisted exactly
      if it failed three times since it last succeeded or was pardoned, from its last failure on. */
  lemma {:induction false} HealthIsHistory(s: Schedule, us: seq<Use>, k: nat)
    requires Distinct(s.lanes) && k < |s.lanes|
    requires s.lanes[k].failures == 0 && s.lanes[k].health == Healthy && s.lanes[k].blacklistedAt == None
    ensures var t := Used(s, us);
      && SameLanes(s.lanes, t.lanes)
      && Follows(t.lanes[k], us)
    decreases |us|
  {
    hide Follows, Claim, Release;
    if us == [] {
      FollowsNothing(s.lanes[k]);
    } else {
      var front, last := us[..|us| - 1], us[|us| - 1];
      HealthIsHistory(s, front, k);
      var before := Used(s, front);
      SameOrder(s.lanes, before.lanes);
      assert us == front + [last];
      UsedKeepsLanes(before, last);
      assert [last][..0] == [];
      match last
      case Claims(now) => ClaimFollows(before, now, front, k);
      case Releases(name, failed, now) => ReleaseFollows(before, name, failed, now, front, k);
    }
  }

  lemma FollowsNothing(l: Lane)
    requires l.failures == 0 && l.health == Healthy && l.blacklistedAt == None
    ensures Follows(l, [])
  {
  }

  /** The monitor's verdicts: a completion counts as a success of the lane the chunk ran on, a failure as
      its failure; the chunk's unit is given back and no other lane changes. */
  lemma VerdictReachesLane(m: Mon, info: Info, now: int)
    requires Sound(m) && m.source.Some? && (info.Complete? || info.Failed?) && info.id in m.bindings
    ensures var before, after := m.source.value, Handle(m, info, now).mon.source;
      var i := IndexOf(before.lanes, m.bindings[info.id]);
      && i < |before.lanes| && after.Some? && |after.value.lanes| == |before.lanes|
      && after.value == Used(before, [Releases(m.bindings[info.id], info.Failed?, now)])
      && after.value.lanes[i].active == before.lanes[i].active - 1
      && after.value.lanes[i].failures == (if info.Failed? then before.lanes[i].failures + 1 else 0)
      && (forall k | 0 <= k < |before.lanes| && k != i :: after.value.lanes[k] == before.lanes[k])
  {
    var u := Releases(m.bindings[info.id], info.Failed?, now);
    assert [u][..0] == [] && Used(m.source.value, []) == m.source.value;
    ReleaseConserves(m.source.value, info.Failed?, now, m.bindings, info.id);
  }
}

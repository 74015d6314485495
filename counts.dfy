/** Member-count records of the guild-profile plugin and the derivation of
    the online count from a GUILD_MEMBER_LIST_UPDATE payload.

    Counts are unbounded integers: the plugin adds JavaScript numbers, and
    neither their float rounding nor their range is modelled. */
module Counts {

  /** One entry of an update's `groups` list: a presence group and its size. */
  datatype Group = Group(id: string, count: int)

  /** The fields of a GUILD_MEMBER_LIST_UPDATE payload that the plugin reads. */
  datatype MemberListUpdate = MemberListUpdate(guildId: string, memberCount: int, groups: seq<Group>)

  /** The record handed to the member-count store and returned to callers. */
  datatype MemberCounts = MemberCounts(guildId: string, memberCount: int, onlineCount: int)

  /** The id of the one group that is not counted as online. */
  const Offline: string := "offline"

  /** What one group adds to the online count (the `map` callback). */
  function Contribution(g: Group): int
  {
    if g.id != Offline then g.count else 0
  }

  /** `groups.map(...)`: the contribution of every group, in order. */
  function Contributions(gs: seq<Group>): (cs: seq<int>)
    ensures |cs| == |gs|
    ensures forall i :: 0 <= i < |gs| ==> cs[i] == Contribution(gs[i])
  {
    if gs == [] then [] else [Contribution(gs[0])] + Contributions(gs[1..])
  }

  /** `reduce((a, b) => a + b, acc)`: a left fold of addition. */
  function FoldSum(acc: int, xs: seq<int>): int
    decreases |xs|
  {
    if xs == [] then acc else FoldSum(acc + xs[0], xs[1..])
  }

  /** The online count exactly as the plugin computes it: map, then reduce from 0. */
  function OnlineCount(gs: seq<Group>): int
  {
    FoldSum(0, Contributions(gs))
  }

  /** Reference definition: the groups whose id is not "offline", in order. */
  function NonOffline(gs: seq<Group>): (r: seq<Group>)
    ensures |r| <= |gs|
    ensures forall g :: g in r <==> g in gs && g.id != Offline
  {
    if gs == [] then []
    else if gs[0].id != Offline then [gs[0]] + NonOffline(gs[1..])
    else NonOffline(gs[1..])
  }

  /** Reference definition: the sum of the counts of some groups. */
  function SumCounts(gs: seq<Group>): int
  {
    if gs == [] then 0 else gs[0].count + SumCounts(gs[1..])
  }

  /** Every group in the list reports a count of at least zero. */
  predicate CountsNonNegative(gs: seq<Group>)
  {
    forall i :: 0 <= i < |gs| ==> gs[i].count >= 0
  }

  /** The record `updateMemberCounts` builds from an update: guild and member
      count copied unchanged, online count summed over the non-offline groups. */
  function ToRecord(e: MemberListUpdate): (r: MemberCounts)
    ensures r.guildId == e.guildId && r.memberCount == e.memberCount
    ensures r.onlineCount == SumCounts(NonOffline(e.groups))
    ensures CountsNonNegative(e.groups) ==> 0 <= r.onlineCount <= SumCounts(e.groups)
  {
    OnlineCountIsNonOfflineSum(e.groups);
    OnlineCountBounds(e.groups);
    MemberCounts(e.guildId, e.memberCount, OnlineCount(e.groups))
  }

  /** Peeling the first group off the reference sum. */
  lemma NonOfflineSumStep(gs: seq<Group>)
    requires gs != []
    ensures SumCounts(NonOffline(gs)) == Contribution(gs[0]) + SumCounts(NonOffline(gs[1..]))
  {
  }

  lemma {:induction false} FoldContributions(acc: int, gs: seq<Group>)
    ensures FoldSum(acc, Contributions(gs)) == acc + SumCounts(NonOffline(gs))
    decreases |gs|
  {
    if gs != [] {
      var cs := Contributions(gs);
      assert cs[1..] == Contributions(gs[1..]);
      assert FoldSum(acc, cs) == FoldSum(acc + cs[0], cs[1..]);
      FoldContributions(acc + cs[0], gs[1..]);
      NonOfflineSumStep(gs);
    }
  }

  /** The map-then-reduce computation equals the sum of the counts of the
      non-offline groups. */
  lemma {:induction false} OnlineCountIsNonOfflineSum(gs: seq<Group>)
    ensures OnlineCount(gs) == SumCounts(NonOffline(gs))
  {
    FoldContributions(0, gs);
  }

  /** With no groups the reduce returns its seed, 0. */
  lemma OnlineCountEmpty()
    ensures OnlineCount([]) == 0
  {
  }

  lemma {:induction false} SumCountsAppend(a: seq<Group>, b: seq<Group>)
    ensures SumCounts(a + b) == SumCounts(a) + SumCounts(b)
  {
    if a == [] {
      assert a + b == b;
    } else {
      assert (a + b)[0] == a[0] && (a + b)[1..] == a[1..] + b;
      SumCountsAppend(a[1..], b);
    }
  }

  lemma {:induction false} NonOfflineAppend(a: seq<Group>, b: seq<Group>)
    ensures NonOffline(a + b) == NonOffline(a) + NonOffline(b)
  {
    if a == [] {
      assert a + b == b;
    } else {
      assert (a + b)[0] == a[0] && (a + b)[1..] == a[1..] + b;
      NonOfflineAppend(a[1..], b);
    }
  }

  /** The online count of a concatenation is the sum of the online counts. */
  lemma {:induction false} OnlineCountAppend(a: seq<Group>, b: seq<Group>)
    ensures OnlineCount(a + b) == OnlineCount(a) + OnlineCount(b)
  {
    OnlineCountIsNonOfflineSum(a + b);
    OnlineCountIsNonOfflineSum(a);
    OnlineCountIsNonOfflineSum(b);
    NonOfflineAppend(a, b);
    SumCountsAppend(NonOffline(a), NonOffline(b));
  }

  /** An "offline" group contributes 0 wherever it appears in the list. */
  lemma {:induction false} OfflineGroupIgnored(a: seq<Group>, g: Group, b: seq<Group>)
    requires g.id == Offline
    ensures OnlineCount(a + [g] + b) == OnlineCount(a + b)
  {
    OnlineCountAppend(a + [g], b);
    OnlineCountAppend(a, [g]);
    OnlineCountAppend(a, b);
    OnlineCountSingle(g);
  }

  /** A group that is not "offline" adds its whole count, wherever it appears. */
  lemma {:induction false} OnlineGroupCounted(a: seq<Group>, g: Group, b: seq<Group>)
    requires g.id != Offline
    ensures OnlineCount(a + [g] + b) == OnlineCount(a + b) + g.count
  {
    OnlineCountAppend(a + [g], b);
    OnlineCountAppend(a, [g]);
    OnlineCountAppend(a, b);
    OnlineCountSingle(g);
  }

  /** With non-negative group counts the online count lies between 0 and the
      total of all counts. */
  lemma {:induction false} OnlineCountBounds(gs: seq<Group>)
    ensures CountsNonNegative(gs) ==> 0 <= OnlineCount(gs) <= SumCounts(gs)
  {
    if gs != [] && CountsNonNegative(gs) {
      OnlineCountBounds(gs[1..]);
      OnlineCountAppend([gs[0]], gs[1..]);
      assert [gs[0]] + gs[1..] == gs;
      OnlineCountSingle(gs[0]);
    }
  }

  /** A list of one group counts that group's contribution. */
  lemma OnlineCountSingle(g: Group)
    ensures OnlineCount([g]) == Contribution(g)
  {
    var cs := Contributions([g]);
    assert cs == [Contribution(g)];
    assert FoldSum(0, cs) == FoldSum(0 + cs[0], cs[1..]);
    assert cs[1..] == [];
  }

  /** The record respects `onlineCount <= memberCount` only when the update's
      groups add up to no more than its member count. */
  lemma RecordWithinMemberCount(e: MemberListUpdate)
    requires CountsNonNegative(e.groups) && SumCounts(e.groups) <= e.memberCount
    ensures 0 <= ToRecord(e).onlineCount <= ToRecord(e).memberCount
  {
  }

  /** Nothing in the derivation ties the online count to the member count:
      an update whose groups exceed its member count yields a record with
      more members online than members. */
  lemma OnlineMayExceedMemberCount()
    ensures var r := ToRecord(MemberListUpdate("G", 1, [Group("online", 5)]));
            r.onlineCount > r.memberCount
  {
  }

  /** The worked example: ten members, six online, four offline. */
  lemma ExampleRecord()
    ensures ToRecord(MemberListUpdate("G1", 10, [Group("online", 6), Group("offline", 4)]))
            == MemberCounts("G1", 10, 6)
  {
  }
}

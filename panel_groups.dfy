/**
 * The tolerance grouping the lever simulation uses to colour its panels:
 * diagrams whose F2 values lie within 5 lb of a group's first member share
 * that group. Groups are formed greedily, first seen first served.
 *
 * `Group` is a reference definition that looks at each element on its own:
 * element j joins the first earlier group leader within tolerance, and
 * otherwise leads a new group numbered by how many leaders precede it.
 * `AssignGroups` is the source's nested loop, which instead lets each new
 * leader claim every later unclaimed element; it is proved to compute `Group`.
 */
module PanelGroups {
  import opened Numerics

  const F2_MATCH_TOLERANCE: real := 5.0

  predicate Near(v: seq<real>, i: nat, j: nat)
    requires i < |v| && j < |v|
  {
    Abs(v[i] - v[j]) <= F2_MATCH_TOLERANCE
  }

  predicate Below(ls: seq<nat>, n: nat)
  {
    forall m :: 0 <= m < |ls| ==> ls[m] < n
  }

  /** Position in `leaders` of the first leader within tolerance of element j, or |leaders| if none is. */
  function FirstNear(v: seq<real>, leaders: seq<nat>, j: nat): (k: nat)
    requires j < |v| && Below(leaders, |v|)
    ensures k <= |leaders|
    ensures k < |leaders| ==> Near(v, leaders[k], j)
    decreases |leaders|
  {
    if leaders == [] then 0
    else if Near(v, leaders[0], j) then 0
    else 1 + FirstNear(v, leaders[1..], j)
  }

  /** No leader before the one `FirstNear` finds is within tolerance. */
  lemma {:induction false} FirstNearIsFirst(v: seq<real>, leaders: seq<nat>, j: nat)
    requires j < |v| && Below(leaders, |v|)
    ensures forall m :: 0 <= m < FirstNear(v, leaders, j) ==> !Near(v, leaders[m], j)
    decreases |leaders|
  {
    if leaders != [] && !Near(v, leaders[0], j) {
      FirstNearIsFirst(v, leaders[1..], j);
      assert forall m :: 1 <= m < |leaders| ==> leaders[m] == leaders[1..][m - 1];
    }
  }

  /** The indices among the first n elements that start a group, in increasing order. */
  function Leaders(v: seq<real>, n: nat): (ls: seq<nat>)
    requires n <= |v|
    ensures Below(ls, n)
    ensures |ls| <= n
  {
    if n == 0 then []
    else
      var ls := Leaders(v, n - 1);
      if FirstNear(v, ls, n - 1) == |ls| then ls + [n - 1] else ls
  }

  /** The group id of element j. */
  function Group(v: seq<real>, j: nat): (g: nat)
    requires j < |v|
    ensures g <= |Leaders(v, j)| <= j
  {
    FirstNear(v, Leaders(v, j), j)
  }

  /**
   * What the source's list holds for element j once every element before i
   * has been visited: the id of the first leader before i within tolerance,
   * or the -1 of an element not yet claimed.
   */
  function Pending(v: seq<real>, i: nat, j: nat): int
    requires i <= j < |v|
  {
    var ls := Leaders(v, i);
    var k := FirstNear(v, ls, j);
    if k < |ls| then k else -1
  }

  /** Appending a leader x changes the first near leader only when none was near before. */
  lemma FirstNearAppend(v: seq<real>, ls: seq<nat>, x: nat, j: nat)
    requires j < |v| && x < |v| && Below(ls, |v|)
    ensures Below(ls + [x], |v|)
    ensures FirstNear(v, ls + [x], j) ==
              if FirstNear(v, ls, j) < |ls| then FirstNear(v, ls, j)
              else if Near(v, x, j) then |ls| else |ls| + 1
    decreases |ls|
  {
    if ls != [] {
      assert (ls + [x])[1..] == ls[1..] + [x];
      FirstNearAppend(v, ls[1..], x, j);
    }
  }

  /** The element-major step from i to i + 1, for a later element j. */
  lemma PendingStep(v: seq<real>, i: nat, j: nat)
    requires i < j < |v|
    ensures var ls := Leaders(v, i);
            if FirstNear(v, ls, i) == |ls| then
              Leaders(v, i + 1) == ls + [i] &&
              Pending(v, i + 1, j) ==
                (if Pending(v, i, j) == -1 && Near(v, i, j) then |ls| else Pending(v, i, j))
            else
              Leaders(v, i + 1) == ls && Pending(v, i + 1, j) == Pending(v, i, j)
  {
    var ls := Leaders(v, i);
    if FirstNear(v, ls, i) == |ls| {
      FirstNearAppend(v, ls, i, j);
    }
  }

  /**
   * `_get_panel_colors_by_f2`'s grouping loop: every element starts at -1; each
   * element still at -1 when visited opens the next group and claims every
   * later unclaimed element within tolerance of it.
   */
  method AssignGroups(values: seq<real>) returns (groupIds: seq<int>)
    ensures |groupIds| == |values|
    ensures forall j :: 0 <= j < |values| ==> groupIds[j] == Group(values, j)
  {
    var n := |values|;
    groupIds := seq(n, _ => -1);
    var currentGroup := 0;
    for i := 0 to n
      invariant |groupIds| == n
      invariant currentGroup == |Leaders(values, i)|
      invariant forall j :: 0 <= j < i ==> groupIds[j] == Group(values, j)
      invariant forall j :: i <= j < n ==> groupIds[j] == Pending(values, i, j)
    {
      ghost var ls := Leaders(values, i);
      if groupIds[i] == -1 {
        assert FirstNear(values, ls, i) == |ls|;
        groupIds := groupIds[i := currentGroup];
        assert groupIds[i] == Group(values, i);
        groupIds := ClaimNear(values, i, currentGroup, groupIds);
        currentGroup := currentGroup + 1;
        assert Leaders(values, i + 1) == ls + [i];
      } else {
        assert Leaders(values, i + 1) == ls;
        assert groupIds[i] == Pending(values, i, i) == Group(values, i);
        forall k | i < k < n
          ensures groupIds[k] == Pending(values, i + 1, k)
        {
          PendingStep(values, i, k);
        }
      }
    }
  }

  /**
   * The inner loop of the grouping: element i, which opens group `g`, claims
   * every later element still at -1 that lies within tolerance of it; the
   * ids up to i are left alone.
   */
  method ClaimNear(values: seq<real>, i: nat, g: int, ids: seq<int>) returns (r: seq<int>)
    requires i < |values| && |ids| == |values|
    requires FirstNear(values, Leaders(values, i), i) == |Leaders(values, i)| == g
    requires forall k :: i < k < |values| ==> ids[k] == Pending(values, i, k)
    ensures |r| == |values|
    ensures forall k :: 0 <= k <= i ==> r[k] == ids[k]
    ensures forall k :: i < k < |values| ==> r[k] == Pending(values, i + 1, k)
  {
    r := ids;
    for j := i + 1 to |values|
      invariant |r| == |values|
      invariant forall k :: 0 <= k <= i ==> r[k] == ids[k]
      invariant forall k :: i < k < j ==> r[k] == Pending(values, i + 1, k)
      invariant forall k :: j <= k < |values| ==> r[k] == Pending(values, i, k)
    {
      PendingStep(values, i, j);
      if r[j] == -1 {
        if Abs(values[i] - values[j]) <= F2_MATCH_TOLERANCE {
          r := r[j := g];
        }
      }
    }
  }

  /** Element i opens a group: no earlier element has its id. */
  predicate FirstOfGroup(v: seq<real>, i: nat)
    requires i < |v|
  {
    forall k :: 0 <= k < i ==> Group(v, k) != Group(v, i)
  }

  /** Some element before j carries id g. */
  predicate IdUsedBefore(v: seq<real>, j: nat, g: nat)
    requires j <= |v|
  {
    exists i :: 0 <= i < j && Group(v, i) == g
  }

  /** The leaders of a shorter prefix are a prefix of the leaders of a longer one. */
  lemma {:induction false} LeadersPrefix(v: seq<real>, m: nat, n: nat)
    requires m <= n <= |v|
    ensures Leaders(v, m) <= Leaders(v, n)
    decreases n - m
  {
    if m < n {
      LeadersPrefix(v, m, n - 1);
    }
  }

  /** The g-th leader among the first n elements has group id g and exactly g leaders before it. */
  lemma {:induction false} LeaderGroup(v: seq<real>, n: nat, g: nat)
    requires n <= |v| && g < |Leaders(v, n)|
    ensures Leaders(v, n)[g] < n
    ensures |Leaders(v, Leaders(v, n)[g])| == g
    ensures Group(v, Leaders(v, n)[g]) == g
  {
    var prev := Leaders(v, n - 1);
    if g < |prev| {
      LeaderGroup(v, n - 1, g);
      assert Leaders(v, n)[g] == prev[g];
    } else {
      assert Leaders(v, n) == prev + [n - 1];
    }
  }

  /** Every group id used before n is below the number of leaders before n. */
  lemma GroupBelowLeaderCount(v: seq<real>, k: nat, n: nat)
    requires k < n <= |v|
    ensures Group(v, k) < |Leaders(v, n)|
  {
    LeadersPrefix(v, k + 1, n);
  }

  /** An element opens a group exactly when no earlier leader is within tolerance of it. */
  lemma FirstOfGroupIsLeader(v: seq<real>, i: nat)
    requires i < |v|
    ensures FirstOfGroup(v, i) <==> Group(v, i) == |Leaders(v, i)|
  {
    if Group(v, i) == |Leaders(v, i)| {
      forall k | 0 <= k < i
        ensures Group(v, k) != Group(v, i)
      {
        GroupBelowLeaderCount(v, k, i);
      }
    } else {
      LeaderGroup(v, i, Group(v, i));
    }
  }

  /**
   * Ids are introduced in increasing first-seen order: every id below an
   * element's id was used earlier, and an element that opens a group gets an
   * id larger than every earlier one.
   */
  lemma GroupsIntroducedInOrder(v: seq<real>, j: nat)
    requires j < |v|
    ensures forall g: nat :: g < Group(v, j) ==> IdUsedBefore(v, j, g)
    ensures FirstOfGroup(v, j) ==> forall k :: 0 <= k < j ==> Group(v, k) < Group(v, j)
  {
    forall g: nat | g < Group(v, j)
      ensures IdUsedBefore(v, j, g)
    {
      LeaderGroup(v, j, g);
      var i := Leaders(v, j)[g];
      assert 0 <= i < j && Group(v, i) == g;
    }
    if FirstOfGroup(v, j) {
      FirstOfGroupIsLeader(v, j);
      forall k | 0 <= k < j
        ensures Group(v, k) < Group(v, j)
      {
        GroupBelowLeaderCount(v, k, j);
      }
    }
  }

  /** A leader i before n sits in the leader list at the position of its own id. */
  lemma LeaderListed(v: seq<real>, i: nat, n: nat)
    requires i < n <= |v| && FirstOfGroup(v, i)
    ensures Group(v, i) < |Leaders(v, n)| && Leaders(v, n)[Group(v, i)] == i
  {
    FirstOfGroupIsLeader(v, i);
    assert Leaders(v, i + 1) == Leaders(v, i) + [i];
    LeadersPrefix(v, i + 1, n);
  }

  /**
   * Element j joins the group of the first leader within tolerance: the group
   * it is in is opened by an element within tolerance of it (itself, when it
   * opens the group), and no leader of an earlier group is within tolerance.
   */
  lemma JoinsFirstNearLeader(v: seq<real>, j: nat)
    requires j < |v|
    ensures exists i :: 0 <= i <= j && FirstOfGroup(v, i) && Group(v, i) == Group(v, j) && Near(v, i, j)
    ensures forall i :: 0 <= i < j && FirstOfGroup(v, i) && Group(v, i) < Group(v, j) ==> !Near(v, i, j)
  {
    var ls := Leaders(v, j);
    var g := Group(v, j);
    if g < |ls| {
      LeaderGroup(v, j, g);
      var i := ls[g];
      FirstOfGroupIsLeader(v, i);
      assert 0 <= i <= j && FirstOfGroup(v, i) && Group(v, i) == g && Near(v, i, j);
    } else {
      FirstOfGroupIsLeader(v, j);
      assert FirstOfGroup(v, j) && Near(v, j, j);
    }
    FirstNearIsFirst(v, ls, j);
    forall i | 0 <= i < j && FirstOfGroup(v, i) && Group(v, i) < g
      ensures !Near(v, i, j)
    {
      LeaderListed(v, i, j);
    }
  }

  /** Two elements that open different groups are more than the tolerance apart. */
  lemma LeadersFarApart(v: seq<real>, i: nat, j: nat)
    requires i < j < |v| && FirstOfGroup(v, i) && FirstOfGroup(v, j)
    ensures !Near(v, i, j)
  {
    GroupsIntroducedInOrder(v, j);
    JoinsFirstNearLeader(v, j);
  }

  /** F2 values 100, 103 and 200 form the groups {0, 1} and {2}. */
  lemma GroupExample()
    ensures var v := [100.0, 103.0, 200.0];
            Group(v, 0) == 0 && Group(v, 1) == 0 && Group(v, 2) == 1
  {
    var v := [100.0, 103.0, 200.0];
    assert Leaders(v, 1) == [0];
    assert Near(v, 0, 1);
    assert Leaders(v, 2) == [0];
    assert !Near(v, 0, 2);
  }
}

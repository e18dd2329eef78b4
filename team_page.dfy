/** The team page: a list of members held in page state, a search box that
    filters it, adding a member, and the summary cards (member count, average
    performance, tasks completed, tasks in progress). */
module TeamPage {
  import opened Common
  import opened Text

  datatype TeamMember = TeamMember(
    id: string,
    name: string,
    role: string,
    avatar: string,
    performance: int,
    tasksCompleted: nat,
    tasksInProgress: nat,
    lastActive: string)

  const SEED_MEMBERS: seq<TeamMember> := [
    TeamMember("1", "John Doe", "Frontend Developer",
               "https://ui-avatars.com/api/?name=John+Doe&background=0D9488&color=fff", 92, 45, 3, "2 hours ago"),
    TeamMember("2", "Jane Smith", "Backend Developer",
               "https://ui-avatars.com/api/?name=Jane+Smith&background=3B82F6&color=fff", 88, 38, 2, "1 hour ago"),
    TeamMember("3", "Mike Johnson", "UI/UX Designer",
               "https://ui-avatars.com/api/?name=Mike+Johnson&background=8B5CF6&color=fff", 95, 52, 4, "3 hours ago"),
    TeamMember("4", "Sarah Wilson", "Product Manager",
               "https://ui-avatars.com/api/?name=Sarah+Wilson&background=EC4899&color=fff", 90, 42, 5, "30 minutes ago")
  ]

  /** The search predicate: the lowercased name or role contains the
      lowercased query. */
  function MemberMatches(query: string): TeamMember -> bool
  {
    (m: TeamMember) => Contains(ToLower(m.name), ToLower(query)) || Contains(ToLower(m.role), ToLower(query))
  }

  /** `filteredMembers`. */
  function FilterMembers(members: seq<TeamMember>, query: string): seq<TeamMember>
  {
    Filter(members, MemberMatches(query))
  }

  /** `Math.floor(Math.random() * 20) + 80`, for the draw `r` of `Math.random()`. */
  function RandomPerformance(r: real): int
    requires 0.0 <= r < 1.0
  {
    (r * 20.0).Floor + 80
  }

  /** The member `handleAddMember` builds; `avatar` is the generated picture URL. */
  function NewMember(count: nat, name: string, role: string, avatar: string, r: real): TeamMember
    requires 0.0 <= r < 1.0
  {
    TeamMember(NatToString(count + 1), name, role, avatar, RandomPerformance(r), 0, 0, "Just now")
  }

  /** Every id is the member's position plus one, in decimal. */
  ghost predicate IdsArePositions(members: seq<TeamMember>)
  {
    forall i :: 0 <= i < |members| ==> members[i].id == NatToString(i + 1)
  }

  class TeamPageState {
    var searchQuery: string
    var members: seq<TeamMember>

    constructor ()
      ensures searchQuery == "" && members == SEED_MEMBERS
      ensures Valid()
    {
      searchQuery := "";
      members := SEED_MEMBERS;
      SeedIdsArePositions();
    }

    /** Ids are positions, every performance lies in the range the page
        draws from, and the list is never shorter than the seed list: the page
        only ever appends to it. */
    ghost predicate Valid()
      reads this
    {
      && IdsArePositions(members)
      && (forall i :: 0 <= i < |members| ==> 80 <= members[i].performance <= 99)
      && |members| >= |SEED_MEMBERS|
    }

    /** The "Avg. Performance" card for the current list. Its division by the
        list length is unguarded; the list is never empty. */
    function AveragePerformanceCard(): (avg: int)
      requires Valid()
      reads this
      ensures avg == (2 * Sum(Performances(members)) + |members|) / (2 * |members|)
      ensures 80 <= avg <= 99
    {
      AveragePerformanceInIntegers(members);
      AveragePerformanceBounds(members, 80, 99);
      AveragePerformance(members)
    }

    /** `handleAddMember`; `avatar` is the generated picture URL and `r` the
        draw of `Math.random()` for the performance. */
    method AddMember(name: string, role: string, avatar: string, r: real)
      requires 0.0 <= r < 1.0
      modifies this
      ensures members == old(members) + [NewMember(|old(members)|, name, role, avatar, r)]
      ensures searchQuery == old(searchQuery)
      ensures old(Valid()) ==> Valid()
      ensures old(Valid()) ==> forall i :: 0 <= i < |old(members)| ==> old(members)[i].id != members[|members| - 1].id
    {
      var member := NewMember(|members|, name, role, avatar, r);
      PerformanceRange(r, 80);
      members := members + [member];
      if old(Valid()) {
        forall i | 0 <= i < |old(members)|
          ensures old(members)[i].id != member.id
        {
          if old(members)[i].id == member.id {
            NatToStringInjective(i + 1, |old(members)| + 1);
          }
        }
      }
    }
  }

  lemma SeedIdsArePositions()
    ensures IdsArePositions(SEED_MEMBERS)
  {
    assert NatToString(1) == "1" && NatToString(2) == "2" && NatToString(3) == "3" && NatToString(4) == "4";
  }

  /** While ids are positions, no two members share an id. */
  lemma IdsAreDistinct(members: seq<TeamMember>)
    requires IdsArePositions(members)
    ensures forall i, j :: 0 <= i < j < |members| ==> members[i].id != members[j].id
  {
    forall i, j | 0 <= i < j < |members|
      ensures members[i].id != members[j].id
    {
      if members[i].id == members[j].id {
        NatToStringInjective(i + 1, j + 1);
      }
    }
  }

  /** A new member's performance is a whole number in [80, 99] (never 100),
      and every value in that range is drawn by some `r`. */
  lemma PerformanceRange(r: real, v: int)
    requires 0.0 <= r < 1.0
    ensures 80 <= RandomPerformance(r) <= 99
    ensures 80 <= v <= 99 ==> RandomPerformance((v - 80) as real / 20.0) == v
  {
    if 80 <= v <= 99 {
      assert ((v - 80) as real / 20.0) * 20.0 == (v - 80) as real;
    }
  }

  /** A member is shown exactly when it is in the list and matches the query;
      the empty query shows everyone. */
  lemma FilterMembersMembership(members: seq<TeamMember>, query: string)
    ensures forall m :: m in FilterMembers(members, query) <==> m in members && MemberMatches(query)(m)
    ensures query == "" ==> FilterMembers(members, query) == members
  {
    forall m {
      FilterMembership(members, MemberMatches(query), m);
    }
    if query == "" {
      forall i | 0 <= i < |members|
        ensures MemberMatches(query)(members[i])
      {
        ContainsEmpty(ToLower(members[i].name));
      }
      FilterAll(members, MemberMatches(query));
    }
  }

  /** Filtering keeps the list's order. */
  lemma FilterMembersKeepsOrder(members: seq<TeamMember>, more: seq<TeamMember>, query: string)
    ensures FilterMembers(members + more, query) == FilterMembers(members, query) + FilterMembers(more, query)
  {
    FilterAppend(members, more, MemberMatches(query));
  }

  function Performances(members: seq<TeamMember>): (r: seq<int>)
    ensures |r| == |members| && forall i :: 0 <= i < |members| ==> r[i] == members[i].performance
  {
    seq(|members|, i requires 0 <= i < |members| => members[i].performance)
  }

  function CompletedCounts(members: seq<TeamMember>): (r: seq<int>)
    ensures |r| == |members| && forall i :: 0 <= i < |members| ==> r[i] == members[i].tasksCompleted
  {
    seq(|members|, i requires 0 <= i < |members| => members[i].tasksCompleted as int)
  }

  function InProgressCounts(members: seq<TeamMember>): (r: seq<int>)
    ensures |r| == |members| && forall i :: 0 <= i < |members| ==> r[i] == members[i].tasksInProgress
  {
    seq(|members|, i requires 0 <= i < |members| => members[i].tasksInProgress as int)
  }

  /** The "Tasks Completed" card. */
  function TotalCompleted(members: seq<TeamMember>): int
  {
    Sum(CompletedCounts(members))
  }

  /** The "In Progress" card. */
  function TotalInProgress(members: seq<TeamMember>): int
  {
    Sum(InProgressCounts(members))
  }

  /** `Math.round(x)`: the nearest integer, halves rounded up. */
  function Round(x: real): int
  {
    (x + 0.5).Floor
  }

  /** The "Avg. Performance" card: the mean rounded to a whole number. The
      division is unguarded; the page always has members. */
  function AveragePerformance(members: seq<TeamMember>): int
    requires |members| > 0
  {
    Round(Sum(Performances(members)) as real / |members| as real)
  }

  /** The rounded mean lies between the smallest and largest performance. */
  lemma AveragePerformanceBounds(members: seq<TeamMember>, lo: int, hi: int)
    requires |members| > 0
    requires forall i :: 0 <= i < |members| ==> lo <= members[i].performance <= hi
    ensures lo <= AveragePerformance(members) <= hi
  {
    var n := |members| as real;
    var s := Sum(Performances(members));
    SumBounds(Performances(members), lo, hi);
    DivBounds(s as real, n, lo as real, hi as real);
  }

  /** In integers, the rounded mean is `(2 * sum + n) / (2 * n)`. */
  lemma AveragePerformanceInIntegers(members: seq<TeamMember>)
    requires |members| > 0
    ensures AveragePerformance(members) == (2 * Sum(Performances(members)) + |members|) / (2 * |members|)
  {
    var s, n := Sum(Performances(members)), |members|;
    var y, m := s as real / n as real, n as real;
    assert y * m == s as real;
    assert (y + 0.5) * (2.0 * m) == 2.0 * (y * m) + m;
    QuotientUnique(y + 0.5, (2 * s + n) as real, (2 * n) as real);
    FloorOfQuotient(2 * s + n, 2 * n);
  }

  lemma QuotientUnique(x: real, a: real, d: real)
    requires d != 0.0 && x * d == a
    ensures x == a / d
  {
  }

  /** Real division followed by `Floor` is integer division. */
  lemma FloorOfQuotient(a: int, d: int)
    requires d > 0
    ensures (a as real / d as real).Floor == a / d
  {
    var q, r := a / d, a % d;
    assert a == q * d + r && 0 <= r < d;
    var x := a as real / d as real;
    assert x == q as real + r as real / d as real;
    assert 0.0 <= r as real / d as real < 1.0;
  }

  /** A newly added member has no tasks, so both totals are unchanged. */
  lemma AddMemberKeepsTotals(members: seq<TeamMember>, name: string, role: string, avatar: string, r: real)
    requires 0.0 <= r < 1.0
    ensures var m := members + [NewMember(|members|, name, role, avatar, r)];
      TotalCompleted(m) == TotalCompleted(members) && TotalInProgress(m) == TotalInProgress(members)
  {
    AppendIdleMember(members, NewMember(|members|, name, role, avatar, r));
  }

  lemma AppendIdleMember(members: seq<TeamMember>, t: TeamMember)
    requires t.tasksCompleted == 0 && t.tasksInProgress == 0
    ensures TotalCompleted(members + [t]) == TotalCompleted(members)
    ensures TotalInProgress(members + [t]) == TotalInProgress(members)
  {
    var m := members + [t];
    assert CompletedCounts(m) == CompletedCounts(members) + [0] by {
      assert forall i :: 0 <= i < |members| ==> m[i] == members[i];
    }
    assert InProgressCounts(m) == InProgressCounts(members) + [0] by {
      assert forall i :: 0 <= i < |members| ==> m[i] == members[i];
    }
    SumAppend(CompletedCounts(members), 0);
    SumAppend(InProgressCounts(members), 0);
  }
}

/** Target selection for a tunnel: health classes, priority classes and a weighted random draw. */
module RouteResolver {
  import opened Wrappers

  datatype Target = Target(
    id: string, tunnelId: string, enabled: bool, healthStatus: string, priority: int, weight: int)

  // The query

  /** PHP treats a null, empty or "0" identifier as absent. */
  predicate HasTargetId(targetId: Option<string>) {
    targetId.Some? && targetId.value != "" && targetId.value != "0"
  }

  predicate Matches(t: Target, tunnelId: string, targetId: Option<string>) {
    t.tunnelId == tunnelId && t.enabled && (HasTargetId(targetId) ==> t.id == targetId.value)
  }

  function Filter<T(!new)>(s: seq<T>, keep: T -> bool): (r: seq<T>)
    ensures forall t :: t in r <==> t in s && keep(t)
  {
    if s == [] then []
    else if keep(s[0]) then [s[0]] + Filter(s[1..], keep) else Filter(s[1..], keep)
  }

  /** A possible answer of the database: the matching rows by ascending priority, ties in any order. */
  ghost predicate IsQueryAnswer(answer: seq<Target>, table: seq<Target>, tunnelId: string, targetId: Option<string>) {
    && multiset(answer) == multiset(Filter(table, t => Matches(t, tunnelId, targetId)))
    && forall i, j | 0 <= i < j < |answer| :: answer[i].priority <= answer[j].priority
  }

  // Candidates

  function HealthClass(targets: seq<Target>): seq<Target> {
    var healthy := Filter(targets, (t: Target) => t.healthStatus == "healthy");
    if healthy != [] then healthy else Filter(targets, (t: Target) => t.healthStatus == "unknown")
  }

  function MinPriority(targets: seq<Target>): (m: int)
    requires targets != []
    ensures forall t | t in targets :: m <= t.priority
    ensures exists t :: t in targets && t.priority == m
  {
    if |targets| == 1 then targets[0].priority
    else
      var rest := MinPriority(targets[1..]);
      if targets[0].priority <= rest then targets[0].priority else rest
  }

  function Candidates(targets: seq<Target>): (c: seq<Target>)
    ensures c == [] <==> HealthClass(targets) == []
  {
    var eligible := HealthClass(targets);
    if eligible == [] then []
    else
      var minimum := MinPriority(eligible);
      Filter(eligible, (t: Target) => t.priority == minimum)
  }

  // The weighted draw

  function EffectiveWeight(t: Target): (w: nat)
    ensures w >= 1
  {
    if t.weight > 1 then t.weight else 1
  }

  /** The summed effective weight of the first n candidates. */
  function Prefix(c: seq<Target>, n: nat): nat
    requires n <= |c|
  {
    if n == 0 then 0 else Prefix(c, n - 1) + EffectiveWeight(c[n - 1])
  }

  function TotalWeight(c: seq<Target>): nat {
    var sum := Prefix(c, |c|);
    if sum > 1 then sum else 1
  }

  /** Candidate i owns the draws above the weight before it, up to and including its own share. */
  predicate Owns(c: seq<Target>, i: nat, draw: int) {
    i < |c| && Prefix(c, i) < draw <= Prefix(c, i + 1)
  }

  lemma {:induction false} PrefixIncreases(c: seq<Target>, i: nat, j: nat)
    requires i <= j <= |c|
    ensures Prefix(c, i) + (j - i) <= Prefix(c, j)
  {
    if i < j {
      PrefixIncreases(c, i, j - 1);
    }
  }

  lemma OwnerIsUnique(c: seq<Target>, i: nat, j: nat, draw: int)
    requires Owns(c, i, draw) && Owns(c, j, draw)
    ensures i == j
  {
    if i < j {
      PrefixIncreases(c, i + 1, j);
    } else if j < i {
      PrefixIncreases(c, j + 1, i);
    }
  }

  /** The loop of the resolver: subtract weights from the draw until it is used up. */
  method ChooseWeighted(candidates: seq<Target>, draw: int) returns (selected: nat, fellBack: bool)
    requires candidates != []
    requires 1 <= draw <= TotalWeight(candidates)
    ensures Owns(candidates, selected, draw)
    ensures !fellBack
  {
    var pick := draw;
    selected, fellBack := 0, true;
    var i := 0;
    PrefixIncreases(candidates, 0, |candidates|);
    while i < |candidates|
      invariant 0 <= i <= |candidates|
      invariant pick == draw - Prefix(candidates, i) && pick > 0
    {
      pick := pick - EffectiveWeight(candidates[i]);
      if pick <= 0 {
        selected, fellBack := i, false;
        return;
      }
      i := i + 1;
    }
    assert false;
  }

  // Exact distribution

  ghost function Draws(c: seq<Target>, i: nat): (d: set<int>)
    requires i < |c|
    ensures forall x :: x in d <==> 1 <= x <= TotalWeight(c) && Owns(c, i, x)
  {
    set x | 1 <= x <= TotalWeight(c) && Owns(c, i, x)
  }

  predicate Between(lo: int, x: int, hi: int) {
    lo < x <= hi
  }

  ghost function Interval(lo: int, hi: int): set<int> {
    set x | lo < x <= hi && Between(lo, x, hi)
  }

  lemma {:induction false} IntervalSize(lo: int, hi: int)
    requires lo <= hi
    ensures |Interval(lo, hi)| == hi - lo
    decreases hi - lo
  {
    if lo < hi {
      IntervalSize(lo, hi - 1);
      assert Interval(lo, hi) == Interval(lo, hi - 1) + {hi};
    } else {
      assert Interval(lo, hi) == {};
    }
  }

  /** Of the draws 1..total, candidate i is selected by exactly max(1, weight) of them. */
  lemma ExactWeighting(c: seq<Target>, i: nat)
    requires i < |c|
    ensures |Draws(c, i)| == EffectiveWeight(c[i])
    ensures |Draws(c, i)| == if c[i].weight < 1 then 1 else c[i].weight
  {
    PrefixIncreases(c, 0, |c|);
    PrefixIncreases(c, i + 1, |c|);
    assert Draws(c, i) == Interval(Prefix(c, i), Prefix(c, i + 1));
    IntervalSize(Prefix(c, i), Prefix(c, i + 1));
  }

  /** Every draw in range has an owner, so no draw is left to the fallback. */
  lemma {:induction false} EveryDrawOwned(c: seq<Target>, n: nat, draw: int) returns (i: nat)
    requires n <= |c| && 0 < draw <= Prefix(c, n)
    ensures i < n && Owns(c, i, draw)
  {
    if draw > Prefix(c, n - 1) {
      i := n - 1;
    } else {
      i := EveryDrawOwned(c, n - 1, draw);
    }
  }

  // The whole resolver

  ghost predicate Eligible(t: Target, table: seq<Target>, tunnelId: string, targetId: Option<string>) {
    t in table && Matches(t, tunnelId, targetId)
  }

  /** Everything the resolver promises about the target it returns. */
  ghost predicate IsBestTarget(t: Target, table: seq<Target>, tunnelId: string, targetId: Option<string>) {
    && Eligible(t, table, tunnelId, targetId)
    && (t.healthStatus == "healthy" || t.healthStatus == "unknown")
    && (t.healthStatus == "unknown" ==>
          forall u | Eligible(u, table, tunnelId, targetId) :: u.healthStatus != "healthy")
    && (forall u | Eligible(u, table, tunnelId, targetId) && u.healthStatus == t.healthStatus ::
          t.priority <= u.priority)
  }

  lemma AnswerMembers(answer: seq<Target>, table: seq<Target>, tunnelId: string, targetId: Option<string>)
    requires IsQueryAnswer(answer, table, tunnelId, targetId)
    ensures forall t :: t in answer <==> Eligible(t, table, tunnelId, targetId)
  {
    var rows := Filter(table, t => Matches(t, tunnelId, targetId));
    forall t ensures t in answer <==> Eligible(t, table, tunnelId, targetId) {
      assert t in answer <==> t in multiset(answer);
      assert t in rows <==> t in multiset(rows);
    }
  }

  /** The class is the healthy targets, or the unknown ones when none is healthy. */
  lemma HealthClassMembers(targets: seq<Target>, t: Target)
    ensures t in HealthClass(targets) <==>
              && t in targets
              && (|| t.healthStatus == "healthy"
                  || (t.healthStatus == "unknown" && forall u | u in targets :: u.healthStatus != "healthy"))
  {
    var healthy := Filter(targets, (u: Target) => u.healthStatus == "healthy");
    if healthy != [] {
      assert healthy[0] in healthy;
    } else {
      assert forall u | u in targets :: u !in healthy;
    }
  }

  lemma CandidateMembers(targets: seq<Target>, t: Target)
    ensures t in Candidates(targets) <==>
              t in HealthClass(targets) && forall u | u in HealthClass(targets) :: t.priority <= u.priority
  {
    var eligible := HealthClass(targets);
    if eligible != [] {
      var minimum := MinPriority(eligible);
      assert exists u :: u in eligible && u.priority == minimum;
    }
  }

  /** A target may be selected exactly when no eligible target is in a better class or priority. */
  lemma CandidatesAreTheBest(answer: seq<Target>, table: seq<Target>, tunnelId: string, targetId: Option<string>, t: Target)
    requires IsQueryAnswer(answer, table, tunnelId, targetId)
    ensures t in Candidates(answer) <==> IsBestTarget(t, table, tunnelId, targetId)
  {
    AnswerMembers(answer, table, tunnelId, targetId);
    CandidateMembers(answer, t);
    HealthClassMembers(answer, t);
    if t in HealthClass(answer) {
      forall u | u in answer
        ensures u in HealthClass(answer) <==> u.healthStatus == t.healthStatus
      {
        HealthClassMembers(answer, u);
      }
      assert forall u | u in HealthClass(answer) :: u in answer by {
        forall u | u in HealthClass(answer) ensures u in answer {
          HealthClassMembers(answer, u);
        }
      }
    }
  }

  /** Resolution of one request; `draw` is the result of random_int over 1..total weight. */
  method Resolve(
      answer: seq<Target>, draw: int,
      ghost table: seq<Target>, ghost tunnelId: string, ghost targetId: Option<string>)
    returns (target: Option<Target>)
    requires IsQueryAnswer(answer, table, tunnelId, targetId)
    requires 1 <= draw <= TotalWeight(Candidates(answer))
    ensures target.Some? ==> IsBestTarget(target.value, table, tunnelId, targetId)
    ensures target.Some? ==>
              exists i: nat :: Owns(Candidates(answer), i, draw) && target.value == Candidates(answer)[i]
    ensures target.None? <==>
              forall t | Eligible(t, table, tunnelId, targetId) :: t.healthStatus != "healthy" && t.healthStatus != "unknown"
  {
    AnswerMembers(answer, table, tunnelId, targetId);
    var candidates := Candidates(answer);
    if candidates == [] {
      forall t | Eligible(t, table, tunnelId, targetId)
        ensures t.healthStatus != "healthy" && t.healthStatus != "unknown"
      {
        HealthClassMembers(answer, t);
        assert t !in HealthClass(answer);
        if t.healthStatus == "unknown" {
          var u :| u in answer && u.healthStatus == "healthy";
          HealthClassMembers(answer, u);
          assert false;
        }
      }
      return None;
    }
    var selected, _ := ChooseWeighted(candidates, draw);
    assert candidates[selected] in candidates;
    CandidatesAreTheBest(answer, table, tunnelId, targetId, candidates[selected]);
    return Some(candidates[selected]);
  }
}

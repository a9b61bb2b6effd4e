/** The correlation groups of src/modules/risk/correlation.py: named lists of
    currency pairs, looked up after every '/' in a pair name is replaced by '_',
    so that the broker spelling EUR_USD and the internal spelling EUR/USD are
    the same pair. */
module Correlation {

  /** One `correlation_groups` entry of the portfolio configuration. */
  datatype Group = Group(name: string, members: seq<string>)

  /** The configuration is a dictionary, so its group names are distinct. */
  predicate DistinctNames(groups: seq<Group>) {
    forall i, j :: 0 <= i < j < |groups| ==> groups[i].name != groups[j].name
  }

  /** `pair.replace("/", "_")`. */
  function Normalize(s: string): (r: string)
    ensures |r| == |s|
  {
    if s == [] then [] else [if s[0] == '/' then '_' else s[0]] + Normalize(s[1..])
  }

  /** Every '/' becomes '_' and every other character stays. */
  lemma {:induction false} NormalizeChars(s: string)
    ensures var r := Normalize(s);
      && (forall i :: 0 <= i < |s| ==> r[i] != '/')
      && (forall i :: 0 <= i < |s| && s[i] != '/' ==> r[i] == s[i])
      && (forall i :: 0 <= i < |s| && s[i] == '/' ==> r[i] == '_')
  {
    if s != [] {
      NormalizeChars(s[1..]);
      var r := Normalize(s);
      assert forall i :: 1 <= i < |s| ==> r[i] == Normalize(s[1..])[i - 1] && s[i] == s[1..][i - 1];
    }
  }

  /** A normalised name is left alone by a second normalisation. */
  lemma {:induction false} NormalizeIdempotent(s: string)
    ensures Normalize(Normalize(s)) == Normalize(s)
  {
    var n := Normalize(s);
    NormalizeChars(s);
    NormalizeChars(n);
    var nn := Normalize(n);
    assert |nn| == |n|;
    forall i | 0 <= i < |n|
      ensures nn[i] == n[i]
    {
      assert n[i] != '/';
    }
  }

  /** The members of a group, each normalised. */
  function NormalizeAll(ms: seq<string>): (r: seq<string>)
    ensures |r| == |ms|
    ensures forall i :: 0 <= i < |ms| ==> r[i] == Normalize(ms[i])
  {
    seq(|ms|, i requires 0 <= i < |ms| => Normalize(ms[i]))
  }

  /** The membership test of `get_groups_for_pair`: the normalised pair is among
      the group's normalised members. */
  predicate InGroup(g: Group, pair: string) {
    Normalize(pair) in NormalizeAll(g.members)
  }

  /** `get_groups_for_pair`: the names of the groups holding the pair, in
      configuration order. */
  function GroupsForPair(groups: seq<Group>, pair: string): (r: seq<string>)
    ensures |r| <= |groups|
    ensures forall n :: n in r <==> exists g :: g in groups && InGroup(g, pair) && g.name == n
  {
    if groups == [] then []
    else (if InGroup(groups[0], pair) then [groups[0].name] else []) + GroupsForPair(groups[1..], pair)
  }

  /** The result of `get_groups_for_pair` lists exactly the matching groups, each
      once and in the order the configuration gives them: `pos` are the indices
      of the matching groups, strictly increasing. */
  lemma {:induction false} GroupsInConfigOrder(groups: seq<Group>, pair: string) returns (pos: seq<nat>)
    ensures Positions(groups, pair, pos)
  {
    if groups == [] {
      pos := [];
    } else {
      var rest := GroupsInConfigOrder(groups[1..], pair);
      pos := ConsPositions(groups, pair, rest);
    }
  }

  /** `pos` lists, in increasing order, the indices of the groups holding the
      pair, and names them as `get_groups_for_pair` does. */
  ghost predicate Positions(groups: seq<Group>, pair: string, pos: seq<nat>) {
    && |pos| == |GroupsForPair(groups, pair)|
    && (forall k :: 0 <= k < |pos| ==>
         (pos[k] < |groups| && InGroup(groups[pos[k]], pair) && GroupsForPair(groups, pair)[k] == groups[pos[k]].name))
    && (forall k, l :: 0 <= k < l < |pos| ==> pos[k] < pos[l])
    && (forall i :: 0 <= i < |groups| && InGroup(groups[i], pair) ==> i in pos)
  }

  /** The step of GroupsInConfigOrder: shift the tail's indices by one and put
      the head in front when it holds the pair. */
  lemma ConsPositions(groups: seq<Group>, pair: string, rest: seq<nat>) returns (pos: seq<nat>)
    requires groups != []
    requires Positions(groups[1..], pair, rest)
    ensures Positions(groups, pair, pos)
  {
    var shifted := ShiftPositions(groups, pair, rest);
    if InGroup(groups[0], pair) {
      pos := [0] + shifted;
      HeadPositions(groups, pair, shifted);
    } else {
      pos := shifted;
      TailPositions(groups, pair, shifted);
    }
  }

  /** ConsPositions when the head does not hold the pair: the shifted tail
      indices are all of them. */
  lemma TailPositions(groups: seq<Group>, pair: string, shifted: seq<nat>)
    requires groups != [] && !InGroup(groups[0], pair)
    requires |shifted| == |GroupsForPair(groups[1..], pair)|
    requires forall k :: 0 <= k < |shifted| ==>
      (0 < shifted[k] < |groups| && InGroup(groups[shifted[k]], pair)
       && GroupsForPair(groups[1..], pair)[k] == groups[shifted[k]].name)
    requires forall k, l :: 0 <= k < l < |shifted| ==> shifted[k] < shifted[l]
    requires forall i :: 1 <= i < |groups| && InGroup(groups[i], pair) ==> i in shifted
    ensures Positions(groups, pair, shifted)
  {
    assert GroupsForPair(groups, pair) == GroupsForPair(groups[1..], pair);
    forall i | 0 <= i < |groups| && InGroup(groups[i], pair)
      ensures i in shifted
    {
      assert i != 0;
    }
  }

  /** ConsPositions when the head holds the pair: index 0 goes in front. */
  lemma HeadPositions(groups: seq<Group>, pair: string, shifted: seq<nat>)
    requires groups != [] && InGroup(groups[0], pair)
    requires |shifted| == |GroupsForPair(groups[1..], pair)|
    requires forall k :: 0 <= k < |shifted| ==>
      (0 < shifted[k] < |groups| && InGroup(groups[shifted[k]], pair)
       && GroupsForPair(groups[1..], pair)[k] == groups[shifted[k]].name)
    requires forall k, l :: 0 <= k < l < |shifted| ==> shifted[k] < shifted[l]
    requires forall i :: 1 <= i < |groups| && InGroup(groups[i], pair) ==> i in shifted
    ensures Positions(groups, pair, [0] + shifted)
  {
    HeadNames(groups, pair, shifted);
    HeadOrdered(shifted);
    var pos := [0] + shifted;
    forall i | 0 <= i < |groups| && InGroup(groups[i], pair)
      ensures i in pos
    {
      if i > 0 {
        assert i in shifted;
      }
    }
  }

  /** The names listed with the head in front are the groups at those indices. */
  lemma HeadNames(groups: seq<Group>, pair: string, shifted: seq<nat>)
    requires groups != [] && InGroup(groups[0], pair)
    requires |shifted| == |GroupsForPair(groups[1..], pair)|
    requires forall k :: 0 <= k < |shifted| ==>
      (0 < shifted[k] < |groups| && InGroup(groups[shifted[k]], pair)
       && GroupsForPair(groups[1..], pair)[k] == groups[shifted[k]].name)
    ensures var pos, r := [0] + shifted, GroupsForPair(groups, pair);
      && |pos| == |r|
      && forall k :: 0 <= k < |pos| ==> pos[k] < |groups| && InGroup(groups[pos[k]], pair) && r[k] == groups[pos[k]].name
  {
    var pos := [0] + shifted;
    var r := GroupsForPair(groups, pair);
    var r' := GroupsForPair(groups[1..], pair);
    assert r == [groups[0].name] + r';
    forall k | 0 <= k < |pos|
      ensures pos[k] < |groups| && InGroup(groups[pos[k]], pair) && r[k] == groups[pos[k]].name
    {
      if k > 0 {
        assert pos[k] == shifted[k - 1] && r[k] == r'[k - 1];
      }
    }
  }

  /** A 0 in front of increasing positive indices keeps them increasing. */
  lemma HeadOrdered(shifted: seq<nat>)
    requires forall k :: 0 <= k < |shifted| ==> 0 < shifted[k]
    requires forall k, l :: 0 <= k < l < |shifted| ==> shifted[k] < shifted[l]
    ensures var pos := [0] + shifted; forall k, l :: 0 <= k < l < |pos| ==> pos[k] < pos[l]
  {
    var pos := [0] + shifted;
    forall k, l | 0 <= k < l < |pos|
      ensures pos[k] < pos[l]
    {
      assert pos[l] == shifted[l - 1];
      if k > 0 {
        assert pos[k] == shifted[k - 1];
      }
    }
  }

  /** The tail's indices, shifted by one, are the matching indices of `groups`
      past the head. */
  lemma ShiftPositions(groups: seq<Group>, pair: string, rest: seq<nat>) returns (shifted: seq<nat>)
    requires groups != []
    requires Positions(groups[1..], pair, rest)
    ensures |shifted| == |GroupsForPair(groups[1..], pair)|
    ensures forall k :: 0 <= k < |shifted| ==>
      (0 < shifted[k] < |groups| && InGroup(groups[shifted[k]], pair)
       && GroupsForPair(groups[1..], pair)[k] == groups[shifted[k]].name)
    ensures forall k, l :: 0 <= k < l < |shifted| ==> shifted[k] < shifted[l]
    ensures forall i :: 1 <= i < |groups| && InGroup(groups[i], pair) ==> i in shifted
  {
    var tail := groups[1..];
    shifted := seq(|rest|, k requires 0 <= k < |rest| => rest[k] + 1);
    assert forall k :: 0 <= k < |shifted| ==> groups[shifted[k]] == tail[rest[k]];
    forall i | 1 <= i < |groups| && InGroup(groups[i], pair)
      ensures i in shifted
    {
      assert tail[i - 1] == groups[i];
      var k :| 0 <= k < |rest| && rest[k] == i - 1;
      assert shifted[k] == i;
    }
  }

  /** With distinct group names, no group name is listed twice. */
  lemma GroupsListedOnce(groups: seq<Group>, pair: string)
    requires DistinctNames(groups)
    ensures var r := GroupsForPair(groups, pair);
      forall k, l :: 0 <= k < l < |r| ==> r[k] != r[l]
  {
    var pos := GroupsInConfigOrder(groups, pair);
  }

  /** Looking a pair up under either spelling gives the same groups. */
  lemma {:induction false} GroupsIgnoreSeparator(groups: seq<Group>, pair: string)
    ensures GroupsForPair(groups, Normalize(pair)) == GroupsForPair(groups, pair)
  {
    NormalizeIdempotent(pair);
    if groups != [] {
      GroupsIgnoreSeparator(groups[1..], pair);
    }
  }

  /** `self.groups.get(name, [])`: the members of the first group so named. */
  function Members(groups: seq<Group>, name: string): (ms: seq<string>)
    ensures (forall g :: g in groups ==> g.name != name) ==> ms == []
    ensures DistinctNames(groups) ==> forall g :: g in groups && g.name == name ==> ms == g.members
  {
    if groups == [] then []
    else if groups[0].name == name then groups[0].members
    else Members(groups[1..], name)
  }

  /** `get_correlated_pairs`: every normalised member of every group holding the
      pair, without the normalised pair itself. */
  function CorrelatedPairs(groups: seq<Group>, pair: string): (r: set<string>)
    ensures Normalize(pair) !in r
  {
    var np := Normalize(pair);
    (set n, m | n in GroupsForPair(groups, np) && m in Members(groups, n) :: Normalize(m)) - {np}
  }

  /** `is_correlated`: the two pairs' group lists share a name. */
  predicate IsCorrelated(groups: seq<Group>, pair1: string, pair2: string) {
    exists n :: n in GroupsForPair(groups, Normalize(pair1)) && n in GroupsForPair(groups, Normalize(pair2))
  }

  /** Every pair `get_correlated_pairs` returns shares a group with the query,
      so `is_correlated` holds between them. */
  lemma CorrelatedPairsShareGroup(groups: seq<Group>, pair: string, q: string)
    requires q in CorrelatedPairs(groups, pair)
    ensures IsCorrelated(groups, pair, q)
  {
    var np := Normalize(pair);
    var n, m :| n in GroupsForPair(groups, np) && m in Members(groups, n) && Normalize(m) == q;
    var i := MembersFrom(groups, n);
    NormalizeIdempotent(m);
    assert InGroup(groups[i], q) by {
      var k :| 0 <= k < |groups[i].members| && groups[i].members[k] == m;
      assert NormalizeAll(groups[i].members)[k] == Normalize(q);
    }
    assert n in GroupsForPair(groups, q);
    GroupsIgnoreSeparator(groups, q);
    NormalizeIdempotent(pair);
    GroupsIgnoreSeparator(groups, np);
  }

  /** A name with a non-empty lookup belongs to a group that carries exactly
      those members. */
  lemma {:induction false} MembersFrom(groups: seq<Group>, name: string) returns (i: nat)
    requires Members(groups, name) != []
    ensures i < |groups| && groups[i].name == name && groups[i].members == Members(groups, name)
  {
    if groups[0].name == name {
      i := 0;
    } else {
      var j := MembersFrom(groups[1..], name);
      i := j + 1;
    }
  }

  /** With distinct group names, a different pair that shares a group with the
      query is among its correlated pairs. */
  lemma SharedGroupIsCorrelatedPair(groups: seq<Group>, pair: string, q: string)
    requires DistinctNames(groups)
    requires IsCorrelated(groups, pair, q)
    requires Normalize(q) != Normalize(pair)
    ensures Normalize(q) in CorrelatedPairs(groups, pair)
  {
    var np := Normalize(pair);
    var n :| n in GroupsForPair(groups, np) && n in GroupsForPair(groups, Normalize(q));
    var g :| g in groups && InGroup(g, Normalize(q)) && g.name == n;
    var k :| 0 <= k < |g.members| && NormalizeAll(g.members)[k] == Normalize(Normalize(q));
    NormalizeIdempotent(q);
    assert Members(groups, n) == g.members;
    assert g.members[k] in Members(groups, n);
  }

  /** `is_correlated` is symmetric, and under distinct group names it holds iff
      some group holds both pairs. */
  lemma CorrelatedIffShareGroup(groups: seq<Group>, pair1: string, pair2: string)
    requires DistinctNames(groups)
    ensures IsCorrelated(groups, pair1, pair2) == IsCorrelated(groups, pair2, pair1)
    ensures IsCorrelated(groups, pair1, pair2) <==> exists g :: g in groups && InGroup(g, pair1) && InGroup(g, pair2)
  {
    GroupsIgnoreSeparator(groups, pair1);
    GroupsIgnoreSeparator(groups, pair2);
    if IsCorrelated(groups, pair1, pair2) {
      var n :| n in GroupsForPair(groups, Normalize(pair1)) && n in GroupsForPair(groups, Normalize(pair2));
      var g1 :| g1 in groups && InGroup(g1, pair1) && g1.name == n;
      var g2 :| g2 in groups && InGroup(g2, pair2) && g2.name == n;
      assert g1 == g2;
    }
    if g :| g in groups && InGroup(g, pair1) && InGroup(g, pair2) {
      assert g.name in GroupsForPair(groups, pair1);
      assert g.name in GroupsForPair(groups, pair2);
    }
  }

  /** A pair that no group holds is not correlated even with itself, and has no
      correlated pairs. */
  lemma UngroupedPairIsolated(groups: seq<Group>, pair: string)
    requires forall g :: g in groups ==> !InGroup(g, pair)
    ensures !IsCorrelated(groups, pair, pair)
    ensures CorrelatedPairs(groups, pair) == {}
  {
    GroupsIgnoreSeparator(groups, pair);
    var r := GroupsForPair(groups, pair);
    if |r| > 0 {
      assert r[0] in r;
    }
  }

  /** `EUR/USD` and `EUR_USD` are the same pair to every lookup. */
  lemma SlashAndUnderscoreAgree(groups: seq<Group>)
    ensures GroupsForPair(groups, "EUR/USD") == GroupsForPair(groups, "EUR_USD")
    ensures CorrelatedPairs(groups, "EUR/USD") == CorrelatedPairs(groups, "EUR_USD")
  {
    assert Normalize("EUR/USD") == "EUR_USD";
    assert Normalize("EUR_USD") == "EUR_USD";
    GroupsIgnoreSeparator(groups, "EUR/USD");
    GroupsIgnoreSeparator(groups, "EUR_USD");
  }
}

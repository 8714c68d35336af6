/** Deciding from an address's bounce history whether to refuse it mail. */
module Bounces {
  import opened Wrappers

  datatype BounceType = Hard | Soft | Complaint | OtherBounce(code: int)

  datatype Bounce = Bounce(bounceType: BounceType, createdAt: nat)

  /** For each ruled type, the age under which the bounce with a given rank (the
      newest having rank 0) is one too many. */
  type Rules = map<BounceType, map<nat, nat>>

  datatype Refusal = Refusal(bounceType: BounceType, latest: nat)

  datatype Tally = Tally(count: nat, latest: nat)

  ghost predicate NewestFirst(bounces: seq<Bounce>) {
    forall i, j :: 0 <= i < j < |bounces| ==> bounces[i].createdAt >= bounces[j].createdAt
  }

  function OfType(bounces: seq<Bounce>, t: BounceType): seq<Bounce> {
    if bounces == [] then []
    else OfType(bounces[..|bounces| - 1], t) +
         if bounces[|bounces| - 1].bounceType == t then [bounces[|bounces| - 1]] else []
  }

  /** How many bounces of a type are younger than `age`. */
  function Recent(bounces: seq<Bounce>, t: BounceType, now: int, age: nat): nat {
    if bounces == [] then 0
    else Recent(bounces[..|bounces| - 1], t, now, age) +
         if bounces[|bounces| - 1].bounceType == t && bounces[|bounces| - 1].createdAt > now - age then 1 else 0
  }

  /** More than `k` bounces of type `t` within the window of tier `k`; a window of
      zero switches the tier off. */
  ghost predicate Breaks(rules: Rules, bounces: seq<Bounce>, now: int, t: BounceType, k: nat) {
    t in rules && k in rules[t] && rules[t][k] != 0 && Recent(bounces, t, now, rules[t][k]) > k
  }

  // ---------- The scan ----------

  /** What the scan knows of one type after a prefix of the list. */
  ghost predicate TallyOf(bounces: seq<Bounce>, t: BounceType, tally: Tally) {
    && tally.count == |OfType(bounces, t)|
    && tally.latest == if OfType(bounces, t) == [] then 0 else OfType(bounces, t)[0].createdAt
  }

  /** No bounce so far was over its tier. */
  ghost predicate Quiet(rules: Rules, bounces: seq<Bounce>, now: int) {
    forall t, k :: t in rules && k in rules[t] && rules[t][k] != 0 && k < |OfType(bounces, t)| ==>
      OfType(bounces, t)[k].createdAt <= now - rules[t][k]
  }

  lemma {:induction false} OfTypeMembers(bounces: seq<Bounce>, t: BounceType)
    ensures forall b :: b in OfType(bounces, t) <==> b in bounces && b.bounceType == t
  {
    if bounces == [] {
    } else {
      OfTypeMembers(bounces[..|bounces| - 1], t);
      assert bounces == bounces[..|bounces| - 1] + [bounces[|bounces| - 1]];
    }
  }

  lemma {:induction false} OfTypeNewestFirst(bounces: seq<Bounce>, t: BounceType)
    requires NewestFirst(bounces)
    ensures NewestFirst(OfType(bounces, t))
  {
    if bounces == [] {
    } else {
      var front := bounces[..|bounces| - 1];
      OfTypeNewestFirst(front, t);
      OfTypeMembers(front, t);
      forall i | 0 <= i < |OfType(front, t)|
        ensures OfType(front, t)[i].createdAt >= bounces[|bounces| - 1].createdAt
      {
        assert OfType(front, t)[i] in front;
      }
    }
  }

  /** With the newest first, more than `k` recent bounces is the same as the bounce of
      rank `k` being recent. */
  lemma {:induction false} RankIsCount(bounces: seq<Bounce>, t: BounceType, now: int, age: nat, k: nat)
    requires NewestFirst(bounces)
    ensures Recent(bounces, t, now, age) <= |OfType(bounces, t)|
    ensures Recent(bounces, t, now, age) > k <==>
            k < |OfType(bounces, t)| && OfType(bounces, t)[k].createdAt > now - age
  {
    if bounces == [] {
    } else {
      var front := bounces[..|bounces| - 1];
      var last := bounces[|bounces| - 1];
      RankIsCount(front, t, now, age, k);
      OfTypeNewestFirst(bounces, t);
      if last.bounceType == t && |OfType(front, t)| > 0 {
        RankIsCount(front, t, now, age, |OfType(front, t)| - 1);
        assert OfType(bounces, t)[|OfType(front, t)|] == last;
        assert OfType(bounces, t)[|OfType(front, t)| - 1].createdAt >= last.createdAt;
      }
    }
  }

  lemma {:induction false} PrefixOfType(bounces: seq<Bounce>, n: nat, t: BounceType)
    requires n <= |bounces|
    ensures OfType(bounces[..n], t) <= OfType(bounces, t)
    decreases |bounces|
  {
    if n < |bounces| {
      var front := bounces[..|bounces| - 1];
      assert bounces[..n] == front[..n];
      PrefixOfType(front, n, t);
    } else {
      assert bounces[..n] == bounces;
    }
  }

  /** A refusal names a type that breaks a tier, and its newest bounce. */
  ghost predicate Justified(rules: Rules, bounces: seq<Bounce>, now: int, r: Refusal) {
    && (exists k :: Breaks(rules, bounces, now, r.bounceType, k))
    && Bounce(r.bounceType, r.latest) in bounces
    && (forall b :: b in bounces && b.bounceType == r.bounceType ==> b.createdAt <= r.latest)
  }

  /** Every ruled type has its tally. */
  ghost predicate Tallied(rules: Rules, bounces: seq<Bounce>, tallies: map<BounceType, Tally>) {
    tallies.Keys == rules.Keys && forall t :: t in rules ==> TallyOf(bounces, t, tallies[t])
  }

  function Count(tally: Tally, b: Bounce): Tally {
    Tally(tally.count + 1, if tally.latest == 0 then b.createdAt else tally.latest)
  }

  /** The scan over a list sorted newest first refuses the address exactly when some
      type has more bounces in the window of a tier than the tier allows. */
  method ApplyRules(rules: Rules, bounces: seq<Bounce>, now: int) returns (r: Option<Refusal>)
    requires NewestFirst(bounces)
    ensures r.Some? <==> exists t, k :: Breaks(rules, bounces, now, t, k)
    ensures r.Some? ==> Justified(rules, bounces, now, r.value)
  {
    var tallies: map<BounceType, Tally> := map t | t in rules :: Tally(0, 0);
    for n := 0 to |bounces|
      invariant Tallied(rules, bounces[..n], tallies)
      invariant Quiet(rules, bounces[..n], now)
    {
      var bounce := bounces[n];
      var t := bounce.bounceType;
      ghost var before := tallies;
      if t in rules {
        var tally := tallies[t];
        var latest := if tally.latest == 0 then bounce.createdAt else tally.latest;
        if tally.count in rules[t] && rules[t][tally.count] != 0 && bounce.createdAt > now - rules[t][tally.count] {
          RefusalExplained(rules, bounces, now, n, tally);
          return Some(Refusal(t, latest));
        }
        tallies := tallies[t := Tally(tally.count + 1, latest)];
      }
      QuietExtends(rules, bounces, now, n, before);
    }
    assert bounces[..|bounces|] == bounces;
    QuietMeans(rules, bounces, now);
    return None;
  }

  lemma OfTypeGrows(bounces: seq<Bounce>, n: nat, t: BounceType)
    requires n < |bounces|
    ensures OfType(bounces[..n + 1], t) ==
            if bounces[n].bounceType == t then OfType(bounces[..n], t) + [bounces[n]] else OfType(bounces[..n], t)
  {
    assert bounces[..n + 1][..n] == bounces[..n];
  }

  lemma QuietExtends(rules: Rules, bounces: seq<Bounce>, now: int, n: nat, tallies: map<BounceType, Tally>)
    requires NewestFirst(bounces) && n < |bounces|
    requires Tallied(rules, bounces[..n], tallies) && Quiet(rules, bounces[..n], now)
    requires var (t, b) := (bounces[n].bounceType, bounces[n]);
             t in rules && tallies[t].count in rules[t] && rules[t][tallies[t].count] != 0 ==>
               b.createdAt <= now - rules[t][tallies[t].count]
    ensures Quiet(rules, bounces[..n + 1], now)
    ensures var (t, b) := (bounces[n].bounceType, bounces[n]);
            Tallied(rules, bounces[..n + 1], if t in rules then tallies[t := Count(tallies[t], b)] else tallies)
  {
    SameLatest(bounces, n);
    forall t | t in rules
      ensures var tally := if t == bounces[n].bounceType then Count(tallies[t], bounces[n]) else tallies[t];
              TallyOf(bounces[..n + 1], t, tally)
    {
      OfTypeGrows(bounces, n, t);
    }
    forall t, k | t in rules && k in rules[t] && rules[t][k] != 0 && k < |OfType(bounces[..n + 1], t)|
      ensures OfType(bounces[..n + 1], t)[k].createdAt <= now - rules[t][k]
    {
      OfTypeGrows(bounces, n, t);
    }
  }

  /** A latest time of zero is overwritten, but only by another zero. */
  lemma SameLatest(bounces: seq<Bounce>, n: nat)
    requires NewestFirst(bounces) && n < |bounces|
    ensures var earlier := OfType(bounces[..n], bounces[n].bounceType);
            earlier != [] && earlier[0].createdAt == 0 ==> bounces[n].createdAt == 0
  {
    var earlier := OfType(bounces[..n], bounces[n].bounceType);
    if earlier != [] {
      OfTypeMembers(bounces[..n], bounces[n].bounceType);
      assert earlier[0] in bounces[..n];
    }
  }

  lemma QuietMeans(rules: Rules, bounces: seq<Bounce>, now: int)
    requires NewestFirst(bounces) && Quiet(rules, bounces, now)
    ensures !exists t, k :: Breaks(rules, bounces, now, t, k)
  {
    forall t, k
      ensures !Breaks(rules, bounces, now, t, k)
    {
      if t in rules && k in rules[t] {
        RankIsCount(bounces, t, now, rules[t][k], k);
      }
    }
  }

  lemma RefusalExplained(rules: Rules, bounces: seq<Bounce>, now: int, n: nat, tally: Tally)
    requires NewestFirst(bounces) && n < |bounces|
    requires TallyOf(bounces[..n], bounces[n].bounceType, tally)
    requires var (t, k) := (bounces[n].bounceType, tally.count);
             t in rules && k in rules[t] && rules[t][k] != 0 && bounces[n].createdAt > now - rules[t][k]
    ensures Justified(rules, bounces, now, Refusal(bounces[n].bounceType, Count(tally, bounces[n]).latest))
    ensures exists t, k :: Breaks(rules, bounces, now, t, k)
  {
    var t := bounces[n].bounceType;
    var k := tally.count;
    assert bounces[..n + 1][..n] == bounces[..n];
    PrefixOfType(bounces, n + 1, t);
    assert OfType(bounces, t)[k] == bounces[n];
    RankIsCount(bounces, t, now, rules[t][k], k);
    assert Breaks(rules, bounces, now, t, k);
    SameLatest(bounces, n);
    OfTypeMembers(bounces, t);
    OfTypeNewestFirst(bounces, t);
    assert OfType(bounces, t)[0].createdAt == Count(tally, bounces[n]).latest;
    assert OfType(bounces, t)[0] in OfType(bounces, t);
  }
}

/**
 * The three resolution mechanisms of the delivery-machine library, stated as the assumptions
 * this model makes about it: a first-match chain whose rules may nest (`given(...).then(...)`),
 * a union over every matching goal contributor (`goalContributors`), and a per-goal-kind
 * strategy table with an optional default (`build.when`, `build.setDefault`, `deploy.when`).
 *
 * Each mechanism is one small function that walks its rules by index in registration order;
 * the lemmas beside it say what that walk means.
 */
module Resolvers {
  import opened Wrappers
  import opened Predicates

  /** No guard before index `i` holds. */
  ghost predicate NoneBefore(guards: seq<Pred>, i: int, push: Push)
  {
    forall j :: 0 <= j < i && j < |guards| ==> !Eval(guards[j], push)
  }

  // ---------------------------------------------------------------------------------------
  // First match over an ordered list of guards
  // ---------------------------------------------------------------------------------------

  /** The index of the first guard at or after `k` that holds. */
  function FirstMatchFrom(guards: seq<Pred>, k: nat, push: Push): (r: Option<nat>)
    decreases |guards| - k
    ensures r.Some? ==> k <= r.value < |guards| && Eval(guards[r.value], push)
    ensures r.Some? ==> forall j :: k <= j < r.value ==> !Eval(guards[j], push)
    ensures r.None? <==> forall j :: k <= j < |guards| ==> !Eval(guards[j], push)
  {
    if k >= |guards| then None
    else if Eval(guards[k], push) then Some(k)
    else FirstMatchFrom(guards, k + 1, push)
  }

  function FirstMatch(guards: seq<Pred>, push: Push): Option<nat>
  {
    FirstMatchFrom(guards, 0, push)
  }

  /** The first match is the only index that matches with nothing matching before it. */
  lemma FirstMatchUnique(guards: seq<Pred>, push: Push, i: nat)
    requires i < |guards| && Eval(guards[i], push) && NoneBefore(guards, i, push)
    ensures FirstMatch(guards, push) == Some(i)
  {
  }

  // ---------------------------------------------------------------------------------------
  // Chain mode: ordered, possibly nested, first match wins
  // ---------------------------------------------------------------------------------------

  /** What a chain rule does once its guard holds: set a goal set, or delegate to a sub-chain. */
  datatype Outcome<G> = SetGoals(goals: G) | Then(chain: seq<Rule<G>>)

  datatype Rule<G> = Rule(guard: Pred, meaning: string, outcome: Outcome<G>)

  /** The rules' guards, in order, for stating first-match facts about a chain. */
  function Guards<G>(rules: seq<Rule<G>>): seq<Pred>
  {
    seq(|rules|, i requires 0 <= i < |rules| => rules[i].guard)
  }

  /** Walks the rules from index `k`; the first whose guard holds decides, and later rules are skipped. */
  function ResolveChainFrom<G>(rules: seq<Rule<G>>, k: nat, push: Push): Option<G>
    decreases rules, 1, |rules| - k
  {
    if k >= |rules| then None
    else if Eval(rules[k].guard, push) then ResolveOutcome(rules[k].outcome, push)
    else ResolveChainFrom(rules, k + 1, push)
  }

  function ResolveChain<G>(rules: seq<Rule<G>>, push: Push): Option<G>
  {
    ResolveChainFrom(rules, 0, push)
  }

  /** A nested chain is resolved on its own: when it yields nothing, nothing falls through. */
  function ResolveOutcome<G>(o: Outcome<G>, push: Push): Option<G>
    decreases o, 0, 0
  {
    match o
    case SetGoals(g) => Some(g)
    case Then(chain) => ResolveChainFrom(chain, 0, push)
  }

  lemma {:induction false} ChainFirstMatchFrom<G>(rules: seq<Rule<G>>, k: nat, push: Push)
    decreases |rules| - k
    ensures ResolveChainFrom(rules, k, push) ==
      match FirstMatchFrom(Guards(rules), k, push)
      case None => None
      case Some(i) => ResolveOutcome(rules[i].outcome, push)
  {
    if k < |rules| && !Eval(rules[k].guard, push) {
      ChainFirstMatchFrom(rules, k + 1, push);
    }
  }

  /** Chain resolution takes exactly the outcome of the first matching rule, or nothing. */
  lemma ChainFirstMatch<G>(rules: seq<Rule<G>>, push: Push)
    ensures ResolveChain(rules, push) ==
      match FirstMatch(Guards(rules), push)
      case None => None
      case Some(i) => ResolveOutcome(rules[i].outcome, push)
  {
    ChainFirstMatchFrom(rules, 0, push);
  }

  /** The rule at `i` decides the chain when it matches and no rule before it does. */
  lemma ChainDecidedAt<G>(rules: seq<Rule<G>>, push: Push, i: nat)
    requires i < |rules| && Eval(rules[i].guard, push) && NoneBefore(Guards(rules), i, push)
    ensures ResolveChain(rules, push) == ResolveOutcome(rules[i].outcome, push)
  {
    ChainFirstMatch(rules, push);
    FirstMatchUnique(Guards(rules), push, i);
  }

  /** Nesting law: a matching `given(p).then(sub)` rule yields exactly what `sub` alone yields. */
  lemma ChainNesting<G>(rules: seq<Rule<G>>, push: Push, i: nat, sub: seq<Rule<G>>)
    requires i < |rules| && rules[i].outcome == Then(sub) && Eval(rules[i].guard, push)
    requires NoneBefore(Guards(rules), i, push)
    ensures ResolveChain(rules, push) == ResolveChain(sub, push)
  {
    ChainDecidedAt(rules, push, i);
  }

  /** When no top-level guard holds, the chain sets no goals. */
  lemma ChainNoMatch<G>(rules: seq<Rule<G>>, push: Push)
    requires forall j :: 0 <= j < |rules| ==> !Eval(rules[j].guard, push)
    ensures ResolveChain(rules, push) == None
  {
    ChainFirstMatch(rules, push);
  }

  // ---------------------------------------------------------------------------------------
  // Contributor mode: the union of the goals of every matching contributor
  // ---------------------------------------------------------------------------------------

  datatype Contributor<G> = Contributor(guard: Pred, goals: seq<G>)

  predicate NoDuplicates<G(==)>(s: seq<G>)
  {
    forall i, j :: 0 <= i < j < |s| ==> s[i] != s[j]
  }

  /** Appends to `acc` the goals of `gs` from index `k` on that it does not yet hold, in order. */
  function MergeFrom<G(==)>(acc: seq<G>, gs: seq<G>, k: nat): seq<G>
    decreases |gs| - k
  {
    if k >= |gs| then acc
    else if gs[k] in acc then MergeFrom(acc, gs, k + 1)
    else MergeFrom(acc + [gs[k]], gs, k + 1)
  }

  function Merge<G(==)>(acc: seq<G>, gs: seq<G>): seq<G>
  {
    MergeFrom(acc, gs, 0)
  }

  lemma {:induction false} MergeFromMeaning<G(!new)>(acc: seq<G>, gs: seq<G>, k: nat)
    requires k <= |gs|
    decreases |gs| - k
    ensures NoDuplicates(acc) ==> NoDuplicates(MergeFrom(acc, gs, k))
    ensures acc <= MergeFrom(acc, gs, k)
    ensures forall g :: g in MergeFrom(acc, gs, k) <==> g in acc || g in gs[k..]
  {
    if k < |gs| {
      if gs[k] in acc {
        MergeFromMeaning(acc, gs, k + 1);
      } else {
        MergeFromMeaning(acc + [gs[k]], gs, k + 1);
      }
      assert gs[k..] == [gs[k]] + gs[k + 1..];
    }
  }

  /** Merging keeps what was there, adds exactly the new goals, and collapses duplicates. */
  lemma MergeMeaning<G(!new)>(acc: seq<G>, gs: seq<G>)
    ensures NoDuplicates(acc) ==> NoDuplicates(Merge(acc, gs))
    ensures acc <= Merge(acc, gs)
    ensures forall g :: g in Merge(acc, gs) <==> g in acc || g in gs
  {
    MergeFromMeaning(acc, gs, 0);
    assert gs[0..] == gs;
  }

  /** The merged goals of the first `n` contributors, in registration order. */
  function ContributeUpTo<G(==)>(cs: seq<Contributor<G>>, n: nat, push: Push): seq<G>
    requires n <= |cs|
  {
    if n == 0 then []
    else
      var prev := ContributeUpTo(cs, n - 1, push);
      if Eval(cs[n - 1].guard, push) then Merge(prev, cs[n - 1].goals) else prev
  }

  /**
   * Every contributor is evaluated; the goals of each matching one are merged in registration
   * order, so earlier contributors' goals come first and each goal appears once.
   */
  function Contribute<G(==)>(cs: seq<Contributor<G>>, push: Push): seq<G>
  {
    ContributeUpTo(cs, |cs|, push)
  }

  lemma {:induction false} ContributeUpToMeaning<G(!new)>(cs: seq<Contributor<G>>, n: nat, push: Push)
    requires n <= |cs|
    ensures NoDuplicates(ContributeUpTo(cs, n, push))
    ensures forall g :: g in ContributeUpTo(cs, n, push) <==>
      exists i :: 0 <= i < n && Eval(cs[i].guard, push) && g in cs[i].goals
    ensures (forall i :: 0 <= i < n ==> !Eval(cs[i].guard, push)) ==> ContributeUpTo(cs, n, push) == []
  {
    if n > 0 {
      ContributeUpToMeaning(cs, n - 1, push);
      MergeMeaning(ContributeUpTo(cs, n - 1, push), cs[n - 1].goals);
    }
  }

  /** The contributed goals are duplicate-free, and a goal is in them iff some matching contributor lists it. */
  lemma ContributeMeaning<G(!new)>(cs: seq<Contributor<G>>, push: Push)
    ensures NoDuplicates(Contribute(cs, push))
    ensures forall g :: g in Contribute(cs, push) <==>
      exists i :: 0 <= i < |cs| && Eval(cs[i].guard, push) && g in cs[i].goals
  {
    ContributeUpToMeaning(cs, |cs|, push);
  }

  /** The goals of the matching contributors among the first `n`, concatenated in registration order. */
  function Matching<G>(cs: seq<Contributor<G>>, n: nat, push: Push): seq<G>
    requires n <= |cs|
  {
    if n == 0 then []
    else Matching(cs, n - 1, push) + (if Eval(cs[n - 1].guard, push) then cs[n - 1].goals else [])
  }

  /** `acc` followed by the goals of `s` that are not already there, each at its first occurrence. */
  function Dedup<G(==)>(acc: seq<G>, s: seq<G>): seq<G>
    decreases |s|
  {
    if |s| == 0 then acc
    else Dedup(if s[0] in acc then acc else acc + [s[0]], s[1..])
  }

  lemma {:induction false} MergeFromIsDedup<G(!new)>(acc: seq<G>, gs: seq<G>, k: nat)
    requires k <= |gs|
    decreases |gs| - k
    ensures MergeFrom(acc, gs, k) == Dedup(acc, gs[k..])
  {
    if k < |gs| {
      assert gs[k..][0] == gs[k] && gs[k..][1..] == gs[k + 1..];
      if gs[k] in acc {
        MergeFromIsDedup(acc, gs, k + 1);
      } else {
        MergeFromIsDedup(acc + [gs[k]], gs, k + 1);
      }
    }
  }

  lemma {:induction false} DedupAppend<G(!new)>(acc: seq<G>, s: seq<G>, t: seq<G>)
    decreases |s|
    ensures Dedup(acc, s + t) == Dedup(Dedup(acc, s), t)
  {
    if |s| == 0 {
      assert s + t == t;
    } else {
      assert (s + t)[0] == s[0] && (s + t)[1..] == s[1..] + t;
      DedupAppend(if s[0] in acc then acc else acc + [s[0]], s[1..], t);
    }
  }

  /**
   * Contributor resolution keeps registration order: the goals are those of the matching
   * contributors, concatenated in order, with every repeat after a goal's first occurrence dropped.
   */
  lemma {:induction false} ContributeInOrder<G(!new)>(cs: seq<Contributor<G>>, n: nat, push: Push)
    requires n <= |cs|
    ensures ContributeUpTo(cs, n, push) == Dedup([], Matching(cs, n, push))
  {
    if n > 0 {
      ContributeInOrder(cs, n - 1, push);
      var prev := Matching(cs, n - 1, push);
      if Eval(cs[n - 1].guard, push) {
        MergeFromIsDedup(ContributeUpTo(cs, n - 1, push), cs[n - 1].goals, 0);
        assert cs[n - 1].goals[0..] == cs[n - 1].goals;
        DedupAppend([], prev, cs[n - 1].goals);
      } else {
        assert Matching(cs, n, push) == prev + [];
        assert prev + [] == prev;
      }
    }
  }

  /** A push no contributor matches gets the empty goal set. */
  lemma ContributeNoMatch<G(!new)>(cs: seq<Contributor<G>>, push: Push)
    requires forall i :: 0 <= i < |cs| ==> !Eval(cs[i].guard, push)
    ensures Contribute(cs, push) == []
  {
    ContributeUpToMeaning(cs, |cs|, push);
  }

  /** Registration order of contributors affects only the order of goals, never membership. */
  lemma ContributeOrderIrrelevant<G(!new)>(cs: seq<Contributor<G>>, ds: seq<Contributor<G>>, push: Push)
    requires multiset(cs) == multiset(ds)
    ensures forall g :: g in Contribute(cs, push) <==> g in Contribute(ds, push)
  {
    ContributeMeaning(cs, push);
    ContributeMeaning(ds, push);
    forall g
      ensures g in Contribute(cs, push) ==> g in Contribute(ds, push)
      ensures g in Contribute(ds, push) ==> g in Contribute(cs, push)
    {
      if g in Contribute(cs, push) {
        var i :| 0 <= i < |cs| && Eval(cs[i].guard, push) && g in cs[i].goals;
        assert cs[i] in multiset(ds);
        var j :| 0 <= j < |ds| && ds[j] == cs[i];
      }
      if g in Contribute(ds, push) {
        var j :| 0 <= j < |ds| && Eval(ds[j].guard, push) && g in ds[j].goals;
        assert ds[j] in multiset(cs);
        var i :| 0 <= i < |cs| && cs[i] == ds[j];
      }
    }
  }

  // ---------------------------------------------------------------------------------------
  // Strategy tables: ordered rules, first match wins, else the default
  // ---------------------------------------------------------------------------------------

  datatype StrategyRule<S> = StrategyRule(guard: Pred, meaning: string, strategy: S)

  datatype StrategyTable<S> = StrategyTable(rules: seq<StrategyRule<S>>, default: Option<S>)

  /**
   * The rules' guards, in order, for stating first-match facts about a strategy table. Strategy
   * rules and chain rules are distinct types (a strategy versus a goal outcome), so each has its
   * own projection; both are the `guard` field read off rule by rule.
   */
  function RuleGuards<S>(rules: seq<StrategyRule<S>>): seq<Pred>
  {
    seq(|rules|, i requires 0 <= i < |rules| => rules[i].guard)
  }

  /** Walks the rules from index `k` and yields the strategy of the first that matches. */
  function FirstRuleFrom<S>(rules: seq<StrategyRule<S>>, k: nat, push: Push): Option<S>
    decreases |rules| - k
  {
    if k >= |rules| then None
    else if Eval(rules[k].guard, push) then Some(rules[k].strategy)
    else FirstRuleFrom(rules, k + 1, push)
  }

  /** The strategy of the first matching rule; the default when none matches. */
  function Select<S>(t: StrategyTable<S>, push: Push): Option<S>
  {
    match FirstRuleFrom(t.rules, 0, push)
    case Some(s) => Some(s)
    case None => t.default
  }

  lemma {:induction false} FirstRuleMatch<S>(rules: seq<StrategyRule<S>>, k: nat, push: Push)
    decreases |rules| - k
    ensures FirstRuleFrom(rules, k, push) ==
      match FirstMatchFrom(RuleGuards(rules), k, push)
      case None => None
      case Some(i) => Some(rules[i].strategy)
  {
    if k < |rules| && !Eval(rules[k].guard, push) {
      FirstRuleMatch(rules, k + 1, push);
    }
  }

  /**
   * First match wins; with no match the default is used; selection fails (None, the
   * "no strategy available" condition) only when nothing matches and there is no default.
   */
  lemma SelectMeaning<S>(t: StrategyTable<S>, push: Push)
    ensures forall i :: 0 <= i < |t.rules| && Eval(t.rules[i].guard, push) &&
                        NoneBefore(RuleGuards(t.rules), i, push)
                        ==> Select(t, push) == Some(t.rules[i].strategy)
    ensures (forall j :: 0 <= j < |t.rules| ==> !Eval(t.rules[j].guard, push)) ==> Select(t, push) == t.default
    ensures Select(t, push).None? <==>
      t.default.None? && forall j :: 0 <= j < |t.rules| ==> !Eval(t.rules[j].guard, push)
  {
    FirstRuleMatch(t.rules, 0, push);
    forall i | 0 <= i < |t.rules| && Eval(t.rules[i].guard, push) && NoneBefore(RuleGuards(t.rules), i, push)
      ensures FirstMatch(RuleGuards(t.rules), push) == Some(i)
    {
      FirstMatchUnique(RuleGuards(t.rules), push, i);
    }
  }

  /** Rules appended behind a table change nothing for a push the table already matches. */
  lemma SelectAppendShadowed<S>(t: StrategyTable<S>, extra: seq<StrategyRule<S>>, push: Push)
    requires (exists i :: 0 <= i < |t.rules| && Eval(t.rules[i].guard, push)) ||
             (forall j :: 0 <= j < |extra| ==> !Eval(extra[j].guard, push))
    ensures Select(StrategyTable(t.rules + extra, t.default), push) == Select(t, push)
  {
    var all := t.rules + extra;
    assert |RuleGuards(t.rules)| == |t.rules|;
    assert forall j :: 0 <= j < |t.rules| ==> RuleGuards(t.rules)[j] == t.rules[j].guard;
    SelectMeaning(t, push);
    SelectMeaning(StrategyTable(all, t.default), push);
    FirstRuleMatch(t.rules, 0, push);
    match FirstMatch(RuleGuards(t.rules), push) {
      case Some(i) =>
        assert all[i] == t.rules[i];
        assert forall j :: 0 <= j < i ==> all[j] == t.rules[j];
      case None =>
        assert forall j :: 0 <= j < |all| ==> !Eval(all[j].guard, push) by {
          forall j | 0 <= j < |all| ensures !Eval(all[j].guard, push) {
            if j < |t.rules| { assert all[j] == t.rules[j]; }
            else { assert all[j] == extra[j - |t.rules|]; }
          }
        }
    }
  }
}

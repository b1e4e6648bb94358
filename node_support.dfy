/**
 * The Node extension pack's build rules: four ordered rules over the grid
 * (push to the default branch) x (project has package-lock.json), all guarded by IsNode,
 * and no default of their own.
 */
module NodeSupport {
  import opened Wrappers
  import opened Predicates
  import opened Resolvers
  import opened Delivery

  /** The lock file whose presence `hasFile` tests for, by exact path. */
  const PackageLockJson: string := "package-lock.json"

  const NodeBuildRules: seq<StrategyRule<Builder>> := [
    StrategyRule(All([Leaf(IsNode), Leaf(ToDefaultBranch), Leaf(FileExists("package-lock.json"))]),
      "npm run build", NodeBuilder("npm ci", "npm run build")),
    StrategyRule(All([Leaf(IsNode), Leaf(FileExists("package-lock.json"))]),
      "npm run compile", NodeBuilder("npm ci", "npm run compile")),
    StrategyRule(All([Leaf(IsNode), Leaf(ToDefaultBranch)]),
      "npm run build - no package lock", NodeBuilder("npm i", "npm run build")),
    StrategyRule(All([Leaf(IsNode)]),
      "npm run compile - no package lock", NodeBuilder("npm i", "npm run compile"))
  ]

  /** The two lock-file rules test `hasFile` of exactly `package-lock.json`; the other two test no file. */
  lemma LockFileGuards()
    ensures NodeBuildRules[0].guard == All([Leaf(IsNode), Leaf(ToDefaultBranch), HasFile(PackageLockJson)])
    ensures NodeBuildRules[1].guard == All([Leaf(IsNode), HasFile(PackageLockJson)])
    ensures NodeBuildRules[2].guard == All([Leaf(IsNode), Leaf(ToDefaultBranch)])
    ensures NodeBuildRules[3].guard == All([Leaf(IsNode)])
  {
  }

  /** The install command a Node build uses: `npm ci` exactly when a lock file is present. */
  function InstallCommand(push: Push): string
  {
    if PackageLockJson in push.files then "npm ci" else "npm i"
  }

  /** The npm script a Node build runs: `build` on the default branch, `compile` elsewhere. */
  function BuildScript(push: Push): string
  {
    if push.toDefaultBranch then "npm run build" else "npm run compile"
  }

  /**
   * Each cell of the (default branch x package-lock.json) grid selects its own node builder,
   * and a push that is not Node matches no rule, leaving the choice to the machine's default.
   */
  lemma NodeBuildSelection(push: Push, default: Option<Builder>)
    ensures push.isNode && push.toDefaultBranch && PackageLockJson in push.files ==>
      Select(StrategyTable(NodeBuildRules, default), push) == Some(NodeBuilder("npm ci", "npm run build"))
    ensures push.isNode && !push.toDefaultBranch && PackageLockJson in push.files ==>
      Select(StrategyTable(NodeBuildRules, default), push) == Some(NodeBuilder("npm ci", "npm run compile"))
    ensures push.isNode && push.toDefaultBranch && PackageLockJson !in push.files ==>
      Select(StrategyTable(NodeBuildRules, default), push) == Some(NodeBuilder("npm i", "npm run build"))
    ensures push.isNode && !push.toDefaultBranch && PackageLockJson !in push.files ==>
      Select(StrategyTable(NodeBuildRules, default), push) == Some(NodeBuilder("npm i", "npm run compile"))
    ensures !push.isNode ==> Select(StrategyTable(NodeBuildRules, default), push) == default
  {
  }

  /** Every Node push matches some rule; exactly the Node pushes do. */
  lemma NodeBuildRulesCoverNode(push: Push)
    ensures push.isNode <==> exists i :: 0 <= i < |NodeBuildRules| && Eval(NodeBuildRules[i].guard, push)
  {
    if push.isNode {
      assert Eval(NodeBuildRules[3].guard, push);
    } else {
      forall i | 0 <= i < |NodeBuildRules|
        ensures !Eval(NodeBuildRules[i].guard, push)
      {
        assert NodeBuildRules[i].guard.conjuncts[0] == Leaf(IsNode);
      }
    }
  }

  /** NodeSupport's `configure`: appends its four build rules to the machine, after those already there. */
  method Configure(sdm: SoftwareDeliveryMachine)
    modifies sdm
    ensures sdm.buildRules == old(sdm.buildRules) + NodeBuildRules
    ensures sdm.buildDefault == old(sdm.buildDefault)
    ensures sdm.deployRules == old(sdm.deployRules) && sdm.disposalRules == old(sdm.disposalRules)
    ensures sdm.extensionPacks == old(sdm.extensionPacks)
  {
    sdm.AddBuildRules(NodeBuildRules, None);
  }
}

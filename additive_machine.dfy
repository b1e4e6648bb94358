/**
 * The additive variant of the Cloud Foundry machine: goals are contributed by every matching
 * contributor and merged, rather than picked by a first-match chain. Its build table is the
 * one NodeSupport registers plus a Maven default; deploy and disposal rules are its own.
 */
module AdditiveCloudFoundryMachine {
  import opened Wrappers
  import opened Predicates
  import opened Resolvers
  import opened Delivery
  import NodeSupport

  /** The goal contributors, in the order they are given to `goalContributors`. */
  const Contributors: seq<Contributor<Goal>> := [
    Contributor(All([]), [ReviewGoal, PushReactionGoal]),
    Contributor(All([Leaf(IsDeploymentFrozen)]), [ExplainDeploymentFreezeGoal]),
    Contributor(All([Any([Leaf(IsMaven), Leaf(IsNode)])]), [JustBuildGoal]),
    Contributor(All([Leaf(HasSpringBootApplicationClass), Not(Leaf(ToDefaultBranch))]), [LocalDeploymentGoal]),
    Contributor(All([Leaf(HasCloudFoundryManifest), Leaf(ToDefaultBranch)]),
      [ArtifactGoal, StagingDeploymentGoal, StagingEndpointGoal, StagingVerifiedGoal]),
    Contributor(All([Leaf(HasCloudFoundryManifest), Not(Leaf(IsDeploymentFrozen)), Leaf(ToDefaultBranch)]),
      [ArtifactGoal, ProductionDeploymentGoal, ProductionEndpointGoal])
  ]

  /** The machine's own deploy rules; both are for Maven, one per goal kind. */
  const DeployRules: seq<DeployRule> := [
    DeployRule(All([Leaf(IsMaven)]), "", Staging, Using(LocalExecutableJarDeployer, ManagedDeploymentTargeter)),
    DeployRule(All([Leaf(IsMaven)]), "", Production, CloudFoundryProductionDeploySpec)
  ]

  const DisposalRules: seq<Rule<GoalSet>> := [
    Rule(All([Leaf(IsMaven), Leaf(HasSpringBootApplicationClass), Leaf(HasCloudFoundryManifest)]),
      "Java project to undeploy from PCF", SetGoals(UndeployEverywhereGoals)),
    Rule(All([All([])]), "We can always delete the repo", SetGoals(RepositoryDeletionGoals))
  ]

  const BuildDefault: Builder := MavenBuilder

  const Packs: seq<ExtensionPack> :=
    [DeploymentFreeze, SpringSupport, SentrySupport, CloudReadinessChecks, NodeSupport]

  /**
   * Assembles the machine in the order it registers things: the packs first (NodeSupport
   * contributes the only build rules), then deploy and disposal rules, and last the default builder.
   */
  method Create() returns (sdm: SoftwareDeliveryMachine)
    ensures fresh(sdm)
    ensures sdm.name == "CloudFoundry software delivery machine"
    ensures sdm.goalSetting == GoalContributors(Contributors)
    ensures sdm.extensionPacks == Packs
    ensures sdm.buildRules == NodeSupport.NodeBuildRules
    ensures sdm.buildDefault == Some(BuildDefault)
    ensures sdm.deployRules == DeployRules
    ensures sdm.disposalRules == DisposalRules
    ensures forall push ::
              sdm.SelectBuilder(push) ==
              if push.isNode then Some(NodeBuilder(NodeSupport.InstallCommand(push), NodeSupport.BuildScript(push)))
              else Some(MavenBuilder)
    ensures forall push ::
              sdm.SelectDeploySpec(Staging, push) ==
              if push.isMaven then Some(Using(LocalExecutableJarDeployer, ManagedDeploymentTargeter)) else None
    ensures forall push ::
              sdm.SelectDeploySpec(Production, push) ==
              if push.isMaven then Some(CloudFoundryProductionDeploySpec) else None
    ensures forall push ::
              sdm.ResolveDisposal(push) ==
              if push.isMaven && push.hasSpringBootApplicationClass && push.hasCloudFoundryManifest
              then Some(UndeployEverywhereGoals)
              else Some(RepositoryDeletionGoals)
  {
    sdm := new SoftwareDeliveryMachine("CloudFoundry software delivery machine", GoalContributors(Contributors));
    sdm.AddExtensionPacks(Packs);
    NodeSupport.Configure(sdm);
    sdm.AddDeployRules(DeployRules);
    sdm.AddDisposalRules(DisposalRules);
    sdm.AddBuildRules([], Some(BuildDefault));
    forall push
      ensures sdm.SelectBuilder(push) ==
        if push.isNode then Some(NodeBuilder(NodeSupport.InstallCommand(push), NodeSupport.BuildScript(push)))
        else Some(MavenBuilder)
    {
      assert sdm.buildRules == NodeSupport.NodeBuildRules && sdm.buildDefault == Some(BuildDefault);
      BuildSelection(push);
    }
    forall push
      ensures sdm.SelectDeploySpec(Staging, push) ==
        if push.isMaven then Some(Using(LocalExecutableJarDeployer, ManagedDeploymentTargeter)) else None
      ensures sdm.SelectDeploySpec(Production, push) ==
        if push.isMaven then Some(CloudFoundryProductionDeploySpec) else None
      ensures sdm.ResolveDisposal(push) ==
        if push.isMaven && push.hasSpringBootApplicationClass && push.hasCloudFoundryManifest
        then Some(UndeployEverywhereGoals)
        else Some(RepositoryDeletionGoals)
    {
      assert sdm.deployRules == DeployRules && sdm.disposalRules == DisposalRules;
      DeploySelection(push);
      DisposalSelection(push);
    }
  }

  // ---------------------------------------------------------------------------------------
  // Goal setting
  // ---------------------------------------------------------------------------------------

  /** Whether a push can go to Cloud Foundry at all: a manifest and a push to the default branch. */
  predicate CloudFoundryReady(push: Push)
  {
    push.hasCloudFoundryManifest && push.toDefaultBranch
  }

  /** The goals a push should get, written goal by goal from the contributors' conditions. */
  predicate Expected(g: Goal, push: Push)
  {
    match g
    case ReviewGoal => true
    case PushReactionGoal => true
    case ExplainDeploymentFreezeGoal => push.deploymentFrozen
    case JustBuildGoal => push.isMaven || push.isNode
    case LocalDeploymentGoal => push.hasSpringBootApplicationClass && !push.toDefaultBranch
    case ArtifactGoal => CloudFoundryReady(push)
    case StagingDeploymentGoal => CloudFoundryReady(push)
    case StagingEndpointGoal => CloudFoundryReady(push)
    case StagingVerifiedGoal => CloudFoundryReady(push)
    case ProductionDeploymentGoal => CloudFoundryReady(push) && !push.deploymentFrozen
    case ProductionEndpointGoal => CloudFoundryReady(push) && !push.deploymentFrozen
  }

  /** Each contributor's guard, read as a condition on the push. */
  lemma ContributorGuards(push: Push)
    ensures Eval(Contributors[0].guard, push)
    ensures Eval(Contributors[1].guard, push) <==> push.deploymentFrozen
    ensures Eval(Contributors[2].guard, push) <==> push.isMaven || push.isNode
    ensures Eval(Contributors[3].guard, push) <==> push.hasSpringBootApplicationClass && !push.toDefaultBranch
    ensures Eval(Contributors[4].guard, push) <==> CloudFoundryReady(push)
    ensures Eval(Contributors[5].guard, push) <==> CloudFoundryReady(push) && !push.deploymentFrozen
  {
  }

  /**
   * The merged goals hold each goal at most once (ArtifactGoal is contributed twice), and a
   * goal is in them exactly when its condition holds.
   */
  lemma ContributedGoals(push: Push)
    ensures NoDuplicates(Contribute(Contributors, push))
    ensures forall g :: g in Contribute(Contributors, push) <==> Expected(g, push)
  {
    ContributeMeaning(Contributors, push);
    ContributorGuards(push);
    forall g
      ensures g in Contribute(Contributors, push) <==> Expected(g, push)
    {
      if Expected(g, push) {
        var i :=
          match g
          case ReviewGoal => 0
          case PushReactionGoal => 0
          case ExplainDeploymentFreezeGoal => 1
          case JustBuildGoal => 2
          case LocalDeploymentGoal => 3
          case ArtifactGoal => 4
          case StagingDeploymentGoal => 4
          case StagingEndpointGoal => 4
          case StagingVerifiedGoal => 4
          case ProductionDeploymentGoal => 5
          case ProductionEndpointGoal => 5;
        assert Eval(Contributors[i].guard, push) && g in Contributors[i].goals;
      }
    }
  }

  /** The "Checks" goals are set on every push, whatever else holds. */
  lemma ChecksOnEveryPush(push: Push)
    ensures ReviewGoal in Contribute(Contributors, push)
    ensures PushReactionGoal in Contribute(Contributors, push)
  {
    ContributedGoals(push);
  }

  /**
   * A frozen push still gets every goal that does not deploy to production: the freeze adds
   * its explanation, removes the production goals, and leaves the rest as they were.
   */
  lemma FreezeRemovesOnlyProduction(push: Push)
    requires push.deploymentFrozen
    ensures ExplainDeploymentFreezeGoal in Contribute(Contributors, push)
    ensures ProductionDeploymentGoal !in Contribute(Contributors, push)
    ensures ProductionEndpointGoal !in Contribute(Contributors, push)
    ensures var thawed := push.(deploymentFrozen := false);
      forall g :: g !in {ExplainDeploymentFreezeGoal, ProductionDeploymentGoal, ProductionEndpointGoal} ==>
        (g in Contribute(Contributors, push) <==> g in Contribute(Contributors, thawed))
  {
    ContributedGoals(push);
    ContributedGoals(push.(deploymentFrozen := false));
  }

  /**
   * Production goals come as a pair, only when deployment is not frozen, and always with the
   * artifact goal and all three staging goals.
   */
  lemma ProductionNeedsStagingAndNoFreeze(push: Push)
    ensures ProductionDeploymentGoal in Contribute(Contributors, push) <==>
      CloudFoundryReady(push) && !push.deploymentFrozen
    ensures ProductionEndpointGoal in Contribute(Contributors, push) <==>
      ProductionDeploymentGoal in Contribute(Contributors, push)
    ensures ProductionDeploymentGoal in Contribute(Contributors, push) ==>
      ArtifactGoal in Contribute(Contributors, push) &&
      StagingDeploymentGoal in Contribute(Contributors, push) &&
      StagingEndpointGoal in Contribute(Contributors, push) &&
      StagingVerifiedGoal in Contribute(Contributors, push)
  {
    ContributedGoals(push);
  }

  /** The local deployment goal and the Cloud Foundry goals never come together: they split on the branch. */
  lemma LocalExcludesCloudFoundry(push: Push)
    ensures LocalDeploymentGoal in Contribute(Contributors, push) ==>
      ArtifactGoal !in Contribute(Contributors, push) &&
      StagingDeploymentGoal !in Contribute(Contributors, push) &&
      StagingEndpointGoal !in Contribute(Contributors, push) &&
      StagingVerifiedGoal !in Contribute(Contributors, push) &&
      ProductionDeploymentGoal !in Contribute(Contributors, push) &&
      ProductionEndpointGoal !in Contribute(Contributors, push)
  {
    ContributedGoals(push);
  }

  /** The first four contributors give a Maven push on the default branch, without a freeze, the checks and a build. */
  lemma GoalsBeforeDeployment(push: Push)
    requires push.isMaven && push.toDefaultBranch && !push.deploymentFrozen
    ensures ContributeUpTo(Contributors, 4, push) == [ReviewGoal, PushReactionGoal, JustBuildGoal]
  {
    assert ContributeUpTo(Contributors, 2, push) == ContributeUpTo(Contributors, 1, push) == [ReviewGoal, PushReactionGoal];
    assert ContributeUpTo(Contributors, 4, push) == ContributeUpTo(Contributors, 3, push);
  }

  /** The last two contributors both match a push ready for Cloud Foundry and not frozen. */
  lemma DeploymentContributions(push: Push)
    requires CloudFoundryReady(push) && !push.deploymentFrozen
    ensures ContributeUpTo(Contributors, 5, push) == Merge(ContributeUpTo(Contributors, 4, push), Contributors[4].goals)
    ensures Contribute(Contributors, push) == Merge(ContributeUpTo(Contributors, 5, push), Contributors[5].goals)
  {
  }

  /**
   * For a Maven push to the default branch with a manifest and no freeze, the goals come in
   * contributor order with the second ArtifactGoal dropped.
   */
  lemma FullDeliveryOrder(push: Push)
    requires push.isMaven && CloudFoundryReady(push) && !push.deploymentFrozen
    ensures Contribute(Contributors, push) ==
      [ReviewGoal, PushReactionGoal, JustBuildGoal, ArtifactGoal, StagingDeploymentGoal,
       StagingEndpointGoal, StagingVerifiedGoal, ProductionDeploymentGoal, ProductionEndpointGoal]
  {
    GoalsBeforeDeployment(push);
    DeploymentContributions(push);
    assert ContributeUpTo(Contributors, 5, push) ==
      [ReviewGoal, PushReactionGoal, JustBuildGoal, ArtifactGoal, StagingDeploymentGoal,
       StagingEndpointGoal, StagingVerifiedGoal];
  }

  /** The contributors are not a chain: registering them in any order gives the same goals. */
  lemma ContributorOrderIrrelevant(push: Push, reordered: seq<Contributor<Goal>>)
    requires multiset(reordered) == multiset(Contributors)
    ensures forall g :: g in Contribute(reordered, push) <==> Expected(g, push)
  {
    ContributeOrderIrrelevant(Contributors, reordered, push);
    ContributedGoals(push);
  }

  // ---------------------------------------------------------------------------------------
  // Build, deploy and disposal
  // ---------------------------------------------------------------------------------------

  /**
   * With NodeSupport's rules and the Maven default, a Node push gets a node builder whose
   * install and script follow the lock file and the branch, and every other push gets Maven.
   */
  lemma BuildSelection(push: Push)
    ensures Select(StrategyTable(NodeSupport.NodeBuildRules, Some(BuildDefault)), push) ==
      if push.isNode then Some(NodeBuilder(NodeSupport.InstallCommand(push), NodeSupport.BuildScript(push)))
      else Some(MavenBuilder)
  {
    NodeSupport.NodeBuildSelection(push, Some(BuildDefault));
  }

  /** Only Maven pushes are deployed, locally for staging and to Cloud Foundry for production. */
  lemma DeploySelection(push: Push)
    ensures Select(DeployTable(DeployRules, Staging), push) ==
      if push.isMaven then Some(Using(LocalExecutableJarDeployer, ManagedDeploymentTargeter)) else None
    ensures Select(DeployTable(DeployRules, Production), push) ==
      if push.isMaven then Some(CloudFoundryProductionDeploySpec) else None
  {
  }

  /** Maven Spring Boot projects with a manifest are undeployed everywhere; all others delete the repository. */
  lemma DisposalSelection(push: Push)
    ensures ResolveChain(DisposalRules, push) ==
      if push.isMaven && push.hasSpringBootApplicationClass && push.hasCloudFoundryManifest
      then Some(UndeployEverywhereGoals)
      else Some(RepositoryDeletionGoals)
  {
  }
}

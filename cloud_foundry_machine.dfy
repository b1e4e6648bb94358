/**
 * The Cloud Foundry delivery machine: goals are set by one first-match chain whose Maven
 * branch is a nested chain; builders, deployers and disposal goals come from the rules the
 * machine registers, in order, after it is created.
 */
module CloudFoundryMachine {
  import opened Wrappers
  import opened Predicates
  import opened Resolvers
  import opened Delivery
  import NodeSupport

  /**
   * The goal chain the machine is created with. Its first rule, `given(IsMaven).then(...)`,
   * delegates to a nested chain of the tiers a Maven push can fall into.
   */
  const GoalChain: seq<Rule<GoalSet>> := [
    Rule(Leaf(IsMaven), "Maven", Then([
      Rule(All([Leaf(HasSpringBootApplicationClass), Not(Leaf(MaterialChangeToJavaRepo))]),
        "No material change to Java", SetGoals(NoGoals)),
      Rule(All([Leaf(ToDefaultBranch), Leaf(HasSpringBootApplicationClass), Leaf(HasCloudFoundryManifest),
                Leaf(ToPublicRepo), Not(Leaf(NamedSeedRepo)), Not(Leaf(FromAtomist)), Leaf(IsDeployEnabled)]),
        "Spring Boot service to deploy", SetGoals(HttpServiceGoals)),
      Rule(All([Leaf(HasSpringBootApplicationClass), Not(Leaf(FromAtomist))]),
        "Spring Boot service local deploy", SetGoals(LocalDeploymentGoals)),
      Rule(All([]), "Build Java library", SetGoals(LibraryGoals))
    ])),
    Rule(All([Leaf(IsNode), Not(Leaf(MaterialChangeToNodeRepo))]),
      "No material change to Node", SetGoals(NoGoals)),
    Rule(All([Leaf(IsNode), Leaf(HasCloudFoundryManifest), Leaf(IsDeployEnabled), Leaf(ToDefaultBranch)]),
      "Build and deploy Node", SetGoals(NpmDeployGoals)),
    Rule(All([Leaf(IsNode), Leaf(HasDockerfile), Leaf(ToDefaultBranch), Leaf(IsDeployEnabled)]),
      "Docker deploy Node", SetGoals(NpmKubernetesDeployGoals)),
    Rule(All([Leaf(IsNode), Leaf(HasDockerfile)]),
      "Docker build Node", SetGoals(NpmDockerGoals)),
    Rule(All([Leaf(IsNode), Not(Leaf(HasDockerfile))]),
      "Build Node", SetGoals(NpmBuildGoals))
  ]

  /** The nested Maven chain of `given(IsMaven).then(...)`. */
  const MavenChain: seq<Rule<GoalSet>> := GoalChain[0].outcome.chain

  const BuildRules: seq<StrategyRule<Builder>> := [
    StrategyRule(All([Leaf(HasAtomistBuildFile)]), "Custom build script", NpmCustomBuilder),
    StrategyRule(All([Leaf(IsNode), Leaf(ToDefaultBranch), Leaf(FileExists("package-lock.json"))]),
      "npm run build", NodeBuilder("npm ci", "npm run build")),
    StrategyRule(All([Leaf(IsNode), Leaf(FileExists("package-lock.json"))]),
      "npm run compile", NodeBuilder("npm ci", "npm run compile")),
    StrategyRule(All([Leaf(IsNode), Leaf(ToDefaultBranch)]),
      "npm run build - no package lock", NodeBuilder("npm i", "npm run build")),
    StrategyRule(All([Leaf(IsNode)]),
      "npm run compile - no package lock", NodeBuilder("npm i", "npm run compile"))
  ]

  const BuildDefault: Builder := MavenBuilder

  const DeployRules: seq<DeployRule> := [
    DeployRule(All([Leaf(IsMaven)]), "", Staging, Using(LocalExecutableJarDeployer, ManagedDeploymentTargeter)),
    DeployRule(All([Leaf(IsMaven)]), "", Production, CloudFoundryProductionDeploySpec),
    DeployRule(All([Leaf(IsNode)]), "node run test", Staging, CloudFoundryStagingDeploySpec)
  ]

  const DisposalRules: seq<Rule<GoalSet>> := [
    Rule(All([Leaf(IsMaven), Leaf(HasSpringBootApplicationClass), Leaf(HasCloudFoundryManifest)]),
      "Java project to undeploy from PCF", SetGoals(UndeployEverywhereGoals)),
    Rule(All([Leaf(IsNode), Leaf(HasCloudFoundryManifest)]),
      "Node project to undeploy from PCF", SetGoals(UndeployEverywhereGoals)),
    Rule(All([All([])]), "We can always delete the repo", SetGoals(RepositoryDeletionGoals))
  ]

  /** Assembles the machine: its registrations in the order the machine makes them. */
  method Create() returns (sdm: SoftwareDeliveryMachine)
    ensures fresh(sdm)
    ensures sdm.name == "CloudFoundry software delivery machine"
    ensures sdm.goalSetting == GivenChain(GoalChain)
    ensures sdm.buildRules == BuildRules + NodeSupport.NodeBuildRules
    ensures sdm.buildDefault == Some(BuildDefault)
    ensures sdm.deployRules == DeployRules
    ensures sdm.disposalRules == DisposalRules
    ensures sdm.extensionPacks == [SpringSupport, SentrySupport, CloudReadinessChecks, NodeSupport]
    ensures forall push :: sdm.SelectBuilder(push) == Select(StrategyTable(BuildRules, Some(BuildDefault)), push)
    ensures forall push ::
              sdm.SelectDeploySpec(Staging, push) ==
              if push.isMaven then Some(Using(LocalExecutableJarDeployer, ManagedDeploymentTargeter))
              else if push.isNode then Some(CloudFoundryStagingDeploySpec)
              else None
    ensures forall push ::
              sdm.SelectDeploySpec(Production, push) ==
              if push.isMaven then Some(CloudFoundryProductionDeploySpec) else None
    ensures forall push ::
              sdm.ResolveDisposal(push) ==
              if (push.isMaven && push.hasSpringBootApplicationClass && push.hasCloudFoundryManifest) ||
                 (push.isNode && push.hasCloudFoundryManifest)
              then Some(UndeployEverywhereGoals)
              else Some(RepositoryDeletionGoals)
  {
    sdm := new SoftwareDeliveryMachine("CloudFoundry software delivery machine", GivenChain(GoalChain));
    sdm.AddBuildRules(BuildRules, Some(BuildDefault));
    sdm.AddDeployRules(DeployRules);
    sdm.AddDisposalRules(DisposalRules);
    sdm.AddExtensionPacks([SpringSupport, SentrySupport, CloudReadinessChecks, NodeSupport]);
    NodeSupport.Configure(sdm);
    forall push
      ensures sdm.SelectBuilder(push) == Select(StrategyTable(BuildRules, Some(BuildDefault)), push)
    {
      assert sdm.buildRules == BuildRules + NodeSupport.NodeBuildRules && sdm.buildDefault == Some(BuildDefault);
      NodeSupportRulesShadowed(push);
    }
    forall push
      ensures sdm.SelectDeploySpec(Staging, push) ==
        if push.isMaven then Some(Using(LocalExecutableJarDeployer, ManagedDeploymentTargeter))
        else if push.isNode then Some(CloudFoundryStagingDeploySpec)
        else None
      ensures sdm.SelectDeploySpec(Production, push) ==
        if push.isMaven then Some(CloudFoundryProductionDeploySpec) else None
      ensures sdm.ResolveDisposal(push) ==
        if (push.isMaven && push.hasSpringBootApplicationClass && push.hasCloudFoundryManifest) ||
           (push.isNode && push.hasCloudFoundryManifest)
        then Some(UndeployEverywhereGoals)
        else Some(RepositoryDeletionGoals)
    {
      assert sdm.deployRules == DeployRules && sdm.disposalRules == DisposalRules;
      DeploySelection(push);
      DisposalSelection(push);
    }
  }

  // ---------------------------------------------------------------------------------------
  // Goal setting
  // ---------------------------------------------------------------------------------------

  /** The deploy conditions of the "Spring Boot service to deploy" tier, apart from the material change. */
  predicate ServiceDeployable(push: Push)
  {
    push.toDefaultBranch && push.hasSpringBootApplicationClass && push.hasCloudFoundryManifest &&
    push.toPublicRepo && !push.namedSeedRepo && !push.fromAtomist && push.isDeployEnabled
  }

  /** The tier the nested Maven chain picks, read off its rules in order. */
  function JavaTier(push: Push): GoalSet
  {
    if push.hasSpringBootApplicationClass && !push.materialChangeToJavaRepo then NoGoals
    else if ServiceDeployable(push) then HttpServiceGoals
    else if push.hasSpringBootApplicationClass && !push.fromAtomist then LocalDeploymentGoals
    else LibraryGoals
  }

  /** The tier the Node rules pick for a push that is not Maven; None when it is not Node either. */
  function NodeTier(push: Push): Option<GoalSet>
  {
    if !push.isNode then None
    else if !push.materialChangeToNodeRepo then Some(NoGoals)
    else if push.hasCloudFoundryManifest && push.isDeployEnabled && push.toDefaultBranch then Some(NpmDeployGoals)
    else if push.hasDockerfile && push.toDefaultBranch && push.isDeployEnabled then Some(NpmKubernetesDeployGoals)
    else if push.hasDockerfile then Some(NpmDockerGoals)
    else Some(NpmBuildGoals)
  }

  lemma ServiceGuard(push: Push)
    ensures Eval(MavenChain[1].guard, push) == ServiceDeployable(push)
  {
  }

  /** The nested chain always sets a goal set, because it ends in `onAnyPush`, and that set is the Java tier. */
  lemma MavenChainTier(push: Push)
    ensures ResolveChain(MavenChain, push) == Some(JavaTier(push))
  {
    ServiceGuard(push);
    if !(push.hasSpringBootApplicationClass && !push.materialChangeToJavaRepo) {
      assert !Eval(MavenChain[0].guard, push);
      assert ResolveChain(MavenChain, push) == ResolveChainFrom(MavenChain, 1, push);
      if !ServiceDeployable(push) {
        assert ResolveChainFrom(MavenChain, 1, push) == ResolveChainFrom(MavenChain, 2, push);
      }
    }
  }

  /** The guards of the Node rules, read as conditions on the push. */
  lemma NodeGuards(push: Push)
    ensures !Eval(GoalChain[0].guard, push) <==> !push.isMaven
    ensures Eval(GoalChain[1].guard, push) <==> push.isNode && !push.materialChangeToNodeRepo
    ensures Eval(GoalChain[2].guard, push) <==>
      push.isNode && push.hasCloudFoundryManifest && push.isDeployEnabled && push.toDefaultBranch
    ensures Eval(GoalChain[3].guard, push) <==>
      push.isNode && push.hasDockerfile && push.toDefaultBranch && push.isDeployEnabled
    ensures Eval(GoalChain[4].guard, push) <==> push.isNode && push.hasDockerfile
    ensures Eval(GoalChain[5].guard, push) <==> push.isNode && !push.hasDockerfile
  {
  }

  /** A push that is not Maven skips `given(IsMaven)` and is decided by the Node rules. */
  lemma NonMavenTier(push: Push)
    requires !push.isMaven
    ensures ResolveChain(GoalChain, push) == NodeTier(push)
  {
    NodeGuards(push);
    var r1 := ResolveChainFrom(GoalChain, 1, push);
    var r2 := ResolveChainFrom(GoalChain, 2, push);
    var r3 := ResolveChainFrom(GoalChain, 3, push);
    var r4 := ResolveChainFrom(GoalChain, 4, push);
    var r5 := ResolveChainFrom(GoalChain, 5, push);
    assert ResolveChain(GoalChain, push) == r1;
    if !push.isNode {
      assert r5 == ResolveChainFrom(GoalChain, 6, push) == None;
      assert r1 == r2 == r3 == r4 == r5;
    } else if !push.materialChangeToNodeRepo {
      assert r1 == Some(NoGoals);
    } else {
      assert r1 == r2;
      if !(push.hasCloudFoundryManifest && push.isDeployEnabled && push.toDefaultBranch) {
        assert r2 == r3;
        if !(push.hasDockerfile && push.toDefaultBranch && push.isDeployEnabled) {
          assert r3 == r4;
          if !push.hasDockerfile {
            assert r4 == r5;
          }
        }
      }
    }
  }

  /** A Maven push is decided by the nested chain alone, which always ends in one of the four Java tiers. */
  lemma MavenDecidedByNestedChain(push: Push)
    requires push.isMaven
    ensures ResolveChain(GoalChain, push) == ResolveChain(MavenChain, push)
    ensures ResolveChain(GoalChain, push) in
      {Some(NoGoals), Some(HttpServiceGoals), Some(LocalDeploymentGoals), Some(LibraryGoals)}
  {
    ChainNesting(GoalChain, push, 0, MavenChain);
    MavenChainTier(push);
  }

  /** Every push's goals: the Java tier for Maven, otherwise the Node tier. */
  lemma GoalChainTier(push: Push)
    ensures ResolveChain(GoalChain, push) == if push.isMaven then Some(JavaTier(push)) else NodeTier(push)
  {
    if push.isMaven {
      MavenDecidedByNestedChain(push);
      MavenChainTier(push);
    } else {
      NonMavenTier(push);
    }
  }

  /** Without a material Java change a Spring Boot push gets NoGoals, even when it could be deployed. */
  lemma SpringBootWithoutMaterialChange(push: Push)
    requires push.isMaven && push.hasSpringBootApplicationClass && !push.materialChangeToJavaRepo
    ensures ResolveChain(GoalChain, push) == Some(NoGoals)
  {
    GoalChainTier(push);
  }

  /** HttpServiceGoals needs every one of the tier's conditions, and a material Java change. */
  lemma HttpServiceGoalsExactly(push: Push)
    ensures ResolveChain(GoalChain, push) == Some(HttpServiceGoals) <==>
      push.isMaven && push.materialChangeToJavaRepo && ServiceDeployable(push)
  {
    GoalChainTier(push);
  }

  /** A Spring Boot service not from Atomist that cannot be deployed is deployed locally. */
  lemma LocalDeploymentGoalsExactly(push: Push)
    ensures ResolveChain(GoalChain, push) == Some(LocalDeploymentGoals) <==>
      push.isMaven && push.hasSpringBootApplicationClass && push.materialChangeToJavaRepo &&
      !push.fromAtomist && !ServiceDeployable(push)
  {
    GoalChainTier(push);
  }

  /** Everything else Maven is built as a library: no Spring Boot class, or a changed one from Atomist. */
  lemma LibraryGoalsExactly(push: Push)
    ensures ResolveChain(GoalChain, push) == Some(LibraryGoals) <==>
      push.isMaven && (!push.hasSpringBootApplicationClass || (push.materialChangeToJavaRepo && push.fromAtomist))
  {
    GoalChainTier(push);
  }

  /** NoGoals comes from exactly the two "no material change" rules. */
  lemma NoGoalsExactly(push: Push)
    ensures ResolveChain(GoalChain, push) == Some(NoGoals) <==>
      (push.isMaven && push.hasSpringBootApplicationClass && !push.materialChangeToJavaRepo) ||
      (!push.isMaven && push.isNode && !push.materialChangeToNodeRepo)
  {
    GoalChainTier(push);
  }

  /** A push gets some goal set iff it is Maven or Node; any other push matches no rule. */
  lemma GoalsOnlyForMavenOrNode(push: Push)
    ensures ResolveChain(GoalChain, push).Some? <==> push.isMaven || push.isNode
  {
    GoalChainTier(push);
  }

  /**
   * A changed Node push that is not Maven always lands in one of the four Node tiers: the
   * Cloud Foundry rule wins over the Docker ones, and the last two split on HasDockerfile.
   */
  lemma NodeTiers(push: Push)
    requires !push.isMaven && push.isNode && push.materialChangeToNodeRepo
    ensures var cf := push.hasCloudFoundryManifest && push.isDeployEnabled && push.toDefaultBranch;
      ResolveChain(GoalChain, push) ==
        if cf then Some(NpmDeployGoals)
        else if push.hasDockerfile && push.toDefaultBranch && push.isDeployEnabled then Some(NpmKubernetesDeployGoals)
        else if push.hasDockerfile then Some(NpmDockerGoals)
        else Some(NpmBuildGoals)
  {
    NonMavenTier(push);
  }

  /** NpmKubernetesDeployGoals only when the Cloud Foundry rule fails and Docker deployment is possible. */
  lemma KubernetesOnlyWithoutCloudFoundry(push: Push)
    ensures ResolveChain(GoalChain, push) == Some(NpmKubernetesDeployGoals) <==>
      !push.isMaven && push.isNode && push.materialChangeToNodeRepo &&
      !push.hasCloudFoundryManifest && push.hasDockerfile && push.toDefaultBranch && push.isDeployEnabled
  {
    GoalChainTier(push);
  }

  // ---------------------------------------------------------------------------------------
  // Build, deploy and disposal
  // ---------------------------------------------------------------------------------------

  /**
   * A custom build file wins over everything; otherwise a Node push gets a node builder whose
   * install and script follow the lock file and the branch; any other push gets the Maven default.
   */
  lemma BuildSelection(push: Push)
    ensures push.hasAtomistBuildFile ==>
      Select(StrategyTable(BuildRules, Some(BuildDefault)), push) == Some(NpmCustomBuilder)
    ensures !push.hasAtomistBuildFile && push.isNode ==>
      Select(StrategyTable(BuildRules, Some(BuildDefault)), push) ==
        Some(NodeBuilder(NodeSupport.InstallCommand(push), NodeSupport.BuildScript(push)))
    ensures !push.hasAtomistBuildFile && !push.isNode ==>
      Select(StrategyTable(BuildRules, Some(BuildDefault)), push) == Some(MavenBuilder)
  {
  }

  /** After the custom build rule, the machine's own build rules are NodeSupport's four rules, in the same order. */
  lemma NodeRulesMatchNodeSupport()
    ensures BuildRules == [BuildRules[0]] + NodeSupport.NodeBuildRules
    ensures BuildRules[0].guard == All([Leaf(HasAtomistBuildFile)])
  {
  }

  /**
   * NodeSupport's rules, registered after the machine's own, are shadowed by the machine's
   * `build.when(IsNode)` rule: the assembled build table selects what the machine's rules select.
   */
  lemma NodeSupportRulesShadowed(push: Push)
    ensures Select(StrategyTable(BuildRules + NodeSupport.NodeBuildRules, Some(BuildDefault)), push) ==
            Select(StrategyTable(BuildRules, Some(BuildDefault)), push)
  {
    if push.isNode {
      assert Eval(BuildRules[4].guard, push);
    } else {
      NodeSupport.NodeBuildRulesCoverNode(push);
    }
    SelectAppendShadowed(StrategyTable(BuildRules, Some(BuildDefault)), NodeSupport.NodeBuildRules, push);
  }

  /** Staging and production are separate tables; Node has a staging rule but no production rule. */
  lemma DeploySelection(push: Push)
    ensures push.isMaven ==>
      Select(DeployTable(DeployRules, Staging), push) == Some(Using(LocalExecutableJarDeployer, ManagedDeploymentTargeter))
    ensures !push.isMaven && push.isNode ==>
      Select(DeployTable(DeployRules, Staging), push) == Some(CloudFoundryStagingDeploySpec)
    ensures !push.isMaven && !push.isNode ==> Select(DeployTable(DeployRules, Staging), push) == None
    ensures Select(DeployTable(DeployRules, Production), push) ==
      if push.isMaven then Some(CloudFoundryProductionDeploySpec) else None
  {
  }

  /** Cloud Foundry projects are undeployed everywhere; every other disposal deletes the repository. */
  lemma DisposalSelection(push: Push)
    ensures ResolveChain(DisposalRules, push) ==
      if (push.isMaven && push.hasSpringBootApplicationClass && push.hasCloudFoundryManifest) ||
         (push.isNode && push.hasCloudFoundryManifest)
      then Some(UndeployEverywhereGoals)
      else Some(RepositoryDeletionGoals)
  {
  }
}

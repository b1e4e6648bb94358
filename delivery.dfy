/**
 * Goals, builders and deployers as opaque tags, and the software delivery machine's
 * registries. The machine is assembled by ordered `add*` calls; the order in which rules
 * are registered is what first-match resolution later walks.
 */
module Delivery {
  import opened Wrappers
  import opened Predicates
  import opened Resolvers

  /** Individual goals, as contributed one by one in contributor mode. */
  datatype Goal =
    | ReviewGoal
    | PushReactionGoal
    | ExplainDeploymentFreezeGoal
    | JustBuildGoal
    | LocalDeploymentGoal
    | ArtifactGoal
    | StagingDeploymentGoal
    | StagingEndpointGoal
    | StagingVerifiedGoal
    | ProductionDeploymentGoal
    | ProductionEndpointGoal

  /** Named goal sets defined by the library; their contents are not part of this model. */
  datatype GoalSet =
    | NoGoals
    | HttpServiceGoals
    | LocalDeploymentGoals
    | LibraryGoals
    | NpmDeployGoals
    | NpmKubernetesDeployGoals
    | NpmDockerGoals
    | NpmBuildGoals
    | UndeployEverywhereGoals
    | RepositoryDeletionGoals

  /** Builders, carrying only the arguments visible where they are registered. */
  datatype Builder =
    | NpmCustomBuilder
    | NodeBuilder(install: string, script: string)
    | MavenBuilder

  datatype Deployer = LocalExecutableJarDeployer
  datatype Targeter = ManagedDeploymentTargeter

  /** How a deployment goal is realised. */
  datatype DeploySpec =
    | Using(deployer: Deployer, targeter: Targeter)
    | CloudFoundryProductionDeploySpec
    | CloudFoundryStagingDeploySpec

  /**
   * The goal kind a deploy rule serves: `deployTo(StagingDeploymentGoal, StagingEndpointGoal,
   * StagingUndeploymentGoal)` or the production triple.
   */
  datatype Stage = Staging | Production

  datatype DeployRule = DeployRule(guard: Pred, meaning: string, stage: Stage, spec: DeploySpec)

  /** The goal setting handed to the machine when it is created. */
  datatype GoalSetting =
    | GivenChain(rules: seq<Rule<GoalSet>>)
    | GoalContributors(contributors: seq<Contributor<Goal>>)

  datatype ExtensionPack =
    | DeploymentFreeze
    | SpringSupport
    | SentrySupport
    | CloudReadinessChecks
    | NodeSupport

  /** The deploy rules from index `k` on that serve one goal kind, in registration order. */
  function RulesForFrom(rules: seq<DeployRule>, stage: Stage, k: nat): seq<StrategyRule<DeploySpec>>
    decreases |rules| - k
  {
    if k >= |rules| then []
    else
      var rest := RulesForFrom(rules, stage, k + 1);
      var d := rules[k];
      if d.stage == stage then [AsStrategy(d)] + rest else rest
  }

  function RulesFor(rules: seq<DeployRule>, stage: Stage): seq<StrategyRule<DeploySpec>>
  {
    RulesForFrom(rules, stage, 0)
  }

  /** A deploy rule read as an entry of its goal kind's strategy table. */
  function AsStrategy(d: DeployRule): StrategyRule<DeploySpec>
  {
    StrategyRule(d.guard, d.meaning, d.spec)
  }

  /** A rule is in a goal kind's table iff it comes from a deploy rule, from index k on, registered for that kind. */
  lemma {:induction false} RulesForFromMeaning(rules: seq<DeployRule>, stage: Stage, k: nat)
    decreases |rules| - k
    ensures forall r :: r in RulesForFrom(rules, stage, k) <==>
      exists i :: k <= i < |rules| && rules[i].stage == stage && r == AsStrategy(rules[i])
  {
    if k < |rules| {
      RulesForFromMeaning(rules, stage, k + 1);
    }
  }

  lemma {:induction false} RulesForFromShift(a: seq<DeployRule>, b: seq<DeployRule>, stage: Stage, j: nat)
    decreases |b| - j
    ensures RulesForFrom(a + b, stage, |a| + j) == RulesForFrom(b, stage, j)
  {
    if j < |b| {
      assert (a + b)[|a| + j] == b[j];
      RulesForFromShift(a, b, stage, j + 1);
    }
  }

  lemma {:induction false} RulesForFromAppend(a: seq<DeployRule>, b: seq<DeployRule>, stage: Stage, k: nat)
    requires k <= |a|
    decreases |a| - k
    ensures RulesForFrom(a + b, stage, k) == RulesForFrom(a, stage, k) + RulesFor(b, stage)
  {
    if k == |a| {
      RulesForFromShift(a, b, stage, 0);
    } else {
      assert (a + b)[k] == a[k];
      RulesForFromAppend(a, b, stage, k + 1);
    }
  }

  /** Each goal kind's table holds exactly the deploy rules registered for that kind. */
  lemma RulesForMeaning(rules: seq<DeployRule>, stage: Stage)
    ensures forall r :: r in RulesFor(rules, stage) <==>
      exists i :: 0 <= i < |rules| && rules[i].stage == stage && r == AsStrategy(rules[i])
  {
    RulesForFromMeaning(rules, stage, 0);
  }

  /**
   * Splitting rules by goal kind keeps registration order: the table for rules registered in
   * two batches is the first batch's table followed by the second's.
   */
  lemma RulesForAppend(a: seq<DeployRule>, b: seq<DeployRule>, stage: Stage)
    ensures RulesFor(a + b, stage) == RulesFor(a, stage) + RulesFor(b, stage)
  {
    RulesForFromAppend(a, b, stage, 0);
  }

  /** One strategy table per goal kind; deploy rules carry no default. */
  function DeployTable(rules: seq<DeployRule>, stage: Stage): StrategyTable<DeploySpec>
  {
    StrategyTable(RulesFor(rules, stage), None)
  }

  class SoftwareDeliveryMachine {
    const name: string
    const goalSetting: GoalSetting
    var buildRules: seq<StrategyRule<Builder>>
    var buildDefault: Option<Builder>
    var deployRules: seq<DeployRule>
    var disposalRules: seq<Rule<GoalSet>>
    var extensionPacks: seq<ExtensionPack>

    /** `createSoftwareDeliveryMachine`: a named machine with its goal setting and empty registries. */
    constructor (name: string, goalSetting: GoalSetting)
      ensures this.name == name && this.goalSetting == goalSetting
      ensures buildRules == [] && buildDefault == None
      ensures deployRules == [] && disposalRules == [] && extensionPacks == []
    {
      this.name := name;
      this.goalSetting := goalSetting;
      buildRules := [];
      buildDefault := None;
      deployRules := [];
      disposalRules := [];
      extensionPacks := [];
    }

    /** `addBuildRules(...)`: conditional rules are appended; a `build.setDefault` replaces the default. */
    method AddBuildRules(rules: seq<StrategyRule<Builder>>, default: Option<Builder>)
      modifies this
      ensures buildRules == old(buildRules) + rules
      ensures buildDefault == if default.Some? then default else old(buildDefault)
      ensures deployRules == old(deployRules) && disposalRules == old(disposalRules)
      ensures extensionPacks == old(extensionPacks)
    {
      buildRules := buildRules + rules;
      if default.Some? {
        buildDefault := default;
      }
    }

    method AddDeployRules(rules: seq<DeployRule>)
      modifies this
      ensures deployRules == old(deployRules) + rules
      ensures buildRules == old(buildRules) && buildDefault == old(buildDefault)
      ensures disposalRules == old(disposalRules) && extensionPacks == old(extensionPacks)
    {
      deployRules := deployRules + rules;
    }

    method AddDisposalRules(rules: seq<Rule<GoalSet>>)
      modifies this
      ensures disposalRules == old(disposalRules) + rules
      ensures buildRules == old(buildRules) && buildDefault == old(buildDefault)
      ensures deployRules == old(deployRules) && extensionPacks == old(extensionPacks)
    {
      disposalRules := disposalRules + rules;
    }

    /**
     * Records the packs in order. A pack's own registrations are made by its `configure`,
     * which the caller runs next (only NodeSupport's is part of this model).
     */
    method AddExtensionPacks(packs: seq<ExtensionPack>)
      modifies this
      ensures extensionPacks == old(extensionPacks) + packs
      ensures buildRules == old(buildRules) && buildDefault == old(buildDefault)
      ensures deployRules == old(deployRules) && disposalRules == old(disposalRules)
    {
      extensionPacks := extensionPacks + packs;
    }

    /** The builder chosen for a push by the registered build rules and default. */
    function SelectBuilder(push: Push): Option<Builder>
      reads this
    {
      Select(StrategyTable(buildRules, buildDefault), push)
    }

    /** The deploy spec chosen for one goal kind; None when no rule of that kind matches. */
    function SelectDeploySpec(stage: Stage, push: Push): Option<DeploySpec>
      reads this
    {
      Select(DeployTable(deployRules, stage), push)
    }

    /** The goal set for a repository-disposal event: the first matching disposal rule decides. */
    function ResolveDisposal(push: Push): Option<GoalSet>
      reads this
    {
      ResolveChain(disposalRules, push)
    }
  }
}

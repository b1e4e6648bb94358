# Goal resolution in the Atomist Cloud Foundry delivery machines

This project models how the two Cloud Foundry software delivery machines and the Node
extension pack decide what happens to a push:

- which delivery goals the push gets;
- which builder builds it;
- which deploy spec serves each deployment goal kind;
- which goals a repository disposal gets.

Three kinds of rule table are modelled:

- **Goal chains.** `given(...).then(...)` and `whenPushSatisfies(...).setGoals(...)` are ordered rules. The first rule whose guard holds decides. A `given` rule delegates to a nested chain.
- **Goal contributors.** `goalContributors(...)` evaluates every contributor. It merges the goals of each one that matches, in registration order, with each goal kept once.
- **Strategy tables.** `build.when(...)` and `deploy.when(...)` are ordered rules plus an optional `build.setDefault`. The first match wins; otherwise the default applies. Deploy rules form one table per goal kind (staging or production).

How these are resolved is defined by the `@atomist/sdm` library, which is not part of this model. Its behaviour is stated as the model's assumptions, one small function each, in `resolvers.dfy`. The lemmas beside each function say what it means.

Push tests are opaque facts about the push: one boolean per test, the set of files for `hasFile`, and the deployment-freeze state. They are combined with `All` (the guard lists of `whenPushSatisfies` and `build.when`), `Any` (`any(...)`) and `Not` (`not(...)`). `onAnyPush` and `AnyPush` are `All([])`.

The machines are built by ordered `add*` calls on one object. The class `Delivery.SoftwareDeliveryMachine` keeps each registry as a sequence field that those methods append to, because first-match resolution walks rules in registration order. Each machine's `Create` method makes the source's calls in the source's order. Its contract states the resulting registries. It also states what the assembled machine selects for every push: the builder, the deploy spec of each goal kind and the disposal goals.

Modules, one file each:

| file | module | holds |
|---|---|---|
| `wrappers.dfy` | `Wrappers` | `Option` |
| `predicates.dfy` | `Predicates` | push facts, the guard language and its evaluation |
| `resolvers.dfy` | `Resolvers` | chain, contributor and strategy-table resolution |
| `delivery.dfy` | `Delivery` | goal, builder and deployer tags, and the machine's registries |
| `node_support.dfy` | `NodeSupport` | the Node pack's build rules |
| `cloud_foundry_machine.dfy` | `CloudFoundryMachine` | the chain-based machine |
| `additive_machine.dfy` | `AdditiveCloudFoundryMachine` | the contributor-based machine |

Guard evaluation, chain resolution and strategy selection walk their rules by index, left to right, and stop at the first deciding rule. Contributor resolution evaluates every contributor.

In the additive machine the freeze is not an override. A frozen push gets the freeze explanation goal added. It loses only the production contributor's goals and keeps its checks, build, artifact and staging goals (`AdditiveCloudFoundryMachine.FreezeRemovesOnlyProduction`).

The rule tables are transcribed as constants:

| constant | source |
|---|---|
| `CloudFoundryMachine.GoalChain` | src/machines/cloudFoundryMachine.ts:100-130 |
| `CloudFoundryMachine.BuildRules`, `CloudFoundryMachine.BuildDefault` | src/machines/cloudFoundryMachine.ts:134-151 |
| `CloudFoundryMachine.DeployRules` | src/machines/cloudFoundryMachine.ts:152-168 |
| `CloudFoundryMachine.DisposalRules` | src/machines/cloudFoundryMachine.ts:169-178 |
| `AdditiveCloudFoundryMachine.Contributors` | src/machines/additiveCloudFoundryMachine.ts:93-110 |
| `AdditiveCloudFoundryMachine.DeployRules` | src/machines/additiveCloudFoundryMachine.ts:130-142 |
| `AdditiveCloudFoundryMachine.DisposalRules` | src/machines/additiveCloudFoundryMachine.ts:143-149 |
| `AdditiveCloudFoundryMachine.BuildDefault` | src/machines/additiveCloudFoundryMachine.ts:164-166 |
| `AdditiveCloudFoundryMachine.Packs` | src/machines/additiveCloudFoundryMachine.ts:122-128 |
| `NodeSupport.NodeBuildRules`, `NodeSupport.PackageLockJson` | src/pack/node/nodeSupport.ts:43, 78-90 |

## Model

| member | source | states |
|---|---|---|
| Predicates.AllFromMeaning | src/machines/cloudFoundryMachine.ts:105-106 | The left-to-right conjunction walk from index k holds iff every guard from k on holds |
| Predicates.AnyFromMeaning | src/machines/additiveCloudFoundryMachine.ts:97 | The left-to-right disjunction walk from index k holds iff some guard from k on holds |
| Predicates.AllMeaning | src/machines/cloudFoundryMachine.ts:105-106 | A `whenPushSatisfies` guard list holds iff every test in it holds |
| Predicates.AnyMeaning | src/machines/additiveCloudFoundryMachine.ts:97 | `any(...)` holds iff at least one of its tests holds |
| Predicates.Identities | src/machines/cloudFoundryMachine.ts:112 | `onAnyPush` holds for every push; an empty `any` holds for none |
| Resolvers.FirstMatchFrom | src/machines/cloudFoundryMachine.ts:100-130 | The index found is the first guard from k on that holds, and every guard before it fails; None means every guard from k on fails |
| Resolvers.FirstMatchUnique | src/machines/cloudFoundryMachine.ts:100-130 | A holding guard with no holding guard before it is the first match |
| Resolvers.ChainFirstMatchFrom | src/machines/cloudFoundryMachine.ts:100-130 | Resolving a chain from index k gives the outcome of the first matching rule from k on, or None when none matches |
| Resolvers.ChainFirstMatch | src/machines/cloudFoundryMachine.ts:100-130 | A goal chain is decided by its first matching rule alone; later rules are not consulted |
| Resolvers.ChainDecidedAt | src/machines/cloudFoundryMachine.ts:100-130 | If rule i matches and no earlier rule does, the chain gives rule i's outcome |
| Resolvers.ChainNesting | src/machines/cloudFoundryMachine.ts:100-114 | When a `given(...).then(...)` rule is the first match, the chain's result is the nested chain's result |
| Resolvers.ChainNoMatch | src/machines/cloudFoundryMachine.ts:100-130 | A chain in which no rule matches gives no goals (None) |
| Resolvers.MergeFromMeaning | src/machines/additiveCloudFoundryMachine.ts:101-109 | Merging from index k keeps the accumulated goals as a prefix, adds exactly the missing goals and introduces no duplicates |
| Resolvers.MergeMeaning | src/machines/additiveCloudFoundryMachine.ts:101-109 | Merging a contributor's goals keeps earlier goals first, adds exactly the new ones, and a goal contributed twice appears once |
| Resolvers.ContributeUpToMeaning | src/machines/additiveCloudFoundryMachine.ts:92-110 | After the first n contributors the goals have no duplicates; a goal is present iff one of those contributors matches and lists it; if none matches there are no goals |
| Resolvers.ContributeMeaning | src/machines/additiveCloudFoundryMachine.ts:92-110 | The contributed goals are the union of every matching contributor's goals, without duplicates |
| Resolvers.ContributeNoMatch | src/machines/additiveCloudFoundryMachine.ts:93-110 | A push that no contributor matches gets no goals |
| Resolvers.ContributeInOrder | src/machines/additiveCloudFoundryMachine.ts:92-110 | The goals after n contributors are the matching contributors' goals concatenated in registration order, keeping each goal's first occurrence only |
| Resolvers.MergeFromIsDedup | src/machines/additiveCloudFoundryMachine.ts:101-109 | Merging a contributor's goals from index k appends them in order, skipping those already present |
| Resolvers.DedupAppend | src/machines/additiveCloudFoundryMachine.ts:92-110 | Dropping repeats from two lists in sequence equals dropping them from their concatenation |
| Resolvers.ContributeOrderIrrelevant | src/machines/additiveCloudFoundryMachine.ts:92-110 | Reordering contributors never changes which goals a push gets |
| Resolvers.FirstRuleMatch | src/machines/cloudFoundryMachine.ts:134-151 | Walking a strategy table's rules from index k finds the strategy of the first matching rule from k on, or nothing when none matches |
| Resolvers.SelectMeaning | src/machines/cloudFoundryMachine.ts:134-151 | The first matching rule's strategy is selected; with no match the default is; nothing is selected iff there is no match and no default |
| Resolvers.SelectAppendShadowed | src/machines/cloudFoundryMachine.ts:190-195 | Rules appended to a table change nothing for a push that an existing rule matches, or that no appended rule matches |
| Delivery.RulesForFromMeaning | src/machines/cloudFoundryMachine.ts:152-168 | A strategy rule is in a goal kind's table, built from index k on, iff it comes from a deploy rule at or after k registered for that kind |
| Delivery.RulesForMeaning | src/machines/cloudFoundryMachine.ts:152-168 | Each goal kind's table holds exactly the deploy rules registered with `deployTo` for that kind |
| Delivery.RulesForFromShift | src/machines/cloudFoundryMachine.ts:152-168 | Building a goal kind's table from a position inside the second of two rule batches depends only on that batch |
| Delivery.RulesForFromAppend | src/machines/cloudFoundryMachine.ts:152-168 | Building a goal kind's table from index k of two batches gives the first batch's part followed by the second batch's table |
| Delivery.RulesForAppend | src/machines/cloudFoundryMachine.ts:152-168 | Deploy rules registered in two batches give each goal kind the first batch's rules followed by the second's, in order |
| Delivery.SoftwareDeliveryMachine.constructor | src/machines/cloudFoundryMachine.ts:94-130 | A new machine has its name and goal setting and empty build, deploy, disposal and pack registries |
| Delivery.SoftwareDeliveryMachine.AddBuildRules | src/machines/cloudFoundryMachine.ts:134-151 | Build rules are appended after those already registered; `setDefault` replaces the default; other registries are unchanged |
| Delivery.SoftwareDeliveryMachine.AddDeployRules | src/machines/cloudFoundryMachine.ts:152-168 | Deploy rules are appended in order; nothing else changes |
| Delivery.SoftwareDeliveryMachine.AddDisposalRules | src/machines/cloudFoundryMachine.ts:169-178 | Disposal rules are appended in order; nothing else changes |
| Delivery.SoftwareDeliveryMachine.AddExtensionPacks | src/machines/cloudFoundryMachine.ts:190-195 | Packs are recorded in order; nothing else changes |
| NodeSupport.LockFileGuards | src/pack/node/nodeSupport.ts:43 | The two lock-file rules test `hasFile` of exactly `package-lock.json`; the other two rules test no file |
| NodeSupport.NodeBuildSelection | src/pack/node/nodeSupport.ts:78-90 | Each cell of the grid (default branch) x (package-lock.json present) selects its node builder: `npm ci` iff the lock file exists, `npm run build` iff on the default branch; a non-Node push falls to the table's default |
| NodeSupport.NodeBuildRulesCoverNode | src/pack/node/nodeSupport.ts:78-90 | Some Node rule matches iff the push is Node |
| NodeSupport.Configure | src/pack/node/nodeSupport.ts:42-91 | `configure` appends the four Node build rules after the machine's existing ones and changes no other registry |
| CloudFoundryMachine.Create | src/machines/cloudFoundryMachine.ts:92-200 | The machine holds the goal chain, its build rules followed by NodeSupport's, the Maven default, three deploy rules, three disposal rules and four packs; for every push, its builder is the one its own build rules choose; Maven staging uses the local jar deployer, Node staging the Cloud Foundry staging spec, and only Maven has a production spec; disposal undeploys Cloud Foundry Spring Boot and Node projects and otherwise deletes the repository |
| CloudFoundryMachine.ServiceGuard | src/machines/cloudFoundryMachine.ts:105-108 | The "Spring Boot service to deploy" guard holds iff all seven of its conditions hold |
| CloudFoundryMachine.MavenChainTier | src/machines/cloudFoundryMachine.ts:101-113 | The nested Maven chain always gives a goal set, and that set is the first tier whose conditions hold |
| CloudFoundryMachine.NodeGuards | src/machines/cloudFoundryMachine.ts:115-129 | Each top-level rule's guard holds exactly under its listed conditions |
| CloudFoundryMachine.NonMavenTier | src/machines/cloudFoundryMachine.ts:115-130 | A non-Maven push is decided by the Node rules in order; a push that is neither Maven nor Node gets None |
| CloudFoundryMachine.MavenDecidedByNestedChain | src/machines/cloudFoundryMachine.ts:100-114 | A Maven push is decided by the nested chain alone and always gets one of NoGoals, HttpServiceGoals, LocalDeploymentGoals or LibraryGoals |
| CloudFoundryMachine.GoalChainTier | src/machines/cloudFoundryMachine.ts:100-130 | Every push's goals: the Java tier if Maven, otherwise the Node tier |
| CloudFoundryMachine.SpringBootWithoutMaterialChange | src/machines/cloudFoundryMachine.ts:102-108 | A Spring Boot Maven push without a material Java change gets NoGoals, even when every deploy condition holds |
| CloudFoundryMachine.HttpServiceGoalsExactly | src/machines/cloudFoundryMachine.ts:100-113 | HttpServiceGoals iff Maven, a material Java change and all seven deploy conditions |
| CloudFoundryMachine.LocalDeploymentGoalsExactly | src/machines/cloudFoundryMachine.ts:109-111 | LocalDeploymentGoals iff a changed Maven Spring Boot push, not from Atomist, that is not deployable |
| CloudFoundryMachine.LibraryGoalsExactly | src/machines/cloudFoundryMachine.ts:109-113 | LibraryGoals iff Maven and either no Spring Boot class, or a changed one from Atomist |
| CloudFoundryMachine.NoGoalsExactly | src/machines/cloudFoundryMachine.ts:100-117 | NoGoals iff one of the two "no material change" rules decides the push |
| CloudFoundryMachine.GoalsOnlyForMavenOrNode | src/machines/cloudFoundryMachine.ts:100-130 | A push gets a goal set iff it is Maven or Node |
| CloudFoundryMachine.NodeTiers | src/machines/cloudFoundryMachine.ts:118-129 | A changed non-Maven Node push always gets one of the four Node goal sets; the Cloud Foundry rule wins even when a Dockerfile is present |
| CloudFoundryMachine.KubernetesOnlyWithoutCloudFoundry | src/machines/cloudFoundryMachine.ts:118-123 | NpmKubernetesDeployGoals iff a changed non-Maven Node push with no manifest and with a Dockerfile, the default branch and deploy enabled |
| CloudFoundryMachine.BuildSelection | src/machines/cloudFoundryMachine.ts:134-151 | A custom build file selects the custom builder first; otherwise a Node push gets the node builder of its lock-file/branch cell; any other push gets MavenBuilder |
| CloudFoundryMachine.NodeRulesMatchNodeSupport | src/machines/cloudFoundryMachine.ts:132-149 | After the custom build rule, the machine's own build rules are NodeSupport's four rules in the same order |
| CloudFoundryMachine.NodeSupportRulesShadowed | src/machines/cloudFoundryMachine.ts:190-195 | NodeSupport's rules, appended after the machine's own, never change the selected builder |
| CloudFoundryMachine.DeploySelection | src/machines/cloudFoundryMachine.ts:152-168 | Maven staging uses the local executable-jar deployer with managed targets; Maven production uses the Cloud Foundry production spec; Node staging uses the Cloud Foundry staging spec; no other push has a spec, and Node has no production spec |
| CloudFoundryMachine.DisposalSelection | src/machines/cloudFoundryMachine.ts:169-178 | Maven Spring Boot or Node projects with a manifest are undeployed everywhere; every other disposal deletes the repository; every disposal resolves |
| AdditiveCloudFoundryMachine.Create | src/machines/additiveCloudFoundryMachine.ts:85-169 | The machine holds the contributors, the five packs, NodeSupport's build rules with the Maven default, two deploy rules and two disposal rules; for every push, its builder is the node builder of the push's cell if Node, else MavenBuilder; only Maven has deploy specs (the local jar deployer for staging, the Cloud Foundry spec for production); disposal undeploys Maven Spring Boot projects with a manifest and otherwise deletes the repository |
| AdditiveCloudFoundryMachine.ContributorGuards | src/machines/additiveCloudFoundryMachine.ts:93-110 | Each contributor's guard holds exactly under its listed conditions; the first always holds |
| AdditiveCloudFoundryMachine.ContributedGoals | src/machines/additiveCloudFoundryMachine.ts:93-110 | The goals have no duplicates. A goal is present iff its condition holds: checks always; the explanation iff frozen; the build goal iff Maven or Node; local deployment iff Spring Boot off the default branch; artifact and staging goals iff manifest and default branch; production goals iff also not frozen |
| AdditiveCloudFoundryMachine.ChecksOnEveryPush | src/machines/additiveCloudFoundryMachine.ts:94 | ReviewGoal and PushReactionGoal are in every push's goals |
| AdditiveCloudFoundryMachine.FreezeRemovesOnlyProduction | src/machines/additiveCloudFoundryMachine.ts:95-109 | A frozen push gets the explanation goal and no production goal; every other goal is present iff it is present for the same push unfrozen |
| AdditiveCloudFoundryMachine.ProductionNeedsStagingAndNoFreeze | src/machines/additiveCloudFoundryMachine.ts:101-109 | ProductionDeploymentGoal iff manifest, default branch and not frozen; ProductionEndpointGoal comes exactly with it; both always come with ArtifactGoal, StagingDeploymentGoal, StagingEndpointGoal and StagingVerifiedGoal |
| AdditiveCloudFoundryMachine.LocalExcludesCloudFoundry | src/machines/additiveCloudFoundryMachine.ts:99-109 | LocalDeploymentGoal never comes with ArtifactGoal, any of the three staging goals or either production goal |
| AdditiveCloudFoundryMachine.GoalsBeforeDeployment | src/machines/additiveCloudFoundryMachine.ts:94-100 | For an unfrozen Maven push to the default branch, the first four contributors give exactly the checks and the build goal |
| AdditiveCloudFoundryMachine.DeploymentContributions | src/machines/additiveCloudFoundryMachine.ts:101-109 | For an unfrozen push with a manifest to the default branch, both deployment contributors add their goals |
| AdditiveCloudFoundryMachine.FullDeliveryOrder | src/machines/additiveCloudFoundryMachine.ts:93-110 | An unfrozen Maven push to the default branch with a manifest gets all nine goals in contributor order, with the second ArtifactGoal dropped |
| AdditiveCloudFoundryMachine.ContributorOrderIrrelevant | src/machines/additiveCloudFoundryMachine.ts:92-110 | In any order the same contributors give the same goals |
| AdditiveCloudFoundryMachine.BuildSelection | src/machines/additiveCloudFoundryMachine.ts:164-166 | With NodeSupport's rules and the Maven default, a Node push gets its cell's node builder and every other push gets MavenBuilder |
| AdditiveCloudFoundryMachine.DeploySelection | src/machines/additiveCloudFoundryMachine.ts:130-142 | Only Maven pushes have deploy specs: the local jar deployer for staging, the Cloud Foundry production spec for production |
| AdditiveCloudFoundryMachine.DisposalSelection | src/machines/additiveCloudFoundryMachine.ts:143-149 | A Maven Spring Boot project with a manifest is undeployed everywhere; every other disposal deletes the repository |

## Left out

- Push-test internals are not modelled. IsMaven, HasSpringBootApplicationClass, MaterialChangeToJavaRepo and the other tests inspect projects through the external library, so each is an opaque fact of `Predicates.Push`. `hasFile` is membership of the path in the push's file set.
- Builders, deployers and targeters are tags carrying only the arguments visible where they are registered. Their behaviour is external I/O.
- The freeze store (`InMemoryDeploymentStatusManager`, src/machines/additiveCloudFoundryMachine.ts:77-79) is not modelled. It is shared mutable state behind a library API; the model reads its state as the `deploymentFrozen` fact. `deploymentFreeze(freezeStore)`'s own `configure` is not modelled either.
- Push tests are treated as synchronous and total. The library may evaluate them asynchronously and may treat a failing check as a non-match.
- Push reactions, issue listeners, channel-link listeners, supporting commands and endpoint verification listeners (src/machines/additiveCloudFoundryMachine.ts:112-120, 150-158; src/machines/cloudFoundryMachine.ts:179-187) are not modelled. They do I/O or register external objects, and they play no part in resolution.
- NodeSupport's generators, code actions, autofixes, reviewers and fingerprinters (src/pack/node/nodeSupport.ts:45-77) are not modelled. They are registrations of external objects.
- `addJavaSupport`, `addTeamPolicies` and `addDemoEditors` are not part of this model, and neither are the `configure` functions of SpringSupport, SentrySupport and CloudReadinessChecks. Their packs are only recorded by `AddExtensionPacks`.
- The contents of named goal sets (HttpServiceGoals, NpmDeployGoals, ...) are defined by the library, so each is an opaque tag.
- The `itMeans` labels are carried as strings but play no part in resolution.
- Resolution semantics are assumptions about the library:
  - a chain with no matching rule gives None;
  - when a `given(...).then(...)` guard holds, its nested chain decides, even when the nested chain matches nothing (the result is then None and later rules are not tried); the one nested chain here always gives a goal set (`CloudFoundryMachine.MavenChainTier`);
  - contributor goals merge in registration order with duplicates dropped;
  - `build.setDefault` fills a separate default slot, whatever its registration order, and a later default replaces an earlier one;
  - deploy rules are one strategy table per goal kind, without a default.

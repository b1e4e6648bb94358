/**
 * Push facts and the push-test language.
 *
 * The push tests themselves (IsMaven, HasSpringBootApplicationClass, MaterialChangeToJavaRepo,
 * hasFile, ...) inspect a project through an external library; here each one is an opaque fact
 * of a `Push` snapshot. Combinators are a closed tree evaluated left to right with
 * short-circuiting, as `whenPushSatisfies`, `any` and `not` do.
 */
module Predicates {

  /** One snapshot of the facts the push tests report for a push. */
  datatype Push = Push(
    isMaven: bool,
    isNode: bool,
    hasSpringBootApplicationClass: bool,
    materialChangeToJavaRepo: bool,
    materialChangeToNodeRepo: bool,
    toDefaultBranch: bool,
    hasCloudFoundryManifest: bool,
    toPublicRepo: bool,
    namedSeedRepo: bool,
    fromAtomist: bool,
    isDeployEnabled: bool,
    hasDockerfile: bool,
    hasAtomistBuildFile: bool,
    files: set<string>,        // paths that exist in the pushed project
    deploymentFrozen: bool     // what the deployment-freeze store reports
  )

  /** The leaf push tests used by the rule tables. */
  datatype PushTest =
    | IsMaven
    | IsNode
    | HasSpringBootApplicationClass
    | MaterialChangeToJavaRepo
    | MaterialChangeToNodeRepo
    | ToDefaultBranch
    | HasCloudFoundryManifest
    | ToPublicRepo
    | NamedSeedRepo
    | FromAtomist
    | IsDeployEnabled
    | HasDockerfile
    | HasAtomistBuildFile
    | FileExists(path: string)
    | IsDeploymentFrozen

  function Test(t: PushTest, push: Push): bool
  {
    match t
    case IsMaven => push.isMaven
    case IsNode => push.isNode
    case HasSpringBootApplicationClass => push.hasSpringBootApplicationClass
    case MaterialChangeToJavaRepo => push.materialChangeToJavaRepo
    case MaterialChangeToNodeRepo => push.materialChangeToNodeRepo
    case ToDefaultBranch => push.toDefaultBranch
    case HasCloudFoundryManifest => push.hasCloudFoundryManifest
    case ToPublicRepo => push.toPublicRepo
    case NamedSeedRepo => push.namedSeedRepo
    case FromAtomist => push.fromAtomist
    case IsDeployEnabled => push.isDeployEnabled
    case HasDockerfile => push.hasDockerfile
    case HasAtomistBuildFile => push.hasAtomistBuildFile
    case FileExists(path) => path in push.files
    case IsDeploymentFrozen => push.deploymentFrozen
  }

  /**
   * A push predicate: `whenPushSatisfies(p1, ..., pn)` and `build.when(...)` are `All`,
   * `any(...)` is `Any`, `not(p)` is `Not`; `onAnyPush` and `AnyPush` are `All([])`.
   */
  datatype Pred =
    | Leaf(test: PushTest)
    | All(conjuncts: seq<Pred>)
    | Any(disjuncts: seq<Pred>)
    | Not(negated: Pred)

  /** The predicate that holds of every push (`onAnyPush`, `AnyPush`). */
  const AnyPush: Pred := All([])

  /** `hasFile(path)`: the pushed project contains a file at exactly `path`. */
  function HasFile(path: string): Pred
  {
    Leaf(FileExists(path))
  }

  function Eval(p: Pred, push: Push): bool
    decreases p, 1, 0
  {
    match p
    case Leaf(t) => Test(t, push)
    case All(ps) => AllFrom(ps, 0, push)
    case Any(ps) => AnyFrom(ps, 0, push)
    case Not(q) => !Eval(q, push)
  }

  /** Left-to-right conjunction from index `k`, stopping at the first false conjunct. */
  function AllFrom(ps: seq<Pred>, k: nat, push: Push): bool
    decreases ps, 0, |ps| - k
  {
    k >= |ps| || (Eval(ps[k], push) && AllFrom(ps, k + 1, push))
  }

  /** Left-to-right disjunction from index `k`, stopping at the first true disjunct. */
  function AnyFrom(ps: seq<Pred>, k: nat, push: Push): bool
    decreases ps, 0, |ps| - k
  {
    k < |ps| && (Eval(ps[k], push) || AnyFrom(ps, k + 1, push))
  }

  lemma {:induction false} AllFromMeaning(ps: seq<Pred>, k: nat, push: Push)
    decreases |ps| - k
    ensures AllFrom(ps, k, push) <==> forall i :: k <= i < |ps| ==> Eval(ps[i], push)
  {
    if k < |ps| {
      AllFromMeaning(ps, k + 1, push);
    }
  }

  lemma {:induction false} AnyFromMeaning(ps: seq<Pred>, k: nat, push: Push)
    decreases |ps| - k
    ensures AnyFrom(ps, k, push) <==> exists i :: k <= i < |ps| && Eval(ps[i], push)
  {
    if k < |ps| {
      AnyFromMeaning(ps, k + 1, push);
    }
  }

  /** The short-circuit walk of `whenPushSatisfies` holds exactly when every conjunct holds. */
  lemma AllMeaning(ps: seq<Pred>, push: Push)
    ensures Eval(All(ps), push) <==> forall i :: 0 <= i < |ps| ==> Eval(ps[i], push)
  {
    AllFromMeaning(ps, 0, push);
  }

  /** The short-circuit walk of `any` holds exactly when some disjunct holds. */
  lemma AnyMeaning(ps: seq<Pred>, push: Push)
    ensures Eval(Any(ps), push) <==> exists i :: 0 <= i < |ps| && Eval(ps[i], push)
  {
    AnyFromMeaning(ps, 0, push);
  }

  /** `onAnyPush` / `AnyPush` matches every push; the empty `any` matches none. */
  lemma Identities(push: Push)
    ensures Eval(AnyPush, push)
    ensures !Eval(Any([]), push)
  {
  }
}

/**
  The admission webhook of upgrade plans: what a plan may say, and which plans may exist beside each
  other. Version precedence (section 11 of Semantic Versioning 2.0.0) is a parameter.
*/
module Admission {
  import opened Upgrade
  import UpgradeSafety
  import UpgradeTheorems
  import Runs

  /** Validity, and a comparison whose sign orders valid versions. */
  datatype Semver = Semver(valid: Version -> bool, compare: (Version, Version) -> int)

  predicate Mirrored(v: Semver, a: Version, b: Version) {
    v.valid(a) && v.valid(b) ==> (v.compare(a, b) < 0 <==> v.compare(b, a) > 0)
  }

  predicate Chained(v: Semver, a: Version, b: Version, c: Version) {
    v.valid(a) && v.valid(b) && v.valid(c) && v.compare(a, b) >= 0 && v.compare(b, c) >= 0 ==>
      v.compare(a, c) >= 0 && (v.compare(a, b) > 0 || v.compare(b, c) > 0 ==> v.compare(a, c) > 0)
  }

  /** Precedence is a total preorder on the valid versions, and the empty string is not one. */
  ghost predicate Lawful(v: Semver) {
    && !v.valid("")
    && (forall a :: v.compare(a, a) == 0)
    && (forall a, b :: Mirrored(v, a, b))
    && (forall a, b, c :: Chained(v, a, b, c))
  }

  datatype Spec = Spec(clusterName: string, toVersion: Version, steps: seq<Version>)

  datatype Problem =
    | ClusterNameMissing
    | TargetInvalid
    | StepInvalid(index: int)
    | StepNotAbove(index: int)
    | LastStepDiffers

  /** Every two steps, not only neighbours, are strictly increasing. */
  predicate Increasing(v: Semver, steps: seq<Version>) {
    forall i, j | 0 <= i < j < |steps| :: v.compare(steps[j], steps[i]) > 0
  }

  predicate Acceptable(v: Semver, spec: Spec) {
    && spec.clusterName != "" && v.valid(spec.toVersion)
    && (forall i | 0 <= i < |spec.steps| :: v.valid(spec.steps[i]))
    && Increasing(v, spec.steps)
    && (spec.steps != [] ==> v.compare(spec.steps[|spec.steps| - 1], spec.toVersion) == 0)
  }

  /** The latest valid step among the first n, or "". */
  function LatestValid(v: Semver, steps: seq<Version>, n: nat): Version
    requires n <= |steps|
  {
    if n == 0 then "" else if v.valid(steps[n - 1]) then steps[n - 1] else LatestValid(v, steps, n - 1)
  }

  /** Step i is valid but not above the latest valid step before it. */
  predicate NotAbove(v: Semver, steps: seq<Version>, i: int) {
    && 0 <= i < |steps| && v.valid(steps[i])
    && LatestValid(v, steps, i) != "" && v.compare(steps[i], LatestValid(v, steps, i)) <= 0
  }

  /** What is wrong with one of the first n steps. */
  predicate StepProblem(v: Semver, steps: seq<Version>, n: int, p: Problem) {
    || (p.StepInvalid? && 0 <= p.index < n <= |steps| && !v.valid(steps[p.index]))
    || (p.StepNotAbove? && p.index < n && NotAbove(v, steps, p.index))
  }

  /** The loop over the steps: it reports each invalid step, and each valid one not above the valid one before it. */
  method CheckSteps(v: Semver, steps: seq<Version>) returns (errs: seq<Problem>)
    ensures forall p :: p in errs <==> StepProblem(v, steps, |steps|, p)
  {
    errs := [];
    var previous := "";
    for i := 0 to |steps|
      invariant previous == LatestValid(v, steps, i)
      invariant forall p :: p in errs <==> StepProblem(v, steps, i, p)
    {
      if !v.valid(steps[i]) {
        errs := errs + [StepInvalid(i)];
        continue;
      }
      if previous != "" && v.compare(steps[i], previous) <= 0 {
        errs := errs + [StepNotAbove(i)];
      }
      previous := steps[i];
    }
  }

  /** The error-collecting validator accepts exactly the acceptable plans, and each error names what is wrong. */
  method Validate(v: Semver, spec: Spec) returns (errs: seq<Problem>)
    requires Lawful(v)
    ensures errs == [] <==> Acceptable(v, spec)
    ensures ClusterNameMissing in errs <==> spec.clusterName == ""
    ensures TargetInvalid in errs <==> !v.valid(spec.toVersion)
    ensures forall i :: StepInvalid(i) in errs <==> 0 <= i < |spec.steps| && !v.valid(spec.steps[i])
    ensures forall i :: StepNotAbove(i) in errs <==> NotAbove(v, spec.steps, i)
  {
    errs := [];
    if spec.clusterName == "" { errs := errs + [ClusterNameMissing]; }
    if !v.valid(spec.toVersion) { errs := errs + [TargetInvalid]; }
    var stepErrs := CheckSteps(v, spec.steps);
    StepsVerdict(v, spec.steps, stepErrs);
    errs := errs + stepErrs;
    if |spec.steps| > 0 && |errs| == 0 && v.compare(spec.steps[|spec.steps| - 1], spec.toVersion) != 0 {
      errs := errs + [LastStepDiffers];
    }
  }

  /** No step is reported exactly when all are valid and increasing. */
  lemma StepsVerdict(v: Semver, steps: seq<Version>, errs: seq<Problem>)
    requires Lawful(v) && forall p :: p in errs <==> StepProblem(v, steps, |steps|, p)
    ensures errs == [] <==> (forall i | 0 <= i < |steps| :: v.valid(steps[i])) && Increasing(v, steps)
  {
    if errs == [] {
      forall i | 0 <= i < |steps| ensures v.valid(steps[i]) && !NotAbove(v, steps, i) {
        assert StepInvalid(i) !in errs && StepNotAbove(i) !in errs;
      }
      NoErrorsMeansIncreasing(v, steps);
    } else {
      assert errs[0] in errs;
      ErrorMeansUnacceptable(v, steps, errs[0].index);
    }
  }

  lemma LatestValidBefore(v: Semver, steps: seq<Version>, n: nat)
    requires 0 < n <= |steps| && v.valid(steps[n - 1])
    ensures LatestValid(v, steps, n) == steps[n - 1]
  {
  }

  lemma {:induction false} NoErrorsMeansIncreasing(v: Semver, steps: seq<Version>)
    requires Lawful(v)
    requires forall i | 0 <= i < |steps| :: v.valid(steps[i]) && !NotAbove(v, steps, i)
    ensures Increasing(v, steps)
  {
    forall i, j | 0 <= i < j < |steps| ensures v.compare(steps[j], steps[i]) > 0 {
      NoErrorsMeansAbove(v, steps, i, j);
    }
  }

  lemma {:induction false} NoErrorsMeansAbove(v: Semver, steps: seq<Version>, i: int, j: int)
    requires Lawful(v) && 0 <= i < j < |steps|
    requires forall k | 0 <= k < |steps| :: v.valid(steps[k]) && !NotAbove(v, steps, k)
    ensures v.compare(steps[j], steps[i]) > 0
    decreases j
  {
    LatestValidBefore(v, steps, j);
    assert !NotAbove(v, steps, j);
    if i < j - 1 {
      NoErrorsMeansAbove(v, steps, i, j - 1);
      assert Chained(v, steps[j], steps[j - 1], steps[i]);
    }
  }

  lemma ErrorMeansUnacceptable(v: Semver, steps: seq<Version>, i: int)
    requires 0 <= i < |steps| && (!v.valid(steps[i]) || NotAbove(v, steps, i))
    ensures !((forall k | 0 <= k < |steps| :: v.valid(steps[k])) && Increasing(v, steps))
  {
    if forall k | 0 <= k < |steps| :: v.valid(steps[k]) {
      LatestValidBefore(v, steps, i);
    }
  }

  // ---------------------------------------------------------------- what the upgrade protocol gets from it

  function LessOf(v: Semver): (Version, Version) -> bool {
    (a, b) => v.valid(a) && v.valid(b) && v.compare(a, b) < 0
  }

  /** Lawful precedence is the weak order that the guarantees of an upgrade speak of. */
  lemma PrecedenceIsWeakOrder(v: Semver)
    requires Lawful(v)
    ensures UpgradeTheorems.WeakOrder(LessOf(v), v.valid)
  {
    var less := LessOf(v);
    forall a, b, c | less(a, b) && less(b, c) ensures less(a, c) {
      assert Mirrored(v, a, b) && Mirrored(v, b, c) && Chained(v, c, b, a) && Mirrored(v, a, c);
    }
    forall a, b, c | less(a, c) && v.valid(b) ensures less(a, b) || less(b, c) {
      assert Chained(v, a, b, c);
    }
  }

  /** An accepted plan has the distinct, non-empty, rising steps that the guarantees of an upgrade start from. */
  lemma AcceptedStepsAreDistinctAndRise(v: Semver, spec: Spec)
    requires Lawful(v) && Acceptable(v, spec)
    ensures var plan := PlanSpec(spec.toVersion, spec.steps, LessOf(v));
      && UpgradeSafety.Distinct(Resolved(plan)) && UpgradeSafety.NonEmpty(Resolved(plan))
      && UpgradeTheorems.Accepted(plan, v.valid)
  {
    var plan := PlanSpec(spec.toVersion, spec.steps, LessOf(v));
    PrecedenceIsWeakOrder(v);
    forall i | 0 < i < |Resolved(plan)| ensures plan.less(Resolved(plan)[i - 1], Resolved(plan)[i]) {
      assert Mirrored(v, spec.steps[i - 1], spec.steps[i]);
    }
  }

  // ---------------------------------------------------------------- one active plan per Cluster

  datatype Plan = Plan(spec: Spec, phase: Phase)

  type Plans = map<Name, Plan>

  predicate Active(p: Plan, cluster: string) {
    p.spec.clusterName == cluster && !p.phase.Terminal()
  }

  predicate NoOther(plans: Plans, name: Name, cluster: string) {
    forall n | n in plans && n != name :: !Active(plans[n], cluster)
  }

  /** The scan over the listed plans. */
  method ScanForOther(plans: Plans, items: seq<Name>, name: Name, cluster: string) returns (ok: bool)
    requires cluster != "" && forall n :: n in items <==> n in plans
    ensures ok <==> NoOther(plans, name, cluster)
  {
    for i := 0 to |items|
      invariant forall j | 0 <= j < i :: items[j] != name ==> !Active(plans[items[j]], cluster)
    {
      var other := plans[items[i]];
      if items[i] == name || other.spec.clusterName != cluster { continue; }
      if other.phase.Terminal() { continue; }
      assert items[i] in plans;
      return false;
    }
    return true;
  }

  /** Requests and controller steps, each seeing the plans that exist. */
  datatype Request =
    | Create(name: Name, spec: Spec, clusterExists: bool)
    | Update(name: Name, spec: Spec)
    | Advance(name: Name, phase: Phase)
    | Delete(name: Name)

  function Admit(v: Semver, plans: Plans, request: Request): Plans {
    match request
    case Create(name, spec, clusterExists) =>
      if name !in plans && Acceptable(v, spec) && clusterExists && NoOther(plans, name, spec.clusterName)
      then plans[name := Plan.Plan(spec, Pending)] else plans
    case Update(name, spec) =>
      if name in plans && Acceptable(v, spec) && spec == plans[name].spec && NoOther(plans, name, spec.clusterName)
      then plans[name := plans[name].(spec := spec)] else plans
    case Advance(name, phase) =>
      if name in plans && !plans[name].phase.Terminal() then plans[name := plans[name].(phase := phase)] else plans
    case Delete(name) => plans - {name}
  }

  /**
    A Create passes exactly with an acceptable spec, an existing Cluster and no other active plan for it. Under a new
    name the plan then exists, not yet started, beside all others; otherwise nothing changes.
  */
  method ValidateCreate(v: Semver, plans: Plans, items: seq<Name>, name: Name, spec: Spec, clusterExists: bool)
    returns (ok: bool)
    requires Lawful(v) && forall n :: n in items <==> n in plans
    ensures ok <==> Acceptable(v, spec) && clusterExists && NoOther(plans, name, spec.clusterName)
    ensures ok && name !in plans <==> Admit(v, plans, Create(name, spec, clusterExists)) != plans
    ensures ok && name !in plans ==>
      Admit(v, plans, Create(name, spec, clusterExists)) == plans[name := Plan.Plan(spec, Pending)]
  {
    var errs := Validate(v, spec);
    if errs != [] || !clusterExists { return false; }
    ok := ScanForOther(plans, items, name, spec.clusterName);
  }

  /** An Update passes exactly when it leaves the spec alone, and that is still acceptable and the only active one. */
  method ValidateUpdate(v: Semver, plans: Plans, items: seq<Name>, name: Name, spec: Spec) returns (ok: bool)
    requires Lawful(v) && name in plans && forall n :: n in items <==> n in plans
    ensures ok <==> spec == plans[name].spec && Acceptable(v, spec) && NoOther(plans, name, spec.clusterName)
  {
    var errs := Validate(v, spec);
    if errs != [] { return false; }
    var was := plans[name].spec;
    if was.clusterName != spec.clusterName || was.toVersion != spec.toVersion || was.steps != spec.steps {
      return false;
    }
    ok := ScanForOther(plans, items, name, spec.clusterName);
  }

  /**
    What this means for an update that leaves the spec of a stored plan alone: it passes exactly if the plan is
    active itself, or no plan is active for its Cluster. A finished plan beside a running one cannot be updated.
  */
  lemma UpdatePassesExactly(v: Semver, plans: Plans, name: Name)
    requires OneActive(plans) && AllAcceptable(v, plans) && name in plans
    ensures var cluster := plans[name].spec.clusterName;
      Acceptable(v, plans[name].spec) && NoOther(plans, name, cluster)
      <==> !plans[name].phase.Terminal() || forall n | n in plans :: !Active(plans[n], cluster)
  {
    if !plans[name].phase.Terminal() {
      assert forall n | n in plans && n != name :: !Active(plans[n], plans[name].spec.clusterName);
    }
  }

  /** No two plans are upgrading one Cluster. */
  ghost predicate OneActive(plans: Plans) {
    forall n, m | n in plans && m in plans && n != m && !plans[n].phase.Terminal() && !plans[m].phase.Terminal() ::
      plans[n].spec.clusterName != plans[m].spec.clusterName
  }

  ghost predicate AllAcceptable(v: Semver, plans: Plans) {
    forall n | n in plans :: Acceptable(v, plans[n].spec)
  }

  /** A plan that still exists says what it said, and a finished one stays finished as it was. */
  ghost predicate Immutable(before: Plans, after: Plans, name: Name) {
    name in before && name in after ==>
      after[name].spec == before[name].spec && (before[name].phase.Terminal() ==> after[name] == before[name])
  }

  /**
    Any run of admissions, controller steps and deletions keeps at most one active plan per Cluster, and every
    plan acceptable.
  */
  lemma OneActivePlanPerCluster(v: Semver, plans: Plans, requests: seq<Request>)
    requires OneActive(plans) && AllAcceptable(v, plans)
    ensures var end := Runs.Exec((p, r) => Admit(v, p, r), plans, requests);
      OneActive(end) && AllAcceptable(v, end)
  {
    var next := (p, r) => Admit(v, p, r);
    forall p: Plans, r: Request | OneActive(p) && AllAcceptable(v, p)
      ensures OneActive(next(p, r)) && AllAcceptable(v, next(p, r))
    {
    }
    Runs.InvariantHolds(next, p => OneActive(p) && AllAcceptable(v, p), plans, requests);
  }

  lemma {:induction false} PlansAreImmutable(v: Semver, plans: Plans, requests: seq<Request>, name: Name)
    requires forall r | r in requests :: !(r.Delete? && r.name == name)
    requires name in plans
    ensures var end := Runs.Exec((p, r) => Admit(v, p, r), plans, requests);
      name in end && Immutable(plans, end, name)
    decreases |requests|
  {
    if requests != [] {
      var next := Admit(v, plans, requests[0]);
      assert requests[0] in requests;
      PlansAreImmutable(v, next, requests[1..], name);
    }
  }
}

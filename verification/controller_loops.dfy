/** The loops inside the two controllers, against what the transition systems say they do in one step. */
module ControllerLoops {
  import opened Common
  import opened Names
  import opened Upgrade
  import CP = ControlPlane

  /** The running maximum over the listed Machines: none, or a drifted one of the highest index. */
  method SelectDrifted(naming: Naming, machines: map<Name, CP.Machine>, listed: seq<Name>, cp: CP.CpObject)
    returns (r: Option<Name>)
    requires forall n :: n in listed <==> n in machines
    ensures r.None? <==> CP.Candidates(naming, machines, cp) == {}
    ensures r.Some? ==> CP.HighestDrifted(naming, machines, cp, r.value)
  {
    r := None;
    var highest := 0;
    for i := 0 to |listed|
      invariant r.None? <==> forall j | 0 <= j < i :: listed[j] !in CP.Candidates(naming, machines, cp)
      invariant r.Some? ==> r.value in CP.Candidates(naming, machines, cp) && highest == CP.Index(naming, r.value)
      invariant r.Some? ==> forall j | 0 <= j < i && listed[j] in CP.Candidates(naming, machines, cp) ::
                              CP.Index(naming, listed[j]) <= highest
    {
      if !CP.Drifted(machines[listed[i]], cp.version) { continue; }
      var index := naming.index(listed[i]);
      if index.None? || index.value >= cp.Desired() { continue; }
      if r.None? || index.value > highest {
        r, highest := Some(listed[i]), index.value;
      }
    }
  }

  /**
    Where reconcileVersionDrift sends the reconcile is where the transition system's choice does, with what
    the loop found.
  */
  method ReconcileVersionDrift(w: CP.World, listed: seq<Name>, cp: CP.CpObject) returns (pc: CP.Pc, pick: Name)
    requires forall n :: n in listed <==> n in w.machines
    ensures CP.Choose(w, cp, pick).pc == pc
    ensures cp.version == "" ==> pc == CP.Creating(cp, 0)
    ensures cp.version != "" && CP.Candidates(w.naming, w.machines, cp) != {} ==>
      CP.HighestDrifted(w.naming, w.machines, cp, pick) && (pc.DeletingMachine? || pc.Capturing?) && pc.name == pick
  {
    if cp.version == "" { return CP.Creating(cp, 0), ""; }
    var drifted := SelectDrifted(w.naming, w.machines, listed, cp);
    if drifted.Some? {
      pick := drifted.value;
      pc := if CP.Matches(cp.replacement, pick, cp.version) then CP.DeletingMachine(cp, pick)
        else CP.Capturing(cp, pick);
    } else {
      pick := "";
      pc := if cp.replacement.Some? then CP.Checking(cp) else CP.Creating(cp, 0);
    }
  }

  /** MarkStep changes the first status that carries the version, and nothing if none does. */
  lemma {:induction false} MarkStepFirst(steps: seq<StepStatus>, version: Version, phase: Phase, k: nat)
    requires k <= |steps| && forall j | 0 <= j < k :: steps[j].version != version
    requires k < |steps| ==> steps[k].version == version
    ensures MarkStep(steps, version, phase) == if k < |steps| then steps[k := steps[k].(phase := phase)] else steps
    decreases k
  {
    if k > 0 {
      MarkStepFirst(steps[1..], version, phase, k - 1);
    }
  }

  /** Marks a step's phase in place. */
  method MarkStepPhase(steps: array<StepStatus>, version: Version, phase: Phase)
    modifies steps
    ensures steps[..] == MarkStep(old(steps[..]), version, phase)
  {
    ghost var was := steps[..];
    for i := 0 to steps.Length
      invariant steps[..] == was
      invariant forall j | 0 <= j < i :: was[j].version != version
    {
      if steps[i].version == version {
        MarkStepFirst(was, version, phase, i);
        steps[i] := steps[i].(phase := phase);
        return;
      }
    }
    MarkStepFirst(was, version, phase, steps.Length);
  }

  /** The deployment as pausing or unpausing leaves it. */
  function Set(d: Deployment, paused: bool): Deployment { d.(paused := paused) }

  /**
    Pauses or unpauses each MachineDeployment that differs, up to the first patch that is refused:
    the first `done` are as wanted, the others untouched, and no patch is sent that is not needed.
  */
  method SetMachineDeploymentsPaused(deployments: array<Deployment>, paused: bool) returns (done: nat, patches: nat)
    modifies deployments
    ensures done <= deployments.Length
    ensures forall i | 0 <= i < deployments.Length ::
              deployments[i] == if i < done then Set(old(deployments[i]), paused) else old(deployments[i])
    ensures patches == 0 <==> forall i | 0 <= i < done :: old(deployments[i]).paused == paused
    ensures done < deployments.Length ==> old(deployments[done]).paused != paused
  {
    patches, done := 0, 0;
    while done < deployments.Length
      invariant done <= deployments.Length
      invariant forall i | 0 <= i < deployments.Length ::
                  deployments[i] == if i < done then Set(old(deployments[i]), paused) else old(deployments[i])
      invariant patches == 0 <==> forall i | 0 <= i < done :: old(deployments[i]).paused == paused
    {
      if deployments[done].paused != paused {
        var refused: bool := *;
        if refused { return; }
        deployments[done] := Set(deployments[done], paused);
        patches := patches + 1;
      }
      done := done + 1;
    }
  }
}

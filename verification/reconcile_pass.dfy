/** One reconcile from its start to its end, without a crash: it ends, whatever it picks. */
module ReconcilePass {
  import opened ControlPlane
  import opened Drift
  import opened Measure
  import Runs

  /** A reconcile from `w` to its end: every capture succeeds, every loop picks what it likes. */
  ghost predicate Pass(w: World, moves: seq<Move>, end: World)
    decreases |moves|
  {
    if moves == [] then w.pc.Idle? && end == w
    else !w.pc.Idle? && moves[0].Go? && moves[0].data != "" && Pass(Next(w, moves[0]), moves[1..], end)
  }

  // ---------------------------------------------------------------- every reconcile ends

  /** How far a reconcile is from its end: where it stands, then how much of its loop is left. */
  function Phase(pc: Pc): nat {
    match pc
    case Idle => 0
    case ScalingDown(_, _) => 1
    case Creating(_, _) => 2
    case CreatingConfig(_, _) => 2
    case CreatingMachine(_, _) => 2
    case EnsuringInfra(_, _, _) => 2
    case DeletingInfra(_, _) => 3
    case Recording(_, _) => 3
    case Clearing(_) => 3
    case DeletingConfig(_, _) => 4
    case Writing(_, _, _) => 4
    case Checking(_) => 4
    case DeletingMachine(_, _) => 5
    case Capturing(_, _) => 5
    case Choosing(_) => 6
  }

  function Left(pc: Pc): nat {
    match pc
    case ScalingDown(_, todo) => |todo|
    case Creating(cp, i) => if i < cp.Desired() then 4 * (cp.Desired() - i) + 3 else 0
    case CreatingConfig(cp, i) => if i < cp.Desired() then 4 * (cp.Desired() - i) + 2 else 0
    case CreatingMachine(cp, i) => if i < cp.Desired() then 4 * (cp.Desired() - i) + 1 else 0
    case EnsuringInfra(cp, i, _) => if i < cp.Desired() then 4 * (cp.Desired() - i) else 0
    case _ => 0
  }

  predicate InRange(pc: Pc) {
    pc.CreatingConfig? || pc.CreatingMachine? || pc.EnsuringInfra? ==> pc.index < pc.cp.Desired()
  }

  predicate Closer(pc: Pc, pc': Pc) {
    InRange(pc') && (Phase(pc') < Phase(pc) || (Phase(pc') == Phase(pc) && Left(pc') < Left(pc)))
  }

  /** A pick the loops of the source make: the running maximum over the drifted, and the next listed Machine. */
  predicate ValidPick(w: World, pick: Name) {
    && (w.pc.Choosing? && Candidates(w.naming, w.machines, w.pc.cp) != {} ==>
          HighestDrifted(w.naming, w.machines, w.pc.cp, pick))
    && (w.pc.ScalingDown? && w.pc.todo != {} ==> pick in w.pc.todo)
  }

  lemma ChoiceCloser(w: World, pick: Name)
    requires w.pc.Choosing? && ValidPick(w, pick)
    ensures Closer(w.pc, Choose(w, w.pc.cp, pick).pc)
  {
  }

  lemma DriftStepsCloser(w: World, data: string)
    ensures w.pc.Capturing? ==> Closer(w.pc, Capture(w, w.pc.cp, w.pc.name, data).pc)
    ensures w.pc.Writing? ==> Closer(w.pc, WriteFile(w, w.pc.cp, w.pc.name, w.pc.snapshot).pc)
    ensures w.pc.Recording? ==> Closer(w.pc, RecordReplacement(w, w.pc.cp, w.pc.name).pc)
    ensures w.pc.DeletingMachine? ==> Closer(w.pc, DeleteMachine(w, w.pc.cp, w.pc.name).pc)
    ensures w.pc.DeletingConfig? ==> Closer(w.pc, DeleteConfig(w, w.pc.cp, w.pc.name).pc)
    ensures w.pc.DeletingInfra? ==> Closer(w.pc, DeleteInfra(w, w.pc.cp, w.pc.name).pc)
  {
  }

  lemma InspectionCloser(w: World)
    ensures w.pc.Checking? ==> Closer(w.pc, Check(w, w.pc.cp).pc)
    ensures w.pc.Clearing? ==> Closer(w.pc, ClearReplacement(w, w.pc.cp).pc)
  {
  }

  lemma LoopHeadCloser(w: World)
    requires w.pc.Creating?
    ensures Closer(w.pc, CreateNext(w, w.pc.cp, w.pc.index).pc)
  {
  }

  lemma LoopBodyCloser(w: World)
    requires InRange(w.pc)
    ensures w.pc.CreatingConfig? ==> Closer(w.pc, CreateConfig(w, w.pc.cp, w.pc.index).pc)
    ensures w.pc.CreatingMachine? ==> Closer(w.pc, CreateMachine(w, w.pc.cp, w.pc.index).pc)
    ensures w.pc.EnsuringInfra? ==> Closer(w.pc, EnsureInfra(w, w.pc.cp, w.pc.index, w.pc.uid).pc)
  {
  }

  /** With a pick that the source's loops make, every step brings the reconcile closer to its end. */
  lemma StepCloser(w: World, pick: Name, data: string)
    requires !w.pc.Idle? && InRange(w.pc) && ValidPick(w, pick)
    ensures Closer(w.pc, Advance(w, pick, data).pc)
  {
    if w.pc.Choosing? {
      ChoiceCloser(w, pick);
    } else if w.pc.ScalingDown? {
      assert ScaleDown(w, w.pc.cp, w.pc.todo, pick).pc
          == if w.pc.todo == {} then Idle else ScalingDown(w.pc.cp, w.pc.todo - {pick});
    } else {
      DriftStepsCloser(w, data);
      InspectionCloser(w);
      LoopBodyCloser(w);
      if w.pc.Creating? { LoopHeadCloser(w); }
    }
  }

  predicate Plays1(w: World, move: Move) {
    move.Go? && (!w.pc.Idle? ==> ValidPick(w, move.pick))
  }

  /** An endless list of reconcile steps, each with a pick that the source's loops make while the reconcile runs. */
  ghost predicate Plays(w: World, moves: nat -> Move) {
    forall k: nat {:trigger Runs.After(Next, w, moves, k)} :: Plays1(Runs.After(Next, w, moves, k), moves(k))
  }

  lemma PlaysRest(w: World, moves: nat -> Move)
    requires Plays(w, moves)
    ensures Plays1(w, moves(0)) && Plays(Next(w, moves(0)), Runs.Rest(moves))
  {
    assert Plays1(Runs.After(Next, w, moves, 0), moves(0));
    forall k: nat ensures Plays1(Runs.After(Next, Next(w, moves(0)), Runs.Rest(moves), k), Runs.Rest(moves)(k)) {
      Runs.AfterRest(Next, w, moves, k);
      assert Plays1(Runs.After(Next, w, moves, k + 1), moves(k + 1));
    }
  }

  /** Every reconcile that is not interrupted ends, whatever valid picks it makes and whatever it captures. */
  lemma {:induction false} EveryPassEnds(w: World, moves: nat -> Move) returns (k: nat)
    requires InRange(w.pc) && Plays(w, moves)
    ensures Runs.After(Next, w, moves, k).pc.Idle?
    decreases Phase(w.pc), Left(w.pc)
  {
    if w.pc.Idle? {
      k := 0;
    } else {
      PlaysRest(w, moves);
      var w' := Next(w, moves(0));
      StepCloser(w, moves(0).pick, moves(0).data);
      assert w' == Advance(w, moves(0).pick, moves(0).data);
      k := EveryPassEnds(w', Runs.Rest(moves));
      Runs.AfterRest(Next, w, moves, k);
      k := k + 1;
    }
  }

  /** In particular, some pass exists from every state. */
  lemma {:induction false} PassExists(w: World) returns (moves: seq<Move>, end: World)
    requires InRange(w.pc)
    ensures Pass(w, moves, end)
    decreases Phase(w.pc), Left(w.pc)
  {
    if w.pc.Idle? {
      moves, end := [], w;
    } else {
      var pick := PickExists(w);
      StepCloser(w, pick, "x");
      var rest, last := PassExists(Advance(w, pick, "x"));
      moves, end := [Go(pick, "x")] + rest, last;
      assert moves[1..] == rest;
    }
  }

  lemma PickExists(w: World) returns (pick: Name)
    ensures ValidPick(w, pick)
  {
    pick := "";
    if w.pc.Choosing? && Candidates(w.naming, w.machines, w.pc.cp) != {} {
      pick := HighestExists(w, Candidates(w.naming, w.machines, w.pc.cp));
    } else if w.pc.ScalingDown? && w.pc.todo != {} {
      pick :| pick in w.pc.todo;
    }
  }

  /** A pass is a run with a fixed spec. */
  lemma {:induction false} PassIsRun(w: World, moves: seq<Move>, end: World)
    requires Pass(w, moves, end)
    ensures Runs.Exec(NextFixed, w, moves) == end && end.pc.Idle?
    decreases |moves|
  {
    if moves != [] { PassIsRun(Next(w, moves[0]), moves[1..], end); }
  }

  // ---------------------------------------------------------------- passes that lower the measure

  /**
    A pass that starts on a heading, and in which every step stays on it or takes the measure below that of
    w0, ends below it: the heading cannot hold at the end, and the measure never rises again.
  */
  lemma {:induction false} PassFollows(w0: World, heading: World -> bool, w: World, moves: seq<Move>, end: World)
    requires Steady(w) && Pass(w, moves, end) && (heading(w) || Below(Of(w), Of(w0)))
    requires forall u :: heading(u) ==> !u.pc.Idle?
    requires forall u: World, pick: Name, data: string {:trigger Advance(u, pick, data)} ::
      Steady(u) && heading(u) && data != "" ==>
        heading(Advance(u, pick, data)) || Below(Of(Advance(u, pick, data)), Of(w0))
    ensures Below(Of(end), Of(w0))
    decreases |moves|
  {
    if moves != [] {
      var w' := Next(w, moves[0]);
      MoveFine(w, moves[0]);
      assert w' == Advance(w, moves[0].pick, moves[0].data) == NextFixed(w, moves[0]);
      if Below(Of(w), Of(w0)) { AtMostTransitive(Of(w'), Of(w), Of(w0)); }
      PassFollows(w0, heading, w', moves[1..], end);
    }
  }
}

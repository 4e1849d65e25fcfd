/**
  Where the guarantees end. Each result here is a run that breaks one of them as soon as its
  hypothesis is dropped.
*/
module Limits {
  import opened Common
  import opened Names
  import opened ControlPlane
  import opened Drift
  import Snapshots
  import Runs

  /** One Machine at version a, desired at b, with a reachable etcd. */
  function Start(naming: Naming, a: Version, b: Version): World {
    var n := naming.name(0);
    World(naming, CpObject(b, 1, None), map[n := Machine(0, a, false)], map[n := Config(None, false)],
          map[n := Infra(0, true, false)], map[], 1, Idle, map[], [], [])
  }

  function Recorded(naming: Naming, a: Version, b: Version): World {
    var n := naming.name(0);
    var path := SnapshotFile(n, b);
    Start(naming, a, b).(cp := CpObject(b, 1, Some(Replacement(n, b, path))), disk := map[path := Snapshot("etcd", 0)])
  }

  function DropAt(naming: Naming, machine: Machine, b: Version): Drop {
    var n := naming.name(0);
    Drop(n, machine, b, Some(Replacement(n, b, SnapshotFile(n, b))), Some(Snapshot("etcd", 0)))
  }

  /** The Machine deleted towards b, all three objects marked. */
  function Marked(naming: Naming, a: Version, b: Version): World {
    var n := naming.name(0);
    Recorded(naming, a, b).(
      machines := map[n := Machine(0, a, true)], configs := map[n := Config(None, true)],
        infras := map[n := Infra(0, true, true)],
      owed := map[n := 0], drops := [DropAt(naming, Machine(0, a, false), b)])
  }

  /** The objects reclaimed, and the desired version at c. */
  function Gone(naming: Naming, a: Version, b: Version, c: Version): World {
    var w := Marked(naming, a, b);
    w.(machines := map[], configs := map[], infras := map[], cp := w.cp.(version := c))
  }

  /** The successor created at c. It restores the snapshot exactly when c is the version the snapshot was taken for. */
  function Successor(naming: Naming, a: Version, b: Version, c: Version): World {
    var n := naming.name(0);
    var restore := if c == b then Some(SnapshotFile(n, b)) else None;
    Gone(naming, a, b, c).(
      machines := map[n := Machine(1, c, false)], configs := map[n := Config(restore, false)], nextUid := 2,
        owed := map[],
      births := [Birth(n, 1, c, Some(0), restore, if c == b then Some(Snapshot("etcd", 0)) else None)])
  }

  /** One more move of a run in which the spec stays fixed. */
  lemma Step(start: World, w: World, w': World, move: Move)
    requires Runs.Reaches(NextFixed, start, w) && !move.SetSpec? && w' == Next(w, move)
    ensures Runs.Reaches(NextFixed, start, w')
  {
    Runs.ReachesNext(NextFixed, start, w, move);
  }

  lemma ReachesRecorded(naming: Naming, a: Version, b: Version)
    requires RoundTrips(naming) && a != "" && b != "" && a != b
    ensures Runs.Reaches(NextFixed, Start(naming, a, b), Recorded(naming, a, b))
  {
    var n := naming.name(0);
    assert naming.index(n) == Some(0);
    var w0 := Start(naming, a, b);
    Runs.ReachesSelf<World, Move>(NextFixed, w0);
    assert Candidates(naming, w0.machines, w0.cp) == {n};
    var w1 := w0.(pc := Choosing(w0.cp));
    Step(w0, w0, w1, Go(n, ""));
    var w2 := w0.(pc := Capturing(w0.cp, n));
    Step(w0, w1, w2, Go(n, ""));
    var w3 := w0.(pc := Writing(w0.cp, n, Snapshot("etcd", 0)));
    Step(w0, w2, w3, Go(n, "etcd"));
    var w4 := w0.(disk := map[SnapshotFile(n, b) := Snapshot("etcd", 0)], pc := Recording(w0.cp, n));
    Step(w0, w3, w4, Go(n, ""));
    Step(w0, w4, Recorded(naming, a, b), Go(n, ""));
  }

  lemma ReachesMarked(naming: Naming, a: Version, b: Version)
    requires RoundTrips(naming) && a != "" && b != "" && a != b
    ensures Runs.Reaches(NextFixed, Recorded(naming, a, b), Marked(naming, a, b))
  {
    var n := naming.name(0);
    assert naming.index(n) == Some(0);
    var r := Recorded(naming, a, b);
    Runs.ReachesSelf<World, Move>(NextFixed, r);
    assert Candidates(naming, r.machines, r.cp) == {n};
    var w1 := r.(pc := Choosing(r.cp));
    Step(r, r, w1, Go(n, ""));
    var w2 := r.(pc := DeletingMachine(r.cp, n));
    Step(r, w1, w2, Go(n, ""));
    DeletionTail(naming, a, b);
    Runs.ReachesTrans<World, Move>(NextFixed, r, w2, Marked(naming, a, b));
  }

  lemma DeletionTail(naming: Naming, a: Version, b: Version)
    ensures var r := Recorded(naming, a, b);
            Runs.Reaches(NextFixed, r.(pc := DeletingMachine(r.cp, naming.name(0))), Marked(naming, a, b))
  {
    var n := naming.name(0);
    var r := Recorded(naming, a, b);
    var w2 := r.(pc := DeletingMachine(r.cp, n));
    Runs.ReachesSelf<World, Move>(NextFixed, w2);
    var w3 := r.(machines := map[n := Machine(0, a, true)], owed := map[n := 0],
                 drops := [DropAt(naming, Machine(0, a, false), b)], pc := DeletingConfig(r.cp, n));
    Step(w2, w2, w3, Go(n, ""));
    var w4 := w3.(configs := map[n := Config(None, true)], pc := DeletingInfra(r.cp, n));
    Step(w2, w3, w4, Go(n, ""));
    Step(w2, w4, Marked(naming, a, b), Go(n, ""));
  }

  lemma ReachesGone(naming: Naming, a: Version, b: Version)
    requires RoundTrips(naming) && a != "" && b != "" && a != b
    ensures Runs.Reaches(NextFixed, Start(naming, a, b), Gone(naming, a, b, b))
  {
    ReachesRecorded(naming, a, b);
    ReachesMarked(naming, a, b);
    var n := naming.name(0);
    var w0 := Start(naming, a, b);
    var w1 := Marked(naming, a, b);
    Runs.ReachesTrans<World, Move>(NextFixed, w0, Recorded(naming, a, b), w1);
    var w2 := w1.(configs := map[]);
    Step(w0, w1, w2, ReclaimConfig(n));
    var w3 := w2.(infras := map[]);
    Step(w0, w2, w3, ReclaimInfra(n));
    Step(w0, w3, Gone(naming, a, b, b), ReclaimMachine(n));
  }

  lemma ReachesSuccessor(naming: Naming, a: Version, b: Version, c: Version)
    requires RoundTrips(naming) && b != "" && c != ""
    ensures Runs.Reaches(NextFixed, Gone(naming, a, b, c), Successor(naming, a, b, c))
  {
    var n := naming.name(0);
    var g := Gone(naming, a, b, c);
    Runs.ReachesSelf<World, Move>(NextFixed, g);
    var w1 := g.(pc := Choosing(g.cp));
    Step(g, g, w1, Go(n, ""));
    var w2 := g.(pc := Checking(g.cp));
    Step(g, w1, w2, Go(n, ""));
    var w3 := g.(pc := Creating(g.cp, 0));
    Step(g, w2, w3, Go(n, ""));
    var w4 := g.(pc := CreatingConfig(g.cp, 0));
    Step(g, w3, w4, Go(n, ""));
    CreationTail(naming, a, b, c);
    var w6 := Successor(naming, a, b, c).(pc := EnsuringInfra(g.cp, 0, 1));
    Runs.ReachesTrans<World, Move>(NextFixed, g, w4, w6);
    Step(g, w6, Successor(naming, a, b, c), Crash);
  }

  lemma CreationTail(naming: Naming, a: Version, b: Version, c: Version)
    ensures var g := Gone(naming, a, b, c);
            Runs.Reaches(NextFixed, g.(pc := CreatingConfig(g.cp, 0)),
                         Successor(naming, a, b, c).(pc := EnsuringInfra(g.cp, 0, 1)))
  {
    var n := naming.name(0);
    var g := Gone(naming, a, b, c);
    var s := Successor(naming, a, b, c);
    var w4 := g.(pc := CreatingConfig(g.cp, 0));
    Runs.ReachesSelf<World, Move>(NextFixed, w4);
    var w5 := g.(configs := s.configs, pc := CreatingMachine(g.cp, 0));
    Step(w4, w4, w5, Go(n, ""));
    Step(w4, w5, s.(pc := EnsuringInfra(g.cp, 0, 1)), Go(n, ""));
  }

  /** A run with a fixed spec is a run. */
  lemma {:induction false} FixedRunsAreRuns(w: World, moves: seq<Move>)
    ensures Runs.Reaches(Next, w, Runs.Exec(NextFixed, w, moves))
    decreases |moves|
  {
    if moves == [] {
      Runs.ReachesSelf<World, Move>(Next, w);
    } else {
      var w' := NextFixed(w, moves[0]);
      FixedRunsAreRuns(w', moves[1..]);
      Runs.ReachesSelf<World, Move>(Next, w);
      if !moves[0].SetSpec? { Runs.ReachesNext(Next, w, w, moves[0]); }
      Runs.ReachesTrans<World, Move>(Next, w, w', Runs.Exec(NextFixed, w, moves));
    }
  }

  lemma Unfix(w: World, w': World)
    requires Runs.Reaches(NextFixed, w, w')
    ensures Runs.Reaches(Next, w, w')
  {
    var moves: seq<Move> :| Runs.Exec(NextFixed, w, moves) == w';
    FixedRunsAreRuns(w, moves);
  }

  /** The world after the desired version was changed to v and a reconcile got as far as deleting n. */
  function Revived(w: World, v: Version, n: Name): World {
    var cp := w.cp.(version := v);
    DeleteMachine(w.(cp := cp, pc := DeletingMachine(cp, n)), cp, n)
  }

  /**
    What changing the version back to the target of the replacement on record does, in every idle state
    where the Machine on record is the next to replace: it is deleted at once, without a new snapshot, so
    its own snapshot is on disk exactly when the recorded file happens to be from this very Machine.
  */
  lemma RevivedRecordDeletesAtOnce(w: World, v: Version)
    requires w.pc.Idle? && v != "" && Snapshots.Revives(w, v)
    requires HighestDrifted(w.naming, w.machines, w.cp.(version := v), w.cp.replacement.value.machine)
    ensures var n := w.cp.replacement.value.machine;
            var end := Revived(w, v, n);
            && Runs.Reaches(Next, w, end) && end.drops != []
            && var d := end.drops[|end.drops| - 1];
               && d.name == n && d.machine == w.machines[n]
               && (Snapshots.OwnSnapshot(d) <==>
                     Saved(w, SnapshotFile(n, v)) && w.disk[SnapshotFile(n, v)].source == w.machines[n].uid)
  {
    var n := w.cp.replacement.value.machine;
    var cp := w.cp.(version := v);
    var w1 := w.(cp := cp);
    Runs.ReachesSelf<World, Move>(Next, w);
    Runs.ReachesNext(Next, w, w, SetSpec(v, w.cp.replicas));
    assert w1 == Next(w, SetSpec(v, w.cp.replicas));
    Runs.ReachesNext(Next, w, w1, Go(n, ""));
    var w2 := w1.(pc := Choosing(cp));
    assert w2 == Next(w1, Go(n, ""));
    Runs.ReachesNext(Next, w, w2, Go(n, ""));
    var w3 := w1.(pc := DeletingMachine(cp, n));
    assert w3 == Next(w2, Go(n, ""));
    Runs.ReachesNext(Next, w, w3, Go(n, ""));
  }

  /**
    The guard of Snapshots.DeletedMachineWasSnapshotted is needed: moved from b to c while the Machine is
    gone, and back to b before the stale record is cleared, the reconciler deletes the new Machine
    although the snapshot on disk is its predecessor's.
  */
  lemma VersionDesiredTwiceDeletesUnsnapshotted(naming: Naming, a: Version, b: Version, c: Version)
    requires RoundTrips(naming) && a != "" && b != "" && c != "" && a != b && c != b
    ensures exists w ::
              Runs.Reaches(Next, Start(naming, a, b), w) && exists d :: d in w.drops && !Snapshots.OwnSnapshot(d)
  {
    var n := naming.name(0);
    assert naming.index(n) == Some(0);
    var w0 := Start(naming, a, b);
    ReachesGone(naming, a, b);
    Unfix(w0, Gone(naming, a, b, b));
    Runs.ReachesNext(Next, w0, Gone(naming, a, b, b), SetSpec(c, 1));
    assert Next(Gone(naming, a, b, b), SetSpec(c, 1)) == Gone(naming, a, b, c);
    ReachesSuccessor(naming, a, b, c);
    Unfix(Gone(naming, a, b, c), Successor(naming, a, b, c));
    var s := Successor(naming, a, b, c);
    Runs.ReachesTrans<World, Move>(Next, w0, Gone(naming, a, b, c), s);
    assert Candidates(naming, s.machines, s.cp.(version := b)) == {n};
    RevivedRecordDeletesAtOnce(s, b);
    var end := Revived(s, b, n);
    Runs.ReachesTrans<World, Move>(Next, w0, s, end);
    assert end.drops[|end.drops| - 1] in end.drops;
  }
}

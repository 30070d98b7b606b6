/**
  What holds of every run of the step loop, stated over finite action sequences
  from the empty database: crashes, duplicate deliveries and redeliveries are
  actions like any other.
 */
module RunTheorems {
  import opened RunTables
  import opened RunMachine
  import opened RunEvolution
  import opened RunTally
  import RunOrphans
  import RunWaits
  import RunHistory
  import RunDeadlines

  /** No orphaned run. */
  lemma NoOrphanedRun(c: Config, acts: seq<Action>, r: RunId)
    requires r in Exec(c, acts).db.runs
    ensures var db := Exec(c, acts).db;
            var n := |db.runs[r].steps|;
            && (forall i :: 0 <= i < n ==> db.runs[r].steps[i] == i)
            && (db.runs[r].state.Active() ==>
                  exists j :: j in db.live && j < |db.jobs| && db.jobs[j].run == r && db.jobs[j].step == n)
            && (db.runs[r].state.Awaiting? || db.runs[r].state.Completed? ==>
                  forall j :: j in db.live && j < |db.jobs| && db.jobs[j].run == r ==> db.jobs[j].step < n)
  {
    var db := Exec(c, acts).db;
    RunOrphans.ExecInv(c, acts);
    assert RunOrphans.RunOk(db, r);
    if db.runs[r].state.Active() {
      var j :| RunOrphans.Drives(db, j, r);
    }
    forall j | 0 <= j < |db.jobs| && db.jobs[j].run == r ensures RunOrphans.JobOk(db, db.jobs[j]) {
    }
  }

  /** Terminal safety: cancelled is final, failed ends as failed or cancelled. */
  lemma TerminalSafety(c: Config, acts: seq<Action>, i: nat, r: RunId)
    requires i <= |acts| && r in Exec(c, acts[..i]).db.runs
    ensures var before, after := Exec(c, acts[..i]).db.runs[r].state, Exec(c, acts).db.runs;
            && r in after
            && (before.Cancelled? ==> after[r].state.Cancelled?)
            && (before.Failed? ==> after[r].state.Failed? || after[r].state.Cancelled?)
  {
    ExecEvolves(c, acts, i);
    assert RunEvolves(Exec(c, acts[..i]).db.runs[r], Exec(c, acts).db.runs[r]);
  }

  /** No terminal run holds an open wait, and nobody holds two. */
  lemma OpenWaitsAreHeld(c: Config, acts: seq<Action>, v: WaitId, w: WaitId)
    requires RunWaits.IsOpen(Exec(c, acts).db, v) && RunWaits.IsOpen(Exec(c, acts).db, w)
    ensures !IsTerminal(Exec(c, acts).db, v.parent) && (v.parent == w.parent ==> v == w)
  {
    RunWaits.ExecInv(c, acts);
  }

  /** A wait leaves open at most once, and its closed state never changes. */
  lemma ClosedOnce(c: Config, acts: seq<Action>, i: nat, w: WaitId)
    requires i <= |acts| && w in Exec(c, acts[..i]).db.waits && !Exec(c, acts[..i]).db.waits[w].state.Open?
    ensures w in Exec(c, acts).db.waits
    ensures Exec(c, acts).db.waits[w].state == Exec(c, acts[..i]).db.waits[w].state
  {
    ExecEvolves(c, acts, i);
    assert WaitEvolves(Exec(c, acts[..i]).db.waits[w], Exec(c, acts).db.waits[w]);
  }

  /** Over a whole run a wait injects at most one tool result and at most one job, always both. */
  lemma ResumedOnce(c: Config, acts: seq<Action>)
    ensures Distinct(RunWaits.ByWaits(Exec(c, acts).db.jobs))
    ensures RunWaits.ByWaits(Exec(c, acts).db.jobs) == RunWaits.Results(Exec(c, acts).db.log)
  {
    RunWaits.ExecInv(c, acts);
  }

  /** No outcome is injected into a parent that is terminal at that moment. */
  lemma ResumedParentWasLive(c: Config, acts: seq<Action>, a: Action, w: WaitId)
    requires w in RunWaits.ByWaits(Next(c, Exec(c, acts), a).db.jobs)
    requires w !in RunWaits.ByWaits(Exec(c, acts).db.jobs)
    ensures w.parent in Exec(c, acts).db.runs && !IsTerminal(Exec(c, acts).db, w.parent)
  {
    RunWaits.ExecInv(c, acts);
    RunWaits.NextGood(c, Exec(c, acts), a);
  }

  /**
    No lost wake-up: an open wait has a member that is not terminal, unless one
    of its members was cancelled by a handler, which settles no membership.
   */
  lemma NoLostWakeUp(c: Config, acts: seq<Action>, w: WaitId)
    requires RunWaits.IsOpen(Exec(c, acts).db, w)
    ensures RunWaits.Hopeful(Exec(c, acts).db, w)
  {
    RunWaits.ExecInv(c, acts);
  }

  /** A row closed as resolved reports every member, in order, in a terminal state. */
  lemma ResolvedRowIsComplete(c: Config, acts: seq<Action>, w: WaitId, i: nat)
    requires w in Exec(c, acts).db.waits && Exec(c, acts).db.waits[w].state.Resolved?
    requires i < |Exec(c, acts).db.waits[w].members|
    ensures var wait := Exec(c, acts).db.waits[w];
            && wait.result.Some?
            && var o := wait.result.value;
               && o.pending == 0 && o.completed + o.failed + o.cancelled == |wait.members| == |o.members|
               && o.members[i].ordinal == i && o.members[i].run == wait.members[i] && o.members[i].state.Terminal()
  {
    RunWaits.ExecInv(c, acts);
    var wait := Exec(c, acts).db.waits[w];
    assert RunWaits.RowOk(Exec(c, acts).db, w, wait);
    CompleteTally(wait.result.value, wait.members, i);
  }

  /** The counters of a timed-out row and its pending members add up to its members. */
  lemma TimedOutRowAddsUp(c: Config, acts: seq<Action>, w: WaitId)
    requires w in Exec(c, acts).db.waits && Exec(c, acts).db.waits[w].state.TimedOut?
    ensures var wait := Exec(c, acts).db.waits[w];
            && (wait.resumed <==> wait.result.Some?)
            && (wait.result.Some? ==>
                  var o := wait.result.value;
                  o.completed + o.failed + o.cancelled + o.pending == |wait.members|)
  {
    RunWaits.ExecInv(c, acts);
    assert RunWaits.RowOk(Exec(c, acts).db, w, Exec(c, acts).db.waits[w]);
  }

  /** Armed deadline: an open wait no sweep ever skipped has a live sweep at or after its deadline. */
  lemma DeadlineArmed(c: Config, acts: seq<Action>, w: WaitId)
    requires c.Valid() && RunWaits.IsOpen(Exec(c, acts).db, w) && w !in Exec(c, acts).skipped
    ensures var db := Exec(c, acts).db;
            exists j :: j in db.liveSweeps && j < |db.sweeps| && db.waits[w].deadline <= db.sweeps[j]
  {
    var s := Exec(c, acts);
    RunDeadlines.ExecInv(c, acts);
    assert RunDeadlines.Guarded(s, w);
    var j :| RunDeadlines.Covers(s.db, j, s.db.waits[w].deadline);
  }

  /**
    History is append-only: for a run never answered past an unresumed wait it
    is the replay of its log, and holds one turn per committed step, in order.
   */
  lemma HistoryIsReplay(c: Config, acts: seq<Action>, r: RunId)
    requires r in Exec(c, acts).db.runs && RunHistory.Clean(Exec(c, acts).db.log, r)
    ensures var db := Exec(c, acts).db;
            && db.runs[r].history == RunHistory.Replay(db.log, r)
            && |RunHistory.TurnSteps(db.runs[r].history)| == |db.runs[r].steps|
            && forall i :: 0 <= i < |db.runs[r].steps| ==> RunHistory.TurnSteps(db.runs[r].history)[i] == i
  {
    var db := Exec(c, acts).db;
    RunHistory.ExecInv(c, acts);
    NoOrphanedRun(c, acts, r);
    assert RunHistory.Told(db, r);
  }

  /**
    Exactly when a commit loses messages.  A step that commits writes back the
    copy its worker took at claim; whatever the row has gained since is wait
    outcomes, and the row is extended rather than overwritten if and only if it
    has gained nothing.
   */
  lemma CommitOverwrites(c: Config, acts: seq<Action>, k: nat, body: seq<string>)
    requires var s := Exec(c, acts);
             Executes(s, k) && RunHistory.MayCommit(s.db, s.workers[k].job)
    ensures var s := Exec(c, acts);
            var copy, row := s.workers[k].history, s.db.runs[JobOf(s, k).run].history;
            var written := RecordStep(s.db, JobOf(s, k), copy, body).runs[JobOf(s, k).run].history;
            && copy <= row && RunHistory.OnlyResults(row[|copy|..])
            && (row <= written <==> row == copy)
            && (RunHistory.Clean(s.db.log, JobOf(s, k).run) ==> row == copy)
  {
    var s := Exec(c, acts);
    RunHistory.ExecInv(c, acts);
    assert RunHistory.CopyOk(s.db, s.workers[k]);
    var copy, row := s.workers[k].history, s.db.runs[JobOf(s, k).run].history;
    if copy != row {
      assert row[|copy|..][0] == row[|copy|];
    }
  }
}

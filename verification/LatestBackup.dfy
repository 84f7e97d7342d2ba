/** Choosing the latest backup of a cluster (percona/k8s/backup.go). */
module LatestBackup {
  import opened Options

  datatype State = Succeeded | Failed | InProgress

  datatype Backup = Backup(name: string, snapshot: bool, state: State, completedAt: Option<int>, created: int)

  datatype Result = Latest(backup: Backup) | NoBackups | RunningBackup | NoCompleted

  predicate Counts(b: Backup) { !b.snapshot && b.state.Succeeded? }

  predicate Runs(b: Backup) { !b.snapshot && b.state.InProgress? }

  /** When a backup was done; one without that time goes by its creation. */
  function TimeOf(b: Backup): int { if b.completedAt.Some? then b.completedAt.value else b.created }

  /** One more backup, compared with the time that the chosen one has itself. */
  function Choose(latest: Option<Backup>, b: Backup): Option<Backup> {
    if !Counts(b) then latest
    else if latest.None? || latest.value.completedAt.None? || TimeOf(b) > latest.value.completedAt.value then Some(b)
    else latest
  }

  function Chosen(backups: seq<Backup>): Option<Backup> {
    if backups == [] then None else Choose(Chosen(backups[..|backups| - 1]), backups[|backups| - 1])
  }

  method GetLatestBackup(backups: seq<Backup>) returns (r: Result)
    ensures backups == [] <==> r.NoBackups?
    ensures r.Latest? <==> Chosen(backups).Some? && Chosen(backups).value.completedAt.Some?
    ensures r.Latest? ==> Some(r.backup) == Chosen(backups)
    ensures r.RunningBackup? <==> !r.Latest? && exists i :: 0 <= i < |backups| && Runs(backups[i])
  {
    if |backups| == 0 {
      return NoBackups;
    }
    var latest: Option<Backup> := None;
    var runningBackupExists := false;
    for i := 0 to |backups|
      invariant latest == Chosen(backups[..i])
      invariant runningBackupExists <==> exists j :: 0 <= j < i && Runs(backups[j])
    {
      assert backups[..i + 1][..i] == backups[..i];
      var backup := backups[i];
      if !backup.snapshot {
        match backup.state {
          case Succeeded =>
            var completedAt := backup.completedAt;
            if completedAt.None? {
              completedAt := Some(backup.created);
            }
            if latest.None? || latest.value.completedAt.None? || completedAt.value > latest.value.completedAt.value {
              latest := Some(backup);
            }
          case Failed =>
          case InProgress => runningBackupExists := true;
        }
      }
    }
    assert backups[..|backups|] == backups;
    if latest.None? || latest.value.completedAt.None? {
      return if runningBackupExists then RunningBackup else NoCompleted;
    }
    return Latest(latest.value);
  }

  /** No backup that counts was done later. */
  ghost predicate IsNewest(backups: seq<Backup>, b: Backup) {
    b in backups && Counts(b) && forall i :: 0 <= i < |backups| && Counts(backups[i]) ==>
        TimeOf(backups[i]) <= TimeOf(b)
  }

  ghost predicate HasTimedNewest(backups: seq<Backup>) {
    exists b :: b in backups && IsNewest(backups, b) && b.completedAt.Some?
  }

  lemma {:induction false} ChosenCounts(backups: seq<Backup>)
    ensures Chosen(backups).Some? ==> Chosen(backups).value in backups && Counts(Chosen(backups).value)
  {
    if backups != [] {
      ChosenCounts(backups[..|backups| - 1]);
    }
  }

  /**
   * The newest backup is returned exactly if one of the newest has its completion time. A newest
   * one without it is forgotten for any other that follows, or counts as not completed.
   */
  lemma {:induction false} NewestIsChosen(backups: seq<Backup>)
    ensures (Chosen(backups).Some? && Chosen(backups).value.completedAt.Some?
            && IsNewest(backups, Chosen(backups).value))
            <==> HasTimedNewest(backups)
  {
    ChosenCounts(backups);
    if backups != [] {
      var rest, b := backups[..|backups| - 1], backups[|backups| - 1];
      NewestIsChosen(rest);
      ChosenCounts(rest);
      assert backups == rest + [b];
      if HasTimedNewest(backups) {
        var m :| m in backups && IsNewest(backups, m) && m.completedAt.Some?;
        if m in rest {
          assert IsNewest(rest, m);
          assert TimeOf(Chosen(rest).value) == TimeOf(m);
          assert Chosen(backups) == Chosen(rest) by {
            assert backups[|rest|] == b;
          }
        } else {
          assert m == b;
          if Chosen(rest).Some? && Chosen(rest).value.completedAt.Some? {
            assert TimeOf(Chosen(rest).value) <= TimeOf(b);
            if TimeOf(Chosen(rest).value) == TimeOf(b) {
              assert IsNewest(backups, Chosen(rest).value);
            }
          }
        }
      }
    }
  }

  /** A newest backup without a completion time hides behind an older one, in this order. */
  lemma UntimedIsForgotten(middle: Backup, untimed: Backup, older: Backup)
    requires Counts(middle) && Counts(untimed) && Counts(older)
    requires middle.completedAt.Some? && older.completedAt.Some? && untimed.completedAt.None?
    requires TimeOf(older) < TimeOf(middle) < TimeOf(untimed)
    ensures Chosen([middle, untimed, older]) == Some(older)
  {
    var all := [middle, untimed, older];
    assert all[..2] == [middle, untimed] && all[..2][..1] == [middle] && [middle][..0] == [];
    assert Chosen([middle]) == Some(middle);
    assert Chosen([middle, untimed]) == Some(untimed);
  }
}

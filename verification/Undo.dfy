/** The undo log of the project initialiser (src/init.rs): changes are applied in order and taken back last-in
    first-out when one fails. A file system is the map from paths to contents; directories and temporary files are
    not part of it. */
module Undo {
  import opened Wrappers
  import opened Utf8

  type Path = string
  type Contents = seq<Byte>
  type Files = map<Path, Contents>

  datatype Change = Write(path: Path, contents: Contents) | Delete(path: Path)

  /** What a change overwrote; `None` when the path did not exist. */
  datatype WrittenFile = WrittenFile(path: Path, original: Option<Contents>)

  /** How an operation on a path ends. A failing one may leave something else behind on that path. */
  datatype Outcome = Succeeds | Fails(residue: Option<Option<Contents>>)

  /** Which calls succeed: logging and applying step i, announcing the rollback, undoing step i and logging that. */
  datatype Faults = Faults(
    logStep: nat -> bool,
    apply: nat -> Outcome,
    logFailure: bool,
    undo: nat -> Outcome,
    logUndo: nat -> bool)

  function Lookup(files: Files, path: Path): Option<Contents> {
    if path in files then Some(files[path]) else None
  }

  function Set(files: Files, path: Path, contents: Option<Contents>): (r: Files)
    ensures forall p :: Lookup(r, p) == if p == path then contents else Lookup(files, p)
  {
    if contents.Some? then files[path := contents.value] else files - {path}
  }

  lemma SameLookups(a: Files, b: Files)
    requires forall p :: Lookup(a, p) == Lookup(b, p)
    ensures a == b
  {
    assert forall p :: p in a <==> Lookup(a, p).Some?;
    assert forall p :: p in b <==> Lookup(b, p).Some?;
    forall p | p in a ensures a[p] == b[p] {
      assert Lookup(a, p) == Lookup(b, p);
    }
  }

  function Target(change: Change): Option<Contents> {
    match change
    case Write(_, contents) => Some(contents)
    case Delete(_) => None
  }

  function Residue(files: Files, path: Path, residue: Option<Option<Contents>>): Files {
    if residue.Some? then Set(files, path, residue.value) else files
  }

  // ---------- the specification ----------

  /** The files after the first `n` changes. */
  function Forward(files: Files, changes: seq<Change>, n: nat): Files
    requires n <= |changes|
  {
    if n == 0 then files
    else Set(Forward(files, changes, n - 1), changes[n - 1].path, Target(changes[n - 1]))
  }

  function Snapshot(files: Files, change: Change): WrittenFile {
    WrittenFile(change.path, Lookup(files, change.path))
  }

  function UndoOne(files: Files, snapshot: WrittenFile, outcome: Outcome): Files {
    match outcome
    case Succeeds => Set(files, snapshot.path, snapshot.original)
    case Fails(residue) => Residue(files, snapshot.path, residue)
  }

  /** Undoing snapshots `n - 1` down to 0; a failed undo is skipped, a failed log message stops everything. */
  function UndoAll(files: Files, applied: seq<WrittenFile>, n: nat, faults: Faults): Files
    requires n <= |applied|
    decreases n
  {
    if n == 0 then files
    else
      var after := UndoOne(files, applied[n - 1], faults.undo(n - 1));
      if faults.logUndo(n - 1) then UndoAll(after, applied, n - 1, faults) else after
  }

  /** The files and whether the call succeeds, from step |applied| on. */
  function Run(files: Files, changes: seq<Change>, applied: seq<WrittenFile>, faults: Faults): (Files, bool)
    requires |applied| <= |changes|
    decreases |changes| - |applied|
  {
    var i := |applied|;
    if i == |changes| then (files, true)
    else if !faults.logStep(i) then (files, false)
    else match faults.apply(i)
      case Succeeds =>
        Run(Set(files, changes[i].path, Target(changes[i])), changes, applied + [Snapshot(files, changes[i])], faults)
      case Fails(residue) =>
        var left := Residue(files, changes[i].path, residue);
        (if faults.logFailure then UndoAll(left, applied, i, faults) else left, false)
  }

  // ---------- what it achieves ----------

  /** The steps before `k` all work. */
  ghost predicate WorksBefore(faults: Faults, k: nat) {
    forall i: nat :: i < k ==> faults.logStep(i) && faults.apply(i) == Succeeds
  }

  ghost predicate IsUndoLog(files: Files, changes: seq<Change>, applied: seq<WrittenFile>) {
    && |applied| <= |changes|
    && forall i :: 0 <= i < |applied| ==> applied[i] == Snapshot(Forward(files, changes, i), changes[i])
  }

  lemma UndoLogSnoc(files: Files, changes: seq<Change>, applied: seq<WrittenFile>)
    requires IsUndoLog(files, changes, applied) && |applied| < |changes|
    ensures var i := |applied|;
            IsUndoLog(files, changes, applied + [Snapshot(Forward(files, changes, i), changes[i])])
  {
    hide Forward;
  }

  lemma RunStep(files: Files, changes: seq<Change>, applied: seq<WrittenFile>, faults: Faults)
    requires |applied| < |changes| && faults.logStep(|applied|) && faults.apply(|applied|) == Succeeds
    ensures var change := changes[|applied|];
            Run(files, changes, applied, faults)
            == Run(Set(files, change.path, Target(change)), changes, applied + [Snapshot(files, change)], faults)
  {
  }

  /** Running the working steps from `|applied|` up to `k`. */
  lemma {:induction false} RunForward(files: Files, changes: seq<Change>, applied: seq<WrittenFile>, k: nat,
                                      faults: Faults)
      returns (log: seq<WrittenFile>)
    requires |applied| <= k <= |changes| && WorksBefore(faults, k) && IsUndoLog(files, changes, applied)
    ensures |log| == k && IsUndoLog(files, changes, log)
    ensures Run(Forward(files, changes, |applied|), changes, applied, faults)
         == Run(Forward(files, changes, k), changes, log, faults)
    decreases k - |applied|
  {
    hide Run, IsUndoLog;
    var i := |applied|;
    if i == k {
      log := applied;
    } else {
      var now := Forward(files, changes, i);
      var next := applied + [Snapshot(now, changes[i])];
      UndoLogSnoc(files, changes, applied);
      assert Forward(files, changes, i + 1) == Set(now, changes[i].path, Target(changes[i]));
      assert faults.logStep(i) && faults.apply(i) == Succeeds;
      RunStep(now, changes, applied, faults);
      log := RunForward(files, changes, next, k, faults);
    }
  }

  /** Of the first `n` changes, `k` is the last to its path. */
  predicate IsLastChange(changes: seq<Change>, n: nat, k: nat)
    requires n <= |changes|
  {
    k < n && forall j :: k < j < n ==> changes[j].path != changes[k].path
  }

  /** The path has the contents written, or is gone. */
  predicate IsDone(files: Files, change: Change) {
    match change
    case Write(path, contents) => path in files && files[path] == contents
    case Delete(path) => path !in files
  }

  lemma {:induction false} LastChangeStays(files: Files, changes: seq<Change>, n: nat, k: nat)
    requires n <= |changes| && IsLastChange(changes, n, k)
    ensures IsDone(Forward(files, changes, n), changes[k])
  {
    if k < n - 1 {
      LastChangeStays(files, changes, n - 1, k);
      assert Lookup(Forward(files, changes, n), changes[k].path)
          == Lookup(Forward(files, changes, n - 1), changes[k].path);
    }
  }

  /** If no step fails, all changes are applied in order: what the last change to a path says is so, and paths that no
      change names are as before. */
  lemma AllApplied(files: Files, changes: seq<Change>, faults: Faults)
    requires WorksBefore(faults, |changes|)
    ensures var (after, ok) := Run(files, changes, [], faults);
            && ok && after == Forward(files, changes, |changes|)
            && (forall k: nat :: IsLastChange(changes, |changes|, k) ==> IsDone(after, changes[k]))
            && forall path :: (forall k :: 0 <= k < |changes| ==> changes[k].path != path) ==>
                 Lookup(after, path) == Lookup(files, path)
  {
    var log := RunForward(files, changes, [], |changes|, faults);
    forall k: nat | IsLastChange(changes, |changes|, k)
      ensures IsDone(Forward(files, changes, |changes|), changes[k])
    {
      LastChangeStays(files, changes, |changes|, k);
    }
    forall path | forall k :: 0 <= k < |changes| ==> changes[k].path != path
      ensures Lookup(Forward(files, changes, |changes|), path) == Lookup(files, path)
    {
      Untouched(files, changes, |changes|, path);
    }
  }

  ghost predicate Touches(changes: seq<Change>, n: nat, path: Path)
    requires n <= |changes|
  {
    exists i :: 0 <= i < n && changes[i].path == path
  }

  /** After undoing, a path none of whose undo steps failed is as it was, whatever its contents before the undo
      if some step had touched it. */
  lemma {:induction false} UndoRestores(files: Files, current: Files, changes: seq<Change>, applied: seq<WrittenFile>,
                                        n: nat, faults: Faults, path: Path)
    requires n <= |applied| <= |changes| && IsUndoLog(files, changes, applied)
    requires forall i: nat :: i < n ==> faults.logUndo(i)
    requires forall i: nat :: i < n && changes[i].path == path ==> faults.undo(i) == Succeeds
    requires Touches(changes, n, path) || Lookup(current, path) == Lookup(files, path)
    ensures Lookup(UndoAll(current, applied, n, faults), path) == Lookup(files, path)
    decreases n
  {
    hide IsUndoLog, Forward;
    if n > 0 {
      assert applied[n - 1] == Snapshot(Forward(files, changes, n - 1), changes[n - 1]) by {
        UndoLogAt(files, changes, applied, n - 1);
      }
      var after := UndoOne(current, applied[n - 1], faults.undo(n - 1));
      if changes[n - 1].path == path && !Touches(changes, n - 1, path) {
        Untouched(files, changes, n - 1, path);
      }
      UndoRestores(files, after, changes, applied, n - 1, faults, path);
    }
  }

  lemma UndoLogAt(files: Files, changes: seq<Change>, applied: seq<WrittenFile>, i: nat)
    requires IsUndoLog(files, changes, applied) && i < |applied|
    ensures |applied| <= |changes| && applied[i] == Snapshot(Forward(files, changes, i), changes[i])
  {
  }

  lemma {:induction false} Untouched(files: Files, changes: seq<Change>, n: nat, path: Path)
    requires n <= |changes| && !Touches(changes, n, path)
    ensures Lookup(Forward(files, changes, n), path) == Lookup(files, path)
  {
    if n > 0 {
      assert changes[n - 1].path != path;
      Untouched(files, changes, n - 1, path);
    }
  }

  lemma {:induction false} UndoLeavesUntouched(current: Files, applied: seq<WrittenFile>, n: nat, faults: Faults,
                                               path: Path)
    requires n <= |applied| && forall i :: 0 <= i < n ==> applied[i].path != path
    ensures Lookup(UndoAll(current, applied, n, faults), path) == Lookup(current, path)
    decreases n
  {
    if n > 0 {
      UndoLeavesUntouched(UndoOne(current, applied[n - 1], faults.undo(n - 1)), applied, n - 1, faults, path);
    }
  }

  /** Step `k` is the one that fails, and everything is logged. */
  ghost predicate FailsAt(changes: seq<Change>, faults: Faults, k: nat) {
    && k < |changes| && WorksBefore(faults, k)
    && faults.logStep(k) && faults.apply(k).Fails? && faults.logFailure
    && forall i: nat :: i < k ==> faults.logUndo(i)
  }

  /** When step `k` fails, every path whose undo steps succeed gets its contents back, even if other undo steps fail;
      the failing step's own path only if that step left it alone or an earlier step had saved it. */
  lemma PathRestored(files: Files, changes: seq<Change>, faults: Faults, k: nat, path: Path)
    requires FailsAt(changes, faults, k)
    requires forall i: nat :: i < k && changes[i].path == path ==> faults.undo(i) == Succeeds
    requires path == changes[k].path ==> faults.apply(k).residue == None || Touches(changes, k, path)
    ensures !Run(files, changes, [], faults).1
    ensures Lookup(Run(files, changes, [], faults).0, path) == Lookup(files, path)
  {
    var log := RunForward(files, changes, [], k, faults);
    var left := Residue(Forward(files, changes, k), changes[k].path, faults.apply(k).residue);
    if !Touches(changes, k, path) {
      Untouched(files, changes, k, path);
    }
    UndoRestores(files, left, changes, log, k, faults, path);
  }

  /** With all undo steps succeeding, the files are exactly as before if and only if the failing step left its path as
      it was before the call, or an earlier step had saved that path. */
  lemma RestoredExactly(files: Files, changes: seq<Change>, faults: Faults, k: nat)
    requires FailsAt(changes, faults, k)
    requires forall i: nat :: i < k ==> faults.undo(i) == Succeeds
    ensures Run(files, changes, [], faults) == (files, false)
       <==> (|| faults.apply(k).residue == None
             || faults.apply(k).residue.value == Lookup(files, changes[k].path)
             || Touches(changes, k, changes[k].path))
  {
    var residue, path := faults.apply(k).residue, changes[k].path;
    var result := Run(files, changes, [], faults).0;
    forall p | p != path ensures Lookup(result, p) == Lookup(files, p) {
      PathRestored(files, changes, faults, k, p);
    }
    if residue == None || Touches(changes, k, path) {
      PathRestored(files, changes, faults, k, path);
      SameLookups(result, files);
    } else {
      var log := RunForward(files, changes, [], k, faults);
      var left := Residue(Forward(files, changes, k), path, residue);
      UndoLeavesUntouched(left, log, k, faults, path);
      assert Lookup(result, path) == residue.value;
      if residue.value == Lookup(files, path) {
        SameLookups(result, files);
      }
    }
  }

  /** A log message that cannot be written before step `k` stops the call without undoing the steps before it. */
  lemma LogFailureKeepsChanges(files: Files, changes: seq<Change>, faults: Faults, k: nat)
    requires k < |changes| && WorksBefore(faults, k) && !faults.logStep(k)
    ensures Run(files, changes, [], faults) == (Forward(files, changes, k), false)
  {
    var log := RunForward(files, changes, [], k, faults);
  }

  /** When the rollback cannot be announced, nothing is undone. */
  lemma UnannouncedRollback(files: Files, changes: seq<Change>, faults: Faults, k: nat)
    requires k < |changes| && WorksBefore(faults, k) && faults.logStep(k) && faults.apply(k).Fails?
    requires !faults.logFailure
    ensures Run(files, changes, [], faults)
         == (Residue(Forward(files, changes, k), changes[k].path, faults.apply(k).residue), false)
  {
    var log := RunForward(files, changes, [], k, faults);
  }

  /** The files before the undo of step `i`. */
  lemma {:induction false} UndoSplits(current: Files, applied: seq<WrittenFile>, n: nat, i: nat, faults: Faults)
      returns (before: Files)
    requires i < n <= |applied| && forall j: nat :: i < j < n ==> faults.logUndo(j)
    ensures forall path :: (forall j :: i < j < n ==> applied[j].path != path) ==>
              Lookup(before, path) == Lookup(current, path)
    ensures UndoAll(current, applied, n, faults) == UndoAll(before, applied, i + 1, faults)
    decreases n
  {
    if n == i + 1 {
      before := current;
    } else {
      before := UndoSplits(UndoOne(current, applied[n - 1], faults.undo(n - 1)), applied, n - 1, i, faults);
    }
  }

  /** When step `k` fails, and the undo step of the first change to a path fails, that path is left with what the
      failing undo left there, if it left something. */
  lemma FailedUndoLeaves(files: Files, changes: seq<Change>, faults: Faults, k: nat, i: nat)
    requires FailsAt(changes, faults, k) && i < k && faults.undo(i).Fails? && faults.undo(i).residue.Some?
    requires forall j :: 0 <= j < i ==> changes[j].path != changes[i].path
    ensures Lookup(Run(files, changes, [], faults).0, changes[i].path) == faults.undo(i).residue.value
  {
    var log := RunForward(files, changes, [], k, faults);
    var left := Residue(Forward(files, changes, k), changes[k].path, faults.apply(k).residue);
    LogPaths(files, changes, log);
    var before := UndoSplits(left, log, k, i, faults);
    UndoLeavesUntouched(UndoOne(before, log[i], faults.undo(i)), log, i, faults, changes[i].path);
  }

  /** When step `k` fails and the log message after the undo of step `i` cannot be written, the steps before `i` are not
      undone: a path that only they touched keeps what they wrote. */
  lemma StoppedUndoKeeps(files: Files, changes: seq<Change>, faults: Faults, k: nat, i: nat, path: Path)
    requires k < |changes| && WorksBefore(faults, k) && faults.logStep(k) && faults.apply(k).Fails? && faults.logFailure
    requires i < k && !faults.logUndo(i) && forall j: nat :: i < j < k ==> faults.logUndo(j)
    requires forall j :: i <= j <= k ==> changes[j].path != path
    ensures Lookup(Run(files, changes, [], faults).0, path) == Lookup(Forward(files, changes, i), path)
  {
    hide Forward, WorksBefore;
    NothingDone(files, changes);
    var log := RunForward(files, changes, [], k, faults);
    var left := Residue(Forward(files, changes, k), changes[k].path, faults.apply(k).residue);
    assert Run(files, changes, [], faults).0 == UndoAll(left, log, k, faults);
    hide Run, IsUndoLog;
    LogPaths(files, changes, log);
    var before := UndoSplits(left, log, k, i, faults);
    StopsAt(before, log, i, faults, path);
    assert Lookup(before, path) == Lookup(left, path);
    UntouchedSince(files, changes, i, k, path);
  }

  lemma NothingDone(files: Files, changes: seq<Change>)
    ensures Forward(files, changes, 0) == files
  {
  }

  lemma StopsAt(before: Files, log: seq<WrittenFile>, i: nat, faults: Faults, path: Path)
    requires i < |log| && !faults.logUndo(i) && log[i].path != path
    ensures Lookup(UndoAll(before, log, i + 1, faults), path) == Lookup(before, path)
  {
  }

  lemma LogPaths(files: Files, changes: seq<Change>, log: seq<WrittenFile>)
    requires IsUndoLog(files, changes, log)
    ensures |log| <= |changes| && forall j :: 0 <= j < |log| ==> log[j].path == changes[j].path
  {
    hide Forward;
  }

  lemma {:induction false} UntouchedSince(files: Files, changes: seq<Change>, i: nat, k: nat, path: Path)
    requires i <= k <= |changes| && forall j :: i <= j < k ==> changes[j].path != path
    ensures Lookup(Forward(files, changes, k), path) == Lookup(Forward(files, changes, i), path)
    decreases k
  {
    if i < k {
      UntouchedSince(files, changes, i, k - 1, path);
    }
  }

  // ---------- the implementation ----------

  class FileSystem {
    var files: Files

    constructor (initial: Files)
      ensures files == initial
    {
      files := initial;
    }

    /** `PendingChange::apply`: the snapshot, or `None` for an error. */
    method Apply(change: Change, outcome: Outcome) returns (snapshot: Option<WrittenFile>)
      modifies this
      ensures snapshot == if outcome == Succeeds then Some(Snapshot(old(files), change)) else None
      ensures files == if outcome == Succeeds then Set(old(files), change.path, Target(change))
                       else Residue(old(files), change.path, outcome.residue)
    {
      if outcome.Fails? {
        files := Residue(files, change.path, outcome.residue);
        return None;
      }
      var original := if change.path in files then Some(files[change.path]) else None;
      match change {
        case Write(path, contents) => files := files[path := contents];
        case Delete(path) => files := files - {path};
      }
      return Some(WrittenFile(change.path, original));
    }

    method Rollback(snapshot: WrittenFile, outcome: Outcome) returns (ok: bool)
      modifies this
      ensures ok <==> outcome == Succeeds
      ensures files == UndoOne(old(files), snapshot, outcome)
    {
      if outcome.Fails? {
        files := Residue(files, snapshot.path, outcome.residue);
        return false;
      }
      match snapshot.original {
        case Some(contents) => files := files[snapshot.path := contents];
        case None =>
          if snapshot.path in files {
            files := files - {snapshot.path};
          }
      }
      return true;
    }

    method ApplyWritesWithRollback(changes: seq<Change>, faults: Faults) returns (ok: bool)
      modifies this
      ensures (files, ok) == Run(old(files), changes, [], faults)
    {
      var applied: seq<WrittenFile> := [];
      for i := 0 to |changes|
        invariant |applied| == i
        invariant Run(files, changes, applied, faults) == Run(old(files), changes, [], faults)
      {
        if !faults.logStep(i) {
          return false;
        }
        var snapshot := Apply(changes[i], faults.apply(i));
        if snapshot.Some? {
          applied := applied + [snapshot.value];
        } else {
          if !faults.logFailure {
            return false;
          }
          var n := |applied|;
          while n > 0
            invariant 0 <= n <= |applied|
            invariant (UndoAll(files, applied, n, faults), false) == Run(old(files), changes, [], faults)
          {
            n := n - 1;
            var undone := Rollback(applied[n], faults.undo(n));
            if !faults.logUndo(n) {
              return false;
            }
          }
          return false;
        }
      }
      return true;
    }
  }
}

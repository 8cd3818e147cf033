/** Migration of the NVR's recordings from the system disk to an assigned disk. */
module NvrMigration {
  import opened Faults

  type Path = string

  datatype Entry = Directory | Regular(content: string) | Link(to: string) | Special

  type Files = map<Path, Entry>

  /** The module's data path: a tree on the system disk, or a link to the assigned disk. */
  datatype DataPath = Missing | Folder(files: Files) | ToDisk

  /** Which tree the running container has mounted; fixed when it starts. */
  datatype Mount = SystemDisk | AssignedDisk

  datatype World = World(data: DataPath, backup: Option<Files>, disk: Option<Files>, running: Option<Mount>)

  /** The exact original tree is at the data path or at the backup name. */
  predicate Preserved(w: World, original: Files) {
    w.data == Folder(original) || w.backup == Some(original)
  }

  // ------------------------------------------------------------------ the copy

  predicate SameAt(source: Files, copy: Files, p: Path) {
    p in source ==> p in copy && copy[p] == source[p] && !source[p].Special?
  }

  predicate Agrees(source: Files, copy: Files) {
    forall p :: p in source ==> SameAt(source, copy, p)
  }

  /** verifyNVRCopy: a walk over the source. It says yes exactly when every entry of the source
      is in the copy with the same type and content, and all of them could be read. */
  method VerifyCopy(source: Files, copy: Files, unreadable: set<Path>) returns (ok: bool)
    ensures ok <==> Agrees(source, copy) && forall p :: p in source && source[p].Regular? ==> p !in unreadable
  {
    var todo := source.Keys;
    while todo != {}
      invariant todo <= source.Keys
      invariant forall p :: p in source && p !in todo ==>
        SameAt(source, copy, p) && (source[p].Regular? ==> p !in unreadable)
      decreases |todo|
    {
      var p :| p in todo;
      if p !in copy { return false; }
      match source[p] {
        case Directory =>
          if !copy[p].Directory? { return false; }
        case Regular(content) =>
          if !copy[p].Regular? || |copy[p].content| != |content| || p in unreadable || copy[p].content != content {
            assert !SameAt(source, copy, p) || p in unreadable;
            return false;
          }
        case Link(to) =>
          if !copy[p].Link? || copy[p].to != to { return false; }
        case Special =>
          return false;
      }
      todo := todo - {p};
    }
    ok := true;
  }

  /** cp -a: it writes the names of the source, with whatever content reaches the disk. `exact`:
      it has copied what it was given. */
  method CopyAll(source: Files) returns (ok: bool, copy: Files, ghost exact: bool)
    ensures copy.Keys <= source.Keys
    ensures exact <==> ok && copy == source
  {
    copy, exact := map[], true;
    ok := true;
    var todo := source.Keys;
    while ok && todo != {}
      invariant todo <= source.Keys && copy.Keys == source.Keys - todo
      invariant exact <==> ok && forall p :: p in copy ==> copy[p] == source[p]
      decreases |todo|
    {
      var p :| p in todo;
      var written: Entry := *;
      ok := *;
      exact := exact && ok && written == source[p];
      copy := copy[p := written];
      todo := todo - {p};
    }
  }

  /** A tree of directories, regular files and links only: any other is never taken over. */
  predicate Movable(files: Files) {
    forall p :: p in files ==> !files[p].Special?
  }

  lemma ExactCopyAgrees(source: Files)
    ensures Agrees(source, source) <==> Movable(source)
  {
    if p :| p in source && source[p].Special? {
      assert !SameAt(source, source, p);
    }
  }

  /** A verified copy of that kind is identical to the source. */
  lemma VerifiedCopyIsIdentical(source: Files, copy: Files)
    requires copy.Keys <= source.Keys && Agrees(source, copy)
    ensures copy == source
  {
    assert forall p :: p in source ==> SameAt(source, copy, p);
    assert copy.Keys == source.Keys;
  }

  // ------------------------------------------------------------------ the host

  /** What is done and what is asked, in the words of the code's own order. */
  datatype Act =
    | Recognize | LinkInUse | MakeDirectory | GiveAway | StopIt
    | Copy | Compare | StillAssigned | SetAside | LinkIt | LinkLeads | StartIt | Health | LastLook
    | Unlink | PutBack

  const PREPARATION: seq<Act> := [Recognize, MakeDirectory, GiveAway, StopIt]

  const MIGRATION: seq<Act> :=
    [Copy, Compare, StillAssigned, SetAside, LinkIt, LinkLeads, StartIt, Health, LastLook]

  /** The deferred restore: everything is tried but the start, which a failure prevents. */
  function Restoration(renamed: bool, linked: bool, started: bool): seq<Act> {
    (if linked then [StopIt, Unlink] else []) + (if renamed then [PutBack] else []) + if started then [StartIt] else []
  }

  datatype Ending =
    | AlreadyThere
    | Migrated
    | Refused           // before the stop succeeded
    | RestoredOriginal  // an error, with everything put back
    | ManualRecovery    // an error, and the restore reports that it failed

  class NvrHost {
    var w: World
    ghost var trace: seq<World>
    ghost var original: Files      // the stopped module's tree
    ghost var armed: bool          // it has stopped, and its tree must not get lost
    ghost var since: nat
    ghost var acts: seq<Act>       // everything done and asked so far
    ghost var faults: nat          // commands and checks that failed although they could have succeeded

    ghost predicate Valid()
      reads this
    {
      && |trace| > 0 && trace[|trace| - 1] == w
      && (armed ==> since < |trace| && forall k :: since <= k < |trace| ==> Preserved(trace[k], original))
    }

    constructor (w: World)
      ensures Valid() && this.w == w && !armed
    {
      this.w, trace, original, armed, since := w, [w], map[], false, 0;
      acts, faults := [], 0;
    }

    /** One visible change of the host. */
    method Step(next: World)
      requires Valid() && (armed ==> Preserved(next, original))
      modifies this`w, this`trace
      ensures Valid() && w == next && trace == old(trace) + [next]
    {
      w := next;
      trace := trace + [next];
    }

    /** A running container writes the tree it has mounted, and no other. */
    method Record()
      requires Valid() && (armed ==> w.running != Some(SystemDisk) && Preserved(w, original))
      modifies this`w, this`trace
      ensures Valid() && old(trace) <= trace
      ensures w == old(w).(data := w.data, disk := w.disk)
      ensures w.disk.Some? == old(w).disk.Some? && (old(w).running != Some(AssignedDisk) ==> w.disk == old(w).disk)
      ensures w.data.Folder? == old(w).data.Folder?
        && (old(w).running != Some(SystemDisk) || !w.data.Folder? ==> w.data == old(w).data)
    {
      var written: Files := *;
      if w.running == Some(SystemDisk) && w.data.Folder? {
        Step(w.(data := Folder(written)));
      } else if w.running == Some(AssignedDisk) && w.disk.Some? {
        Step(w.(disk := Some(written)));
      }
    }

    /** docker stop: may fail, with or without having stopped the container. */
    method Stop() returns (ok: bool)
      requires Valid() && (armed ==> Preserved(w, original))
      modifies this`w, this`trace, this`acts, this`faults
      ensures Valid() && old(trace) <= trace && (w == old(w) || w == old(w).(running := None))
      ensures ok ==> w.running.None?
      ensures faults == (if ok then old(faults) else old(faults) + 1) && acts == old(acts) + [StopIt]
    {
      var done, said: bool := *, *;
      if done { Step(w.(running := None)); }
      ok := done && said;
      Count(StopIt, ok);
    }

    /** A command or check that is `fine`, or fails by itself. */
    ghost method Count(act: Act, fine: bool)
      modifies this`acts, this`faults
      ensures faults == (if fine then old(faults) else old(faults) + 1) && acts == old(acts) + [act]
    {
      faults, acts := if fine then faults else faults + 1, acts + [act];
    }

    method Check(ghost act: Act) returns (ok: bool)
      modifies this`acts, this`faults
      ensures faults == (if ok then old(faults) else old(faults) + 1) && acts == old(acts) + [act]
    {
      ok := *;
      Count(act, ok);
    }

    /** docker start: mounts whatever the data path leads to; a running container stays as it is. */
    method Start() returns (ok: bool)
      requires Valid() && (armed ==> Preserved(w, original))
      modifies this`w, this`trace, this`acts, this`faults
      ensures Valid() && old(trace) <= trace && w == old(w).(running := w.running)
      ensures w.running == old(w).running
        || (old(w).running.None? && w.running == Some(MountOf(w.data)) && !w.data.Missing?)
      ensures ok ==> w.running.Some?
      ensures faults == (if ok || w.data.Missing? then old(faults) else old(faults) + 1)
        && acts == old(acts) + [StartIt]
    {
      var done, said: bool := *, *;
      done := done && !w.data.Missing?;
      if done && w.running.None? {
        Step(w.(running := Some(MountOf(w.data))));
      }
      ok := w.running.Some? && done && said;
      Count(StartIt, ok || w.data.Missing?);
    }

    static function MountOf(d: DataPath): Mount {
      if d.ToDisk? then AssignedDisk else SystemDisk
    }

    /** waitNVRMigrationHealth: the container is up and sees the assigned disk. */
    method WaitHealthy() returns (ok: bool)
      requires Valid() && w.running != Some(SystemDisk) && (armed ==> Preserved(w, original))
      modifies this`w, this`trace, this`acts, this`faults
      ensures Valid() && old(trace) <= trace
      ensures w == old(w).(disk := w.disk) && w.disk.Some? == old(w).disk.Some?
      ensures ok ==> w.running == Some(AssignedDisk)
      ensures faults == (if ok || w.running.None? then old(faults) else old(faults) + 1) && acts == old(acts) + [Health]
    {
      Record();
      var healthy: bool := *;
      ok := healthy && w.running == Some(AssignedDisk);
      Count(Health, ok || w.running.None?);
    }

    /** os.Rename of the data directory to the backup's name. */
    method SetItAside() returns (ok: bool)
      requires Valid() && armed && w.data == Folder(original)
      modifies this`w, this`trace, this`acts, this`faults
      ensures Valid() && old(trace) <= trace
      ensures w == if ok then old(w).(backup := Some(original), data := Missing) else old(w)
      ensures faults == (if ok then old(faults) else old(faults) + 1) && acts == old(acts) + [SetAside]
    {
      ok := Check(SetAside);
      if ok { Step(w.(backup := Some(w.data.files), data := Missing)); }
    }

    /** os.Symlink to the disk. */
    method MakeLink() returns (ok: bool)
      requires Valid() && w.data.Missing? && (armed ==> w.backup == Some(original))
      modifies this`w, this`trace, this`acts, this`faults
      ensures Valid() && old(trace) <= trace && w == if ok then old(w).(data := ToDisk) else old(w)
      ensures faults == (if ok then old(faults) else old(faults) + 1) && acts == old(acts) + [LinkIt]
    {
      ok := Check(LinkIt);
      if ok { Step(w.(data := ToDisk)); }
    }

    /** os.Remove of the link. */
    method RemoveLink() returns (ok: bool)
      requires Valid() && w.data.ToDisk? && (armed ==> w.backup == Some(original))
      modifies this`w, this`trace, this`acts, this`faults
      ensures Valid() && old(trace) <= trace && w == if ok then old(w).(data := Missing) else old(w)
      ensures faults == (if ok then old(faults) else old(faults) + 1) && acts == old(acts) + [Unlink]
    {
      ok := Check(Unlink);
      if ok { Step(w.(data := Missing)); }
    }

    /** os.Rename of the backup back to the data path, which must be free. */
    method PutItBack() returns (ok: bool)
      requires Valid() && armed && w.backup == Some(original) && !w.data.Folder?
      modifies this`w, this`trace, this`acts, this`faults
      ensures Valid() && old(trace) <= trace
      ensures w == if ok then old(w).(data := Folder(original), backup := None) else old(w)
      ensures ok ==> old(w).data.Missing?
      ensures faults == if ok || !old(w).data.Missing? then old(faults) else old(faults) + 1
      ensures acts == old(acts) + [PutBack]
    {
      var done: bool := *;
      ok := done && w.data.Missing?;
      Count(PutBack, ok || !w.data.Missing?);
      if ok { Step(w.(data := Folder(w.backup.value), backup := None)); }
    }

    /** The deferred restore. `stray`: the ignored stop left the migrated container running.
        Every step is taken, but for a start after a failure. Manual recovery is reported only
        when one of them failed, and without any failure the original runs again. */
    method RestoreOriginal(renamed: bool, linked: bool) returns (end: Ending, ghost stray: bool)
      requires Valid() && armed && (linked ==> renamed && w.data.ToDisk?)
      requires w.running != Some(SystemDisk) && (!linked ==> w.running.None?)
      requires if renamed then w.backup == Some(original) && (linked || w.data.Missing?) else w.data == Folder(original)
      modifies this`w, this`trace, this`acts, this`faults
      ensures Valid() && old(trace) <= trace
      ensures end.RestoredOriginal? || end.ManualRecovery?
      ensures end.RestoredOriginal? ==> w.data == Folder(original) && w.running.Some?
      ensures end.RestoredOriginal? ==> w.backup == if renamed then None else old(w).backup
      ensures end.RestoredOriginal? ==> w.running == Some(if stray then AssignedDisk else SystemDisk)
      ensures stray ==> linked && old(w).running == Some(AssignedDisk)
      ensures w.disk == old(w).disk
      ensures old(faults) <= faults && (end.ManualRecovery? || stray ==> faults > old(faults))
      ensures end.RestoredOriginal? ==> faults <= old(faults) + (if linked then 1 else 0)
      ensures exists started ::
        acts == old(acts) + Restoration(renamed, linked, started) && (end.RestoredOriginal? ==> started)
    {
      stray := false;
      var ok, failed := true, false;
      if linked {
        ok := Stop();
        stray := w.running.Some?;
        assert stray ==> w.running.value.AssignedDisk?;
        ok := RemoveLink();
        failed := !ok;
      }
      if renamed {
        ok := PutItBack();
        failed := failed || !ok;
      }
      assert acts == old(acts) + Restoration(renamed, linked, false);
      if !failed {
        ok := Start();
        failed := !ok;
        assert acts == old(acts) + Restoration(renamed, linked, true);
      }
      end := if failed then ManualRecovery else RestoredOriginal;
    }

    /** The copy, and the comparison with its source. */
    method CopyAndVerify() returns (ok: bool, copy: Files)
      requires Valid() && armed && w.data == Folder(original) && w.disk.Some?
      modifies this`w, this`trace, this`acts, this`faults
      ensures Valid() && old(trace) <= trace && w == old(w).(disk := Some(copy))
      ensures ok ==> copy == original && Movable(original) && acts == old(acts) + [Copy, Compare]
      ensures old(faults) <= faults && (ok <==> faults == old(faults) && Movable(original))
    {
      ghost var exact;
      ok, copy, exact := CopyAll(w.data.files);
      Step(w.(disk := Some(copy)));
      Count(Copy, exact);
      if !ok { return; }
      var unreadable: set<Path> := *;
      Count(Compare, forall p :: p in original && original[p].Regular? ==> p !in unreadable);
      ok := VerifyCopy(w.data.files, copy, unreadable);
      if ok { VerifiedCopyIsIdentical(w.data.files, copy); }
      ExactCopyAgrees(original);
    }

    /** From the copy to the healthy module on the assigned disk. It succeeds exactly on a movable
        tree, when nothing fails. */
    method Move() returns (ok: bool, renamed: bool, linked: bool, ghost copied: Files)
      requires Valid() && armed && w.data == Folder(original) && w.running.None? && w.backup.None? && w.disk.Some?
      modifies this`w, this`trace, this`acts, this`faults
      ensures Valid() && old(trace) <= trace && w.disk.Some?
      ensures ok ==>
        w.data.ToDisk? && w.backup == Some(original) && w.running == Some(AssignedDisk) && copied == original
      ensures !ok ==>
        w.running != Some(SystemDisk) && (!linked ==> w.running.None?) && (linked ==> renamed && w.data.ToDisk?)
      ensures !ok ==>
        if renamed then w.backup == Some(original) && (linked || w.data.Missing?)
        else w.data == Folder(original) && w.backup.None?
      ensures old(faults) <= faults && (ok <==> faults == old(faults) && Movable(original))
      ensures ok ==> acts == old(acts) + MIGRATION
    {
      renamed, linked, copied := false, false, map[];
      var copy;
      ok, copy := CopyAndVerify();
      copied := copy;
      if !ok { return; }
      ok := Check(StillAssigned);
      if !ok { return; }
      ok := SetItAside();
      if !ok { return; }
      renamed := true;
      ok := MakeLink();
      if !ok { return; }
      linked := true;
      ok := StartOnDisk();
    }

    /** The link leads to the disk, and the module comes up healthy on it. */
    method StartOnDisk() returns (ok: bool)
      requires Valid() && armed && w.data.ToDisk? && w.backup == Some(original) && w.running.None? && w.disk.Some?
      modifies this`w, this`trace, this`acts, this`faults
      ensures Valid() && old(trace) <= trace && w == old(w).(running := w.running, disk := w.disk) && w.disk.Some?
      ensures w.running.None? || w.running == Some(AssignedDisk)
      ensures ok ==> w.running == Some(AssignedDisk) && acts == old(acts) + [LinkLeads, StartIt, Health, LastLook]
      ensures old(faults) <= faults && (ok <==> faults == old(faults))
    {
      ok := Check(LinkLeads);
      if !ok { return; }
      ok := Start();
      if !ok { return; }
      ok := WaitHealthy();
      if !ok { return; }
      ok := Check(LastLook);
    }

    /** From the successful stop on: the move, and its deferred restore. */
    method MoveOrRestore() returns (end: Ending, ghost copied: Files, ghost stray: bool)
      requires Valid() && w.data.Folder? && w.running.None? && w.backup.None? && w.disk.Some?
      modifies this
      ensures Valid() && old(trace) <= trace && armed && since == |old(trace)| - 1 && original == old(w).data.files
      ensures end.Migrated? || end.RestoredOriginal? || end.ManualRecovery?
      ensures end.Migrated? ==>
        w.data.ToDisk? && w.running == Some(AssignedDisk) && w.backup == Some(original) && copied == original
      ensures end.RestoredOriginal? ==>
        w.data == Folder(original) && w.backup.None? && w.running == Some(if stray then AssignedDisk else SystemDisk)
      ensures w.disk.Some? && old(faults) <= faults
      ensures faults == old(faults) ==> end == if Movable(original) then Migrated else RestoredOriginal
      ensures end.ManualRecovery? || stray ==> faults > old(faults) + if Movable(original) then 1 else 0
      ensures end.Migrated? <==> faults == old(faults) && Movable(original)
      ensures end.Migrated? ==> acts == old(acts) + MIGRATION
      ensures end.Migrated? ==> !stray
    {
      stray := false;
      original, armed, since := w.data.files, true, |trace| - 1;
      var ok, renamed, linked;
      ok, renamed, linked, copied := Move();
      if ok { return Migrated, copied, false; }
      end, stray := RestoreOriginal(renamed, linked);
    }

    /** Up to the successful stop: `ready`, or an ending. */
    method Prepare() returns (ready: bool, end: Ending)
      requires Valid() && !armed && w.backup.None?
      modifies this`w, this`trace, this`acts, this`faults
      ensures Valid() && old(trace) <= trace && w.backup.None? && w.data.Folder? == old(w).data.Folder?
      ensures ready ==> old(w).data.Folder? && old(w).disk.None? && w.disk.Some? && w.running.None?
      ensures !ready ==> end.AlreadyThere? || end.Refused?
      ensures !ready && end.AlreadyThere? ==>
        w.data.ToDisk? && w.disk.Some? && acts == old(acts) + [Recognize, LinkInUse]
      ensures old(w).running != Some(SystemDisk) ==> w.data == old(w).data
      ensures ready ==> acts == old(acts) + PREPARATION
      ensures old(faults) <= faults && (ready || (!ready && end.AlreadyThere?) ==> faults == old(faults))
      ensures faults == old(faults) ==>
        if old(w).data.ToDisk? && old(w).disk.Some? then !ready && end == AlreadyThere
        else if !old(w).data.Folder? || old(w).disk.Some? then !ready && end == Refused
        else ready
      ensures faults == old(faults) && !ready ==> w.running == old(w).running
    {
      ready, end := false, Refused;
      Record();
      var ok := Check(Recognize);           // the container, its mount and the assigned disk
      if !ok { return; }
      if w.data.ToDisk? && w.disk.Some? {
        ok := Check(LinkInUse);             // the link, and the device behind it
        end := if ok then AlreadyThere else Refused;
        return;
      }
      if !w.data.Folder? || w.disk.Some? { return; }
      ok := Check(MakeDirectory);
      if !ok { return; }
      Step(w.(disk := Some(map[])));
      ok := Check(GiveAway);
      if !ok { return; }
      Record();
      ready := Stop();
    }

    /** activateNVRStorage. Unless something fails by itself the ending is the one that the
        data path, the disk and the tree call for; and a single failure after the stop of a
        movable tree never ends in manual recovery. */
    method Activate() returns (end: Ending, ghost copied: Files, ghost stray: bool)
      requires Valid() && w.backup.None?       // the backup's name is new
      modifies this
      ensures Valid() && old(trace) <= trace
      ensures end.Migrated? ==>
        && w.data.ToDisk? && w.running == Some(AssignedDisk)
        && w.backup == Some(original) && copied == original && Movable(original)
      ensures end.RestoredOriginal? ==>
        && w.data == Folder(original) && w.backup.None?
        && w.running == Some(if stray then AssignedDisk else SystemDisk)
      ensures end.ManualRecovery? ==> Preserved(w, original)
      ensures end.AlreadyThere? ==> w.data.ToDisk? && w.disk.Some?
      ensures end.Refused? ==> w.backup.None? && w.data.Folder? == old(w).data.Folder?
      ensures (end.Migrated? || end.RestoredOriginal? || end.ManualRecovery?) ==>
        && old(w).data.Folder? && old(w).disk.None? && w.disk.Some? && |old(trace)| - 1 <= since < |trace|
        && forall k :: since <= k < |trace| ==> Preserved(trace[k], original)
      ensures old(w).data.Folder? && old(w).disk.Some? ==> end.Refused?
      ensures old(w).data.Folder? && old(w).running != Some(SystemDisk) && !end.Refused? ==>
        original == old(w).data.files
      ensures old(w).running != Some(SystemDisk) && end.Refused? ==> w.data == old(w).data
      ensures old(faults) <= faults
      ensures faults == old(faults) ==>
        end == if old(w).data.ToDisk? && old(w).disk.Some? then AlreadyThere
               else if !old(w).data.Folder? || old(w).disk.Some? then Refused
               else if Movable(original) then Migrated else RestoredOriginal
      ensures faults == old(faults) && end.Refused? ==> w.running == old(w).running
      ensures end.Migrated? || end.AlreadyThere? ==> faults == old(faults) && !stray
      ensures end.Migrated? ==> acts == old(acts) + (PREPARATION + MIGRATION)
      ensures end.AlreadyThere? ==> acts == old(acts) + [Recognize, LinkInUse]
      ensures end.ManualRecovery? || stray ==> faults > old(faults) + if Movable(original) then 1 else 0
    {
      copied, stray, armed := map[], false, false;
      var ready;
      ready, end := Prepare();
      if ready {
        end, copied, stray := MoveOrRestore();
      }
    }
  }
}

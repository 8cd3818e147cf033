/** Installation of a Core bundle, and the manual rollback to the saved one. */
module CoreUpdate {
  import opened Faults

  type Path = string
  type Files = map<Path, string>

  /** What is live, or saved, or delivered: the Core binary, the web tree, the updater helper. */
  datatype Release = Release(binary: Option<string>, web: Option<Files>, helper: Option<string>)

  const NOTHING := Release(None, None, None)

  // ------------------------------------------------------------ specification

  /** What a bundle makes live. `staged` is a helper that an earlier run left in the staging
      place; the install picks it up when the bundle brings none. */
  function Installed(live: Release, staged: Option<string>, bundle: Release): Release {
    Release(bundle.binary, bundle.web,
            if bundle.helper.Some? then bundle.helper else if staged.Some? then staged else live.helper)
  }

  /** What the install keeps for the rollback. */
  function SavedBy(live: Release, bundle: Release): Release {
    Release(live.binary, live.web, if bundle.helper.Some? then live.helper else None)
  }

  function RolledBack(live: Release, saved: Release): Release {
    Release(saved.binary, saved.web, if saved.helper.Some? then saved.helper else live.helper)
  }

  /** The install puts a helper in place that its rollback knows nothing of. */
  predicate StaleHelper(live: Release, staged: Option<string>, bundle: Release) {
    bundle.helper.None? && staged.Some? && staged != live.helper
  }

  /** What there must be, on both sides, for an install. */
  predicate Installable(live: Release, bundle: Release) {
    && live.binary.Some? && live.web.Some? && bundle.binary.Some? && bundle.web.Some?
    && (bundle.helper.Some? ==> live.helper.Some?)
  }

  /** availableRollback, and that there is something to return to. */
  predicate Revertible(live: Release, backup: Release, version: Option<string>) {
    version.Some? && backup.binary.Some? && backup.web.Some? && live.binary.Some? && live.web.Some?
  }

  function Count(b: bool): nat {
    if b then 1 else 0
  }

  /** How many parts of the release, and of the service, a compensation has not brought back. */
  function Missing(live: Release, running: bool, wanted: Release): nat {
    Count(live.binary != wanted.binary) + Count(live.web != wanted.web)
    + Count(wanted.helper.Some? && live.helper != wanted.helper) + Count(!running)
  }

  /** The visible commands: to the service, and on what is live. */
  datatype Act =
    | StopService | StartService | SeeActive
    | SwapBinary | ClearWeb | WebAside | WebIn | CopyWeb | SwapHelper | ChmodHelper

  /** The exchange of both operations, up to a healthy service. */
  const EXCHANGE: seq<Act> := [SwapBinary, WebAside, WebIn, StartService, SeeActive]

  /** The compensation of both operations. */
  function Compensation(setAside: bool, helper: bool): seq<Act> {
    [StopService, SwapBinary, ClearWeb, if setAside then WebIn else CopyWeb] + Helped(helper) + [StartService]
  }

  function Helped(helper: bool): seq<Act> {
    if helper then [SwapHelper] else []
  }

  /** The new helper of an install. */
  function HelperIn(helper: bool): seq<Act> {
    if helper then [SwapHelper, ChmodHelper] else []
  }

  predicate EndsIn(acts: seq<Act>, last: seq<Act>) {
    |last| <= |acts| && acts[|acts| - |last|..] == last
  }

  lemma EndsHere(a: seq<Act>, last: seq<Act>)
    ensures EndsIn(a + last, last)
  {
  }

  function Merged(target: Option<Files>, source: Files): (merged: Files)
    ensures target.None? ==> merged == source
  {
    var base: Files := if target.Some? then target.value else map[];
    assert map[] + source == source;
    base + source
  }

  /** A leftover tree disappears in a merge exactly when it has no file of its own. */
  lemma MergedIsPlainExactly(left: Option<Files>, source: Files)
    ensures Merged(left, source) == source <==> left.None? || left.value.Keys <= source.Keys
  {
    if left.Some? {
      assert Merged(left, source).Keys == left.value.Keys + source.Keys;
      if left.value.Keys <= source.Keys {
        assert Merged(left, source).Keys == source.Keys;
      } else {
        var p :| p in left.value.Keys && p !in source.Keys;
        assert p in Merged(left, source);
      }
    }
  }

  /** What both operations together make of the live release, and when that is the release
      before them. `left`: what an earlier rollback left in the place where the saved web tree is staged. */
  lemma RollbackUndoesInstallExactly(live: Release, staged: Option<string>, bundle: Release, left: Option<Files>)
    requires live.web.Some?
    ensures var saved := SavedBy(live, bundle);
            RolledBack(Installed(live, staged, bundle), saved.(web := Some(Merged(left, saved.web.value)))) == live
            <==> && !StaleHelper(live, staged, bundle)
                 && (bundle.helper.Some? ==> live.helper.Some?)
                 && (left.None? || left.value.Keys <= live.web.value.Keys)
  {
    MergedIsPlainExactly(left, live.web.value);
  }

  // ---------------------------------------------------------------- file commands
  // `fault`: the command could have succeeded and did not.

  /** copyFile: a failure may leave anything at the target. */
  method CopyFile(source: Option<string>, target: Option<string>)
    returns (ok: bool, out: Option<string>, ghost fault: nat)
    ensures ok ==> source.Some? && out == source
    ensures source.None? ==> !ok && out == target
    ensures fault == Count(!ok && source.Some?)
  {
    out, ok, fault := target, false, 0;
    if source.None? { return; }
    var started, complete: bool := *, *;
    var partial: string := *;
    if started {
      ok := complete;
      out := if complete then source else Some(partial);
    }
    fault := Count(!ok);
  }

  /** The files of `all` that are still to do. */
  predicate Rest(rest: Files, all: Files, todo: set<Path>) {
    rest.Keys == todo && forall p :: p in rest ==> p in all && rest[p] == all[p]
  }

  lemma RestIsAll(all: Files)
    ensures Rest(all, all, all.Keys)
  {
  }

  /** One of them goes into the target: what the merge will come to stays the same. */
  lemma RestShrinks(made: Files, rest: Files, all: Files, todo: set<Path>, p: Path) returns (rest': Files)
    requires Rest(rest, all, todo) && p in todo
    ensures p in all && Rest(rest', all, todo - {p})
    ensures Merged(Some(made[p := all[p]]), rest') == Merged(Some(made), rest)
  {
    rest' := rest - {p};
  }

  lemma RestIsNone(made: Files, rest: Files, all: Files)
    requires Rest(rest, all, {})
    ensures Merged(Some(made), rest) == made
  {
    assert rest == map[];
  }

  /** One file of a tree. */
  method CopyInto(body: string, p: Path, tree: Files) returns (ok: bool, out: Files)
    ensures ok ==> out == tree[p := body]
  {
    var made;
    ghost var fault;
    ok, made, fault := CopyFile(Some(body), None);
    out := if made.Some? then tree[p := made.value] else tree;
  }

  /** The walk: files go one by one into the target. */
  method CopyFiles(all: Files, target: Files) returns (ok: bool, made: Files)
    ensures ok ==> made == Merged(Some(target), all)
  {
    var todo := all.Keys;
    ghost var rest := all;
    ok, made := true, target;
    RestIsAll(all);
    while todo != {}
      invariant ok && Rest(rest, all, todo) && Merged(Some(made), rest) == Merged(Some(target), all)
      decreases |todo|
    {
      var p :| p in todo;
      rest := RestShrinks(made, rest, all, todo, p);
      ok, made := CopyInto(all[p], p, made);
      if !ok { return; }
      todo := todo - {p};
    }
    RestIsNone(made, rest, all);
  }

  /** copyTree: what the target already has, and the source has not, stays. */
  method CopyTree(source: Option<Files>, target: Option<Files>)
    returns (ok: bool, out: Option<Files>, ghost fault: nat)
    ensures ok ==> source.Some? && out == Some(Merged(target, source.value))
    ensures source.None? ==> !ok && out == target
    ensures fault == Count(!ok && source.Some?)
  {
    if source.None? { return false, target, 0; }
    var made;
    ok, made := CopyFiles(source.value, if target.Some? then target.value else map[]);
    return ok, Some(made), Count(!ok);
  }

  /** os.RemoveAll: a failure may leave part of the tree. */
  method RemoveAll(tree: Option<Files>) returns (ok: bool, out: Option<Files>, ghost fault: nat)
    ensures ok ==> out.None?
    ensures out.Some? ==> tree.Some? && out.value.Keys <= tree.value.Keys
    ensures fault == Count(!ok)
  {
    var done: bool := *;
    var gone: set<Path> := *;
    ok := done;
    out := if done || tree.None? then None else Some(tree.value - gone);
    fault := Count(!ok);
  }

  /** os.Rename of a file: replaces the target in one step. */
  method MoveFile(source: Option<string>, target: Option<string>)
    returns (ok: bool, source': Option<string>, target': Option<string>, ghost fault: nat)
    ensures ok ==> source.Some? && source'.None? && target' == source
    ensures !ok ==> source' == source && target' == target
    ensures fault == Count(!ok && source.Some?)
  {
    var done: bool := *;
    ok := done && source.Some?;
    source', target' := if ok then None else source, if ok then source else target;
    fault := Count(!ok && source.Some?);
  }

  /** os.Rename of a directory: refused when the target exists. */
  method MoveTree(source: Option<Files>, target: Option<Files>)
    returns (ok: bool, source': Option<Files>, target': Option<Files>, ghost fault: nat)
    ensures ok ==> source.Some? && target.None? && source'.None? && target' == source
    ensures !ok ==> source' == source && target' == target
    ensures fault == Count(!ok && source.Some? && target.None?)
  {
    var done: bool := *;
    ok := done && source.Some? && target.None?;
    source', target' := if ok then None else source, if ok then source else target;
    fault := Count(!ok && source.Some? && target.None?);
  }

  class Installation {
    var live: Release
    var backup: Release
    var version: Option<string>        // metadata.json of the backup
    var newBinary: Option<string>
    var newWeb: Option<Files>
    var newHelper: Option<string>
    var aside: Option<Files>           // the replaced web tree, until the operation ends
    var targetWeb: Option<Files>       // the same two for a manual rollback
    var preRollback: Option<Files>
    var current: Release               // what a manual rollback may have to return to
    var running: bool
    ghost var acts: seq<Act>           // every visible command, in their order
    ghost var faults: nat              // commands that failed although they could have succeeded
    ghost var scraps: nat              // clean-ups that failed; these failures are ignored

    constructor (live: Release)
      ensures this.live == live && backup == NOTHING && newHelper.None?
    {
      this.live, backup, version, current := live, NOTHING, None, NOTHING;
      newBinary, newWeb, newHelper, aside, running := None, None, None, None, true;
      targetWeb, preRollback, acts, faults, scraps := None, None, [], 0, 0;
    }

    // -------------------------------------------------------------- one command

    method Copy(source: Option<string>, target: Option<string>) returns (ok: bool, out: Option<string>)
      modifies this`faults
      ensures ok ==> source.Some? && out == source
      ensures faults == old(faults) + Count(!ok && source.Some?)
    {
      ghost var fault;
      ok, out, fault := CopyFile(source, target);
      faults := faults + fault;
    }

    method CopyWhole(source: Option<Files>, target: Option<Files>) returns (ok: bool, out: Option<Files>)
      modifies this`faults
      ensures ok ==> source.Some? && out == Some(Merged(target, source.value))
      ensures faults == old(faults) + Count(!ok && source.Some?)
    {
      ghost var fault;
      ok, out, fault := CopyTree(source, target);
      faults := faults + fault;
    }

    /** os.RemoveAll whose failure is ignored. */
    method CleanUp(tree: Option<Files>) returns (out: Option<Files>)
      modifies this`scraps
      ensures out.Some? ==> tree.Some? && out.value.Keys <= tree.value.Keys
      ensures scraps >= old(scraps) + Count(out.Some?)
    {
      var ok;
      ghost var fault;
      ok, out, fault := RemoveAll(tree);
      scraps := scraps + fault;
    }

    method Systemctl(up: bool) returns (ok: bool)
      modifies this`running, this`acts, this`faults
      ensures ok ==> running == up
      ensures faults == old(faults) + Count(!ok)
      ensures acts == old(acts) + [if up then StartService else StopService]
    {
      var done, said: bool := *, *;
      if done { running := up; }
      ok := done && said;
      faults, acts := faults + Count(!ok), acts + [if up then StartService else StopService];
    }

    /** waitActive: the service may go down meanwhile, but nobody else starts it. */
    method WaitActive() returns (ok: bool)
      modifies this`running, this`acts, this`faults
      ensures ok ==> running
      ensures running ==> old(running)
      ensures faults == old(faults) + Count(!ok && old(running)) && acts == old(acts) + [SeeActive]
    {
      var up: bool := *;
      faults, acts := faults + Count(!up && running), acts + [SeeActive];
      running := running && up;
      ok := running;
    }

    /** A file goes over the live binary. */
    method RenameBinary(source: Option<string>) returns (ok: bool, left: Option<string>)
      modifies this`live, this`acts, this`faults
      ensures live == if ok then old(live).(binary := source) else old(live)
      ensures ok ==> source.Some?
      ensures faults == old(faults) + Count(!ok && source.Some?) && acts == old(acts) + [SwapBinary]
    {
      var into;
      ghost var fault;
      ok, left, into, fault := MoveFile(source, live.binary);
      live, faults, acts := live.(binary := into), faults + fault, acts + [SwapBinary];
    }

    method RenameHelper(source: Option<string>) returns (ok: bool, left: Option<string>)
      modifies this`live, this`acts, this`faults
      ensures live == if ok then old(live).(helper := source) else old(live)
      ensures left == if ok then None else source
      ensures ok ==> source.Some?
      ensures faults == old(faults) + Count(!ok && source.Some?) && acts == old(acts) + [SwapHelper]
    {
      var into;
      ghost var fault;
      ok, left, into, fault := MoveFile(source, live.helper);
      live, faults, acts := live.(helper := into), faults + fault, acts + [SwapHelper];
    }

    /** The live web tree goes to a place that must be free. */
    method SetWebAside(place: Option<Files>) returns (ok: bool, place': Option<Files>)
      modifies this`live, this`acts, this`faults
      ensures ok ==> old(live).web.Some? && place.None? && live == old(live).(web := None) && place' == old(live).web
      ensures !ok ==> live == old(live) && place' == place
      ensures faults == old(faults) + Count(!ok && old(live).web.Some? && place.None?)
      ensures acts == old(acts) + [WebAside]
    {
      var web;
      ghost var fault;
      ok, web, place', fault := MoveTree(live.web, place);
      live, faults, acts := live.(web := web), faults + fault, acts + [WebAside];
    }

    /** A tree becomes the live web tree, whose place must be free. */
    method PutWebIn(tree: Option<Files>) returns (ok: bool, left: Option<Files>)
      modifies this`live, this`acts, this`faults
      ensures ok ==> tree.Some? && old(live).web.None? && live == old(live).(web := tree) && left.None?
      ensures !ok ==> live == old(live) && left == tree
      ensures faults == old(faults) + Count(!ok && tree.Some? && old(live).web.None?)
      ensures acts == old(acts) + [WebIn]
    {
      var web;
      ghost var fault;
      ok, left, web, fault := MoveTree(tree, live.web);
      live, faults, acts := live.(web := web), faults + fault, acts + [WebIn];
    }

    // ----------------------------------------------------------- the compensation

    /** A copy next to the live binary, then a rename over it. */
    method PutBinary(source: Option<string>) returns (ok: bool)
      modifies this`live, this`acts, this`faults
      ensures live == if ok then old(live).(binary := source) else old(live)
      ensures old(faults) <= faults && (ok <==> faults == old(faults) && source.Some?)
      ensures acts == old(acts) + [SwapBinary]
    {
      var tmp;
      ok, tmp := Copy(source, None);
      if ok {
        ok, tmp := RenameBinary(tmp);
      } else {
        acts := acts + [SwapBinary];
      }
    }

    /** The same for the helper. */
    method PutHelper(source: Option<string>) returns (ok: bool)
      modifies this`live, this`acts, this`faults
      ensures live == if ok then old(live).(helper := source) else old(live)
      ensures old(faults) <= faults && (ok <==> faults == old(faults) && source.Some?)
      ensures acts == old(acts) + [SwapHelper]
    {
      var tmp;
      ok, tmp := Copy(source, None);
      if ok {
        ok, tmp := RenameHelper(tmp);
      } else {
        acts := acts + [SwapHelper];
      }
    }

    /** The web tree: what was set aside, or else the saved copy. What was set aside is not lost. */
    method PutWeb(saved: Option<Files>, aside: Option<Files>) returns (ok: bool, left: Option<Files>)
      modifies this`live, this`acts, this`faults
      ensures live == old(live).(web := live.web)
      ensures ok ==> left.None? && live.web == if aside.Some? then aside else saved
      ensures left == aside || (left.None? && live.web == aside)
      ensures old(faults) <= faults && (ok <==> faults == old(faults) && (aside.Some? || saved.Some?))
      ensures acts == old(acts) + [ClearWeb, if aside.Some? then WebIn else CopyWeb]
    {
      left := aside;
      var clean, web;
      ghost var fault;
      clean, web, fault := RemoveAll(live.web);
      live, faults, acts := live.(web := web), faults + fault, acts + [ClearWeb];
      if aside.Some? {
        ok, left := PutWebIn(aside);
      } else {
        ok, web := CopyWhole(saved, live.web);
        live, acts := live.(web := web), acts + [CopyWeb];
      }
      ok := ok && clean;
    }

    /** Back to `saved`; every step is taken whether or not the others succeed, so that each part
        that does not come back has a failure of its own. `whole`: every part came back. */
    method Restore(saved: Release, aside: Option<Files>) returns (whole: bool, left: Option<Files>)
      modifies this`live, this`running, this`acts, this`faults
      ensures whole ==> running && left.None?
      ensures whole ==> live == Release(saved.binary, if aside.Some? then aside else saved.web,
                                        if saved.helper.Some? then saved.helper else old(live).helper)
      ensures old(faults) <= faults && (left == aside || (left.None? && live.web == aside))
      ensures saved.binary.Some? && (aside.Some? || saved.web.Some?) ==>
        && Missing(live, running, saved.(web := if aside.Some? then aside else saved.web)) <= faults - old(faults)
        && (faults == old(faults) ==> whole)
      ensures acts == old(acts) + Compensation(aside.Some?, saved.helper.Some?)
    {
      var down := Systemctl(false);
      whole := PutBinary(saved.binary);
      var ok;
      ok, left := PutWeb(saved.web, aside);
      whole := whole && ok;
      if saved.helper.Some? {
        ok := PutHelper(saved.helper);
        whole := whole && ok;
      }
      ok := Systemctl(true);
      whole := whole && ok;
    }

    // ------------------------------------------------------------------ the install

    /** The backup of everything the bundle replaces. */
    method SaveLive(bundle: Release, currentVersion: Option<string>) returns (ok: bool)
      modifies this`backup, this`version, this`faults
      ensures ok ==> backup == SavedBy(live, bundle).(helper := None)
      ensures ok ==> version == currentVersion
      ensures old(faults) <= faults && (ok <==> faults == old(faults) && live.binary.Some? && live.web.Some?)
    {
      var gone: bool := *;
      if !gone {
        backup := *;
        version := *;
        faults := faults + 1;
        return false;
      }
      backup, version := NOTHING, None;
      var binary, web;
      ok, binary := Copy(live.binary, None);
      backup := backup.(binary := binary);
      if !ok { return; }
      ok, web := CopyWhole(live.web, None);
      backup := backup.(web := web);
      if !ok { return; }
      if currentVersion.Some? {
        ok, version := Copy(currentVersion, None);
      }
    }

    /** The new files next to the live ones. `leftWeb`: what a failed, ignored clean-up of an
        earlier run left where the new web tree is staged. */
    method StageBundle(bundle: Release) returns (ok: bool, ghost leftWeb: Option<Files>)
      modifies this`newBinary, this`newWeb, this`newHelper, this`aside, this`backup, this`faults, this`scraps
      ensures backup == old(backup).(helper := backup.helper)
      ensures old(aside).None? ==> aside.None?
      ensures old(newWeb).None? ==> leftWeb.None?
      ensures ok ==> newBinary == bundle.binary && bundle.web.Some? && newWeb == Some(Merged(leftWeb, bundle.web.value))
      ensures ok ==> newHelper == if bundle.helper.Some? then bundle.helper else old(newHelper)
      ensures ok ==> backup.helper == if bundle.helper.Some? then live.helper else old(backup).helper
      ensures ok ==> scraps >= old(scraps) + Count(leftWeb.Some?) + Count(aside.Some?)
      ensures scraps >= old(scraps) + Count(leftWeb.Some?) && old(faults) <= faults
      ensures ok <==>
        faults == old(faults) && bundle.binary.Some? && bundle.web.Some? && (bundle.helper.Some? ==> live.helper.Some?)
    {
      leftWeb := None;
      ok, newBinary := Copy(bundle.binary, newBinary);
      if !ok { return; }
      newWeb := CleanUp(newWeb);
      aside := CleanUp(aside);
      leftWeb := newWeb;
      ok, newWeb := CopyWhole(bundle.web, newWeb);
      if !ok { return; }
      if bundle.helper.Some? {
        var kept;
        ok, kept := Copy(live.helper, backup.helper);
        backup := backup.(helper := kept);
        if !ok { return; }
        ok, newHelper := Copy(bundle.helper, newHelper);
      }
    }

    /** Binary and web tree go live, the service comes up, then the staged helper goes live. A
        single failure leaves some web tree live, unless it is that of the way back. */
    method Replace(bundle: Release) returns (ok: bool, helperUpdated: bool)
      requires newBinary == bundle.binary
      modifies this`live, this`newBinary, this`newWeb, this`newHelper, this`aside, this`running, this`acts, this`faults
      ensures ok ==> running && live.binary == bundle.binary && live.web == old(newWeb)
      ensures ok ==> live.helper == if old(newHelper).Some? then old(newHelper) else old(live).helper
      ensures ok ==> newHelper.None? && helperUpdated == old(newHelper).Some?
      ensures !ok ==> aside == old(live).web || aside == old(aside)
      ensures !ok ==> live.helper == old(live).helper || (old(newHelper).Some? && live.helper == old(newHelper))
      ensures old(aside).Some? ==> !ok && aside == old(aside)
      ensures !ok && faults <= old(faults) + 1 && old(newWeb).Some? ==>
        live.web == old(live).web || live.web == old(newWeb)
      ensures old(faults) <= faults
      ensures ok <==>
        faults == old(faults) && bundle.binary.Some? && old(live).web.Some? && old(newWeb).Some? && old(aside).None?
      ensures ok ==> acts == old(acts) + (EXCHANGE + HelperIn(old(newHelper).Some?))
    {
      helperUpdated := false;
      var back;
      ok, newBinary := RenameBinary(newBinary);
      if !ok { return; }
      ok, aside := SetWebAside(aside);
      if !ok { return; }
      ok, newWeb := PutWebIn(newWeb);
      if !ok {
        back, aside := PutWebIn(aside);
        return;
      }
      ok := Systemctl(true);
      if !ok { return; }
      ok := WaitActive();
      if !ok { return; }
      assert acts == old(acts) + EXCHANGE;
      if newHelper.Some? {
        ok, newHelper := RenameHelper(newHelper);
        if !ok { return; }
        ok := Chmod();
        helperUpdated := ok;
      }
    }

    method Chmod() returns (ok: bool)
      modifies this`acts, this`faults
      ensures faults == old(faults) + Count(!ok) && acts == old(acts) + [ChmodHelper]
    {
      ok := *;
      faults, acts := faults + Count(!ok), acts + [ChmodHelper];
    }

    /** From the stop on: the replacement, or its compensation. */
    method ReplaceOrRestore(bundle: Release) returns (ok: bool, helperUpdated: bool, ghost whole: bool)
      requires newBinary == bundle.binary && newWeb.Some? && Installable(live, bundle)
        && backup == SavedBy(live, bundle)
      requires bundle.helper.Some? ==> newHelper == bundle.helper
      modifies this`live, this`newBinary, this`newWeb, this`newHelper, this`aside, this`running, this`acts, this`faults
      modifies this`scraps
      ensures ok ==> running && newHelper.None? && helperUpdated == old(newHelper).Some?
      ensures ok ==>
        live == Release(bundle.binary, old(newWeb), if old(newHelper).Some? then old(newHelper) else old(live).helper)
      ensures !ok && whole ==> running && live.binary == old(live).binary
      ensures !ok && whole ==> live.web == if old(aside).Some? then old(aside) else old(live).web
      ensures !ok && whole && live.helper != old(live).helper ==>
        bundle.helper.None? && old(newHelper).Some? && live.helper == old(newHelper)
      ensures old(faults) <= faults && old(scraps) <= scraps
      ensures ok <==> faults == old(faults) && old(aside).None?
      ensures !ok && faults <= old(faults) + Count(old(aside).None?) ==> whole
      ensures ok ==> acts == old(acts) + (EXCHANGE + HelperIn(helperUpdated))
      ensures !ok ==> exists setAside: bool :: EndsIn(acts, Compensation(setAside, bundle.helper.Some?))
    {
      whole := true;
      ok, helperUpdated := Replace(bundle);
      if ok {
        aside := CleanUp(aside);
      } else {
        EndsHere(acts, Compensation(aside.Some?, backup.helper.Some?));
        whole, aside := Restore(backup, aside);
      }
    }

    /** performInstall. `begun`: the service was stopped. `whole`: the compensation, if any,
        succeeded. `leftWeb`, `leftAside`: leftovers of earlier runs that could not be removed.
        It succeeds exactly when everything is there, nothing is left over where the web tree is set
        aside, and nothing fails; and one failure, wherever it is, is compensated whole. */
    method Install(bundle: Release, currentVersion: Option<string>)
      returns (ok: bool, helperUpdated: bool, ghost begun: bool, ghost whole: bool,
               ghost leftWeb: Option<Files>, ghost leftAside: Option<Files>)
      modifies this
      ensures ok ==> bundle.web.Some? && begun && leftAside.None? && running
      ensures ok ==> live == Installed(old(live), old(newHelper),
        bundle.(web := Some(Merged(leftWeb, bundle.web.value))))
      ensures ok ==> version == currentVersion && newHelper.None?
      ensures ok ==> helperUpdated == (bundle.helper.Some? || old(newHelper).Some?)
      ensures targetWeb == old(targetWeb) && preRollback == old(preRollback)
      ensures begun ==> backup == SavedBy(old(live), bundle) && Installable(old(live), bundle)
      ensures !begun ==> !ok && live == old(live)
      ensures !ok && begun && whole ==> running && live.binary == old(live).binary
      ensures !ok && begun && whole ==> live.web == if leftAside.Some? then leftAside else old(live).web
      ensures !ok && begun && whole && live.helper != old(live).helper ==>
        StaleHelper(old(live), old(newHelper), bundle) && live.helper == old(newHelper)
      ensures old(aside).None? ==> leftAside.None?
      ensures old(newWeb).None? ==> leftWeb.None?
      ensures old(faults) <= faults && scraps >= old(scraps) + Count(leftWeb.Some?)
      ensures ok ==> faults == old(faults)
      ensures faults == old(faults) && leftAside.None? ==> ok == Installable(old(live), bundle)
      ensures scraps == old(scraps) ==> leftAside.None?
      ensures !ok && !begun && faults == old(faults) ==> running == old(running)
      ensures !ok && begun && faults <= old(faults) + Count(leftAside.None?) ==> whole
      ensures ok ==> acts == old(acts) + ([StopService] + (EXCHANGE + HelperIn(helperUpdated)))
      ensures !ok && begun ==> exists setAside: bool :: EndsIn(acts, Compensation(setAside, bundle.helper.Some?))
    {
      helperUpdated, begun, whole, leftWeb, leftAside := false, false, true, None, None;
      ok := SaveLive(bundle, currentVersion);
      if !ok { return; }
      ok, leftWeb := StageBundle(bundle);
      if !ok { return; }
      ok := Systemctl(false);
      if !ok { return; }
      begun, leftAside := true, aside;
      ok, helperUpdated, whole := ReplaceOrRestore(bundle);
    }

    // ------------------------------------------------------------ manual rollback

    /** Everything live, for the way back. */
    method SaveCurrent() returns (ok: bool)
      modifies this`current, this`faults
      ensures ok ==> current == live
      ensures old(faults) <= faults && (ok <==> faults == old(faults) && live.binary.Some? && live.web.Some?)
    {
      var gone: bool := *;
      if !gone {
        current := *;
        faults := faults + 1;
        return false;
      }
      current := NOTHING;
      var binary, web, helper;
      ok, binary := Copy(live.binary, None);
      current := current.(binary := binary);
      if !ok { return; }
      ok, web := CopyWhole(live.web, None);
      current := current.(web := web);
      if !ok { return; }
      if live.helper.Some? {
        ok, helper := Copy(live.helper, None);
        current := current.(helper := helper);
      }
    }

    /** The saved release, copied next to the live one. */
    method StageSaved() returns (ok: bool, target: Release, ghost leftWeb: Option<Files>)
      modifies this`targetWeb, this`preRollback, this`faults, this`scraps
      ensures old(preRollback).None? ==> preRollback.None?
      ensures leftWeb.Some? ==> old(targetWeb).Some? && leftWeb.value.Keys <= old(targetWeb).value.Keys
      ensures ok ==> backup.web.Some? && targetWeb == Some(Merged(leftWeb, backup.web.value))
      ensures ok ==> target == Release(backup.binary, None, backup.helper)
      ensures scraps >= old(scraps) + Count(leftWeb.Some?) + Count(preRollback.Some?) && old(faults) <= faults
      ensures ok <==> faults == old(faults) && backup.binary.Some? && backup.web.Some?
    {
      target := NOTHING;
      var binary, helper;
      targetWeb := CleanUp(targetWeb);
      preRollback := CleanUp(preRollback);
      leftWeb := targetWeb;
      ok, binary := Copy(backup.binary, None);
      if !ok { return; }
      ok, targetWeb := CopyWhole(backup.web, targetWeb);
      if !ok { return; }
      target := target.(binary := binary);
      if backup.helper.Some? {
        ok, helper := Copy(backup.helper, None);
        target := target.(helper := helper);
      }
    }

    /** The exchange itself; after a failure of its first step nothing has changed, and the
        service is started again. */
    method PutSaved(target: Release) returns (ok: bool, touched: bool)
      requires target.binary.Some?
      modifies this`live, this`targetWeb, this`preRollback, this`running, this`acts, this`faults
      ensures ok ==> touched && running && live.binary == target.binary && live.web == old(targetWeb)
      ensures ok ==> live.helper == if target.helper.Some? then target.helper else old(live).helper
      ensures if touched then live.binary == target.binary else !ok && live == old(live)
      ensures !ok ==> live.helper == old(live).helper
      ensures preRollback == old(live).web || preRollback == old(preRollback)
      ensures old(preRollback).Some? ==> !ok && preRollback == old(preRollback)
      ensures old(faults) <= faults && (!touched ==> faults > old(faults))
      ensures !touched ==> acts == old(acts) + [SwapBinary, StartService] && (faults == old(faults) + 1 ==> running)
      ensures ok <==>
        faults == old(faults) && old(live).web.Some? && old(targetWeb).Some? && old(preRollback).None?
      ensures ok ==> acts == old(acts) + (EXCHANGE + Helped(target.helper.Some?))
    {
      touched := false;
      var from;
      ok, from := RenameBinary(target.binary);
      if !ok {
        var up := Systemctl(true);
        return;
      }
      touched := true;
      ok, preRollback := SetWebAside(preRollback);
      if !ok { return; }
      ok, targetWeb := PutWebIn(targetWeb);
      if !ok { return; }
      ok := Systemctl(true);
      if !ok { return; }
      ok := WaitActive();
      if !ok { return; }
      assert acts == old(acts) + EXCHANGE;
      if target.helper.Some? {
        ok, from := RenameHelper(target.helper);
      }
    }

    /** From the stop on: the exchange, or its compensation. */
    method PutOrRestore(target: Release) returns (ok: bool, touched: bool, ghost whole: bool)
      requires target.binary.Some? && targetWeb.Some? && current == live && live.binary.Some? && live.web.Some?
      modifies this`live, this`targetWeb, this`preRollback, this`current, this`running, this`acts, this`faults,
        this`scraps
      ensures ok ==> touched && running
      ensures ok ==>
        live == Release(target.binary, old(targetWeb), if target.helper.Some? then target.helper else old(live).helper)
      ensures !touched ==> !ok && live == old(live) && whole
      ensures !ok && touched && whole ==>
        running && live == old(live).(web := if old(preRollback).Some? then old(preRollback) else old(live).web)
      ensures old(faults) <= faults && old(scraps) <= scraps
      ensures ok <==> faults == old(faults) && old(preRollback).None?
      ensures !ok && faults <= old(faults) + Count(old(preRollback).None?) ==> whole && running
      ensures ok ==> acts == old(acts) + (EXCHANGE + Helped(target.helper.Some?))
      ensures !ok && touched ==>
        exists setAside: bool :: EndsIn(acts, Compensation(setAside, old(live).helper.Some?))
      ensures !touched ==> acts == old(acts) + [SwapBinary, StartService]
    {
      whole := true;
      ok, touched := PutSaved(target);
      if ok {
        preRollback := CleanUp(preRollback);
        current := *;
      } else if touched {
        EndsHere(acts, Compensation(preRollback.Some?, current.helper.Some?));
        whole, preRollback := Restore(current, preRollback);
      }
    }

    /** performManualRollback. `stopped`: the service was; `begun`: the live files were touched.
        It succeeds exactly when the backup is complete, there is something to return to, nothing
        is left over where the web tree is set aside, and nothing fails; and one failure after the
        stop leaves the service running, on everything as it was. */
    method RollBack()
      returns (ok: bool, helperUpdated: bool, ghost stopped: bool, ghost begun: bool, ghost whole: bool,
               ghost leftWeb: Option<Files>, ghost leftAside: Option<Files>)
      modifies this
      ensures backup == old(backup) && version == old(version) && newHelper == old(newHelper)
      ensures ok ==> backup.web.Some? && begun && leftAside.None? && running
      ensures ok ==> live == RolledBack(old(live), backup.(web := Some(Merged(leftWeb, backup.web.value))))
      ensures ok ==> helperUpdated == backup.helper.Some?
      ensures !Revertible(old(live), backup, version) ==> !ok && !stopped && running == old(running)
      ensures !begun ==> !ok && live == old(live)
      ensures begun ==> stopped
      ensures !ok && begun && whole ==>
        running && live == old(live).(web := if leftAside.Some? then leftAside else old(live).web)
      ensures old(preRollback).None? ==> leftAside.None?
      ensures leftWeb.Some? ==> old(targetWeb).Some? && leftWeb.value.Keys <= old(targetWeb).value.Keys
      ensures old(faults) <= faults && scraps >= old(scraps) + Count(leftWeb.Some?)
      ensures ok ==> faults == old(faults)
      ensures faults == old(faults) && leftAside.None? ==> ok == Revertible(old(live), backup, version)
      ensures scraps == old(scraps) ==> leftAside.None?
      ensures !ok && !stopped && faults == old(faults) ==> running == old(running)
      ensures !ok && stopped && faults <= old(faults) + Count(leftAside.None?) ==> whole && running
      ensures ok ==> acts == old(acts) + ([StopService] + (EXCHANGE + Helped(helperUpdated)))
      ensures !ok && begun ==>
        exists setAside: bool :: EndsIn(acts, Compensation(setAside, old(live).helper.Some?))
      ensures stopped && !begun ==> acts == old(acts) + [StopService, SwapBinary, StartService]
    {
      ok, helperUpdated, stopped, begun, whole, leftWeb, leftAside := false, false, false, false, true, None, None;
      if version.None? || backup.binary.None? || backup.web.None? { return; }
      ok := SaveCurrent();
      if !ok { return; }
      var target;
      ok, target, leftWeb := StageSaved();
      if !ok { return; }
      ok := Systemctl(false);
      if !ok { return; }
      stopped, leftAside := true, preRollback;
      ok, begun, whole := PutOrRestore(target);
      helperUpdated := ok && target.helper.Some?;
    }

    // ------------------------------------------------------- one after the other

    /** An install that succeeded, and the manual rollback of it. When both succeed the release
        before the install is live again, exactly when neither a staged helper nor a file of a
        staged web tree was left over from earlier runs. Both do succeed, unless something fails
        by itself, exactly when the bundle is complete and the version it replaces is known. */
    method InstallThenRollBack(bundle: Release, currentVersion: Option<string>)
      returns (ok: bool, ghost leftWeb: Option<Files>)
      modifies this
      ensures ok ==> old(live).web.Some? && running && backup == SavedBy(old(live), bundle)
      ensures ok ==> live.binary == old(live).binary && live.web == Some(Merged(leftWeb, old(live).web.value))
      ensures ok ==> (live == old(live) <==>
                        && !StaleHelper(old(live), old(newHelper), bundle)
                        && (leftWeb.None? || leftWeb.value.Keys <= old(live).web.value.Keys))
      ensures leftWeb.Some? ==> old(targetWeb).Some? && leftWeb.value.Keys <= old(targetWeb).value.Keys
      ensures faults == old(faults) && scraps == old(scraps) ==>
        leftWeb.None? && ok == (Installable(old(live), bundle) && currentVersion.Some?)
      ensures ok ==> faults == old(faults)
    {
      leftWeb := None;
      var helperUpdated;
      ghost var stopped, begun, whole, staged, aside;
      ok, helperUpdated, begun, whole, staged, aside := Install(bundle, currentVersion);
      if !ok { return; }
      ok, helperUpdated, stopped, begun, whole, leftWeb, aside := RollBack();
      if !ok { return; }
      RollbackUndoesInstallExactly(old(live), old(newHelper), bundle, leftWeb);
    }
  }
}

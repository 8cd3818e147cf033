/** Core's side: the registry row, the order in which Core calls the helper, and
    the sessions in which everything above is put together. */
module FrigateCore {
  import opened Faults
  import opened FrigateWorld
  import opened FrigateRuns
  import opened FrigateHelper

  // ------------------------------------------- arbitrary requests to the helper

  datatype Request =
    | InstallRequest(image: Image)
    | UpgradeRequest(image: Image, previousImage: Image)
    | CommitRequest(image: Image, previousImage: Image)
    | RollbackRequest(image: Image, previousImage: Image)
    | StartRequest
    | StopRequest
    | RestartRequest
    | RemoveRequest
    | RecoverRequest(image: Image)

  predicate MayInstall(w: World, image: Image) {
    && (w.journal.None? || (w.journal.value.phase.Committed? && w.journal.value.newImage == image))
    && (w.main.None? || (Has(w.main, image) && w.config.Some?))
  }

  predicate MayLive(w: World) {
    w.journal.None? || w.journal.value.phase.Committed?
  }

  predicate MayUpgrade(w: World, previousImage: Image) {
    && Has(w.main, previousImage) && w.main.value.running
    && if w.journal.Some? then CommitEnabled(previousImage, w.journal.value)
       else w.candidate.None? && w.previous.None?
  }

  predicate MayControl(w: World, start: bool) {
    OursAt(w, Main) && (start ==> MayLive(w) && w.config.Some?)
  }

  predicate MayRemove(w: World) {
    MayLive(w) && (w.main.None? || OursAt(w, Main))
  }

  predicate MayRecover(w: World, image: Image) {
    if w.journal.Some? then Recoverable(w, image) else Has(w.main, image)
  }

  /** When a request can succeed at all. */
  predicate Accepts(w: World, q: Request) {
    match q
    case InstallRequest(image) => MayInstall(w, image)
    case UpgradeRequest(image, previousImage) => image != previousImage && MayUpgrade(w, previousImage)
    case CommitRequest(image, previousImage) => Finishable(w, image, previousImage, true)
    case RollbackRequest(image, previousImage) => Finishable(w, image, previousImage, false)
    case StartRequest => MayControl(w, true)
    case StopRequest => MayControl(w, false)
    case RestartRequest => MayControl(w, true)
    case RemoveRequest => MayRemove(w)
    case RecoverRequest(image) => MayRecover(w, image)
  }

  /** What a request is for. */
  predicate Served(q: Request, w: World) {
    match q
    case InstallRequest(image) => Has(w.main, image) && HealthyMain(w)
    case UpgradeRequest(image, previousImage) =>
      w.previous.Some? && SwappedWith(w, previousImage, image, w.previous.value.id)
    case CommitRequest(image, _) =>
      Has(w.main, image) && w.previous.None? && w.journal.Some? && w.journal.value.phase.Committed?
    case RollbackRequest(_, previousImage) => RolledBack(w, previousImage) && HealthyMain(w)
    case StartRequest => HealthyMain(w)
    case StopRequest => OursAt(w, Main) && !w.main.value.running
    case RestartRequest => HealthyMain(w)
    case RemoveRequest => w.main.None?
    case RecoverRequest(image) => Has(w.main, image)
  }

  method Serve(h: FrigateHost, q: Request) returns (r: Reply)
    requires h.Valid() && !h.disciplined
    modifies h
    ensures h.Valid() && h.Onward()
    ensures h.faults == old(h.faults) ==> r == if Accepts(old(h.w), q) then Success else Error
    ensures r.Success? ==> Served(q, h.w)
    ensures r.Success? && (q.StartRequest? || q.StopRequest? || q.RestartRequest?) ==>
      h.done == Looked(Controlling(Twice(old(h.done)), !q.StartRequest?, !q.StopRequest?))
  {
    if q.UpgradeRequest? || q.CommitRequest? || q.RollbackRequest? || q.RecoverRequest? {
      r := ServeUpgrade(h, q);
    } else {
      r := ServeLifecycle(h, q);
    }
  }

  method ServeUpgrade(h: FrigateHost, q: Request) returns (r: Reply)
    requires h.Valid() && !h.disciplined
    requires q.UpgradeRequest? || q.CommitRequest? || q.RollbackRequest? || q.RecoverRequest?
    modifies h
    ensures h.Valid() && h.Onward()
    ensures h.faults == old(h.faults) ==> r == if Accepts(old(h.w), q) then Success else Error
    ensures r.Success? ==> Served(q, h.w)
  {
    ghost var back;
    match q {
      case UpgradeRequest(image, previousImage) => r, back := h.Upgrade(image, previousImage);
      case CommitRequest(image, previousImage) => r, back := h.FinishUpgrade(image, previousImage, true);
      case RollbackRequest(image, previousImage) => r, back := h.FinishUpgrade(image, previousImage, false);
      case RecoverRequest(image) => r := h.RecoverRegistered(image);
    }
  }

  method ServeLifecycle(h: FrigateHost, q: Request) returns (r: Reply)
    requires h.Valid() && !h.disciplined
    requires q.InstallRequest? || q.StartRequest? || q.StopRequest? || q.RestartRequest? || q.RemoveRequest?
    modifies h
    ensures h.Valid() && h.Onward()
    ensures h.faults == old(h.faults) ==> r == if Accepts(old(h.w), q) then Success else Error
    ensures r.Success? ==> Served(q, h.w)
    ensures r.Success? && (q.StartRequest? || q.StopRequest? || q.RestartRequest?) ==>
      h.done == Looked(Controlling(Twice(old(h.done)), !q.StartRequest?, !q.StopRequest?))
  {
    ghost var back;
    match q {
      case InstallRequest(image) => r, back := h.Install(image);
      case StartRequest => r, back := h.Control(false, true);
      case StopRequest => r, back := h.Control(true, false);
      case RestartRequest => r, back := h.Control(true, true);
      case RemoveRequest => r := h.RemoveModule();
    }
  }

  /** Whatever is requested in whatever order, with whatever images, faults and crashes: every
      state the host passes through is safe. Each request is answered from where the one before
      it has led (`from`): success has done what was asked, and if nothing goes wrong by itself,
      whatever can succeed does. */
  method ServeAll(h: FrigateHost, requests: seq<Request>) returns (answers: seq<Reply>, ghost from: seq<World>)
    requires h.Valid() && !h.disciplined
    modifies h
    ensures h.Valid() && old(h.trace) <= h.trace && |h.trace| > 0 && h.trace[|h.trace| - 1] == h.w
    ensures forall i :: 0 <= i < |h.trace| ==> Safe(h.trace[i])
    ensures |answers| == |requests| && |from| == |requests| + 1 && from[0] == old(h.w) && from[|requests|] == h.w
    ensures forall i :: 0 <= i < |requests| && answers[i].Success? ==> Served(requests[i], from[i + 1])
    ensures h.faults == old(h.faults) ==>
      forall i :: 0 <= i < |requests| ==> answers[i] == if Accepts(from[i], requests[i]) then Success else Error
  {
    answers, from := [], [h.w];
    for i := 0 to |requests|
      invariant h.Valid() && old(h.trace) <= h.trace && old(h.faults) <= h.faults
      invariant |answers| == i && |from| == i + 1 && from[0] == old(h.w) && from[i] == h.w
      invariant forall j :: 0 <= j < i && answers[j].Success? ==> Served(requests[j], from[j + 1])
      invariant h.faults == old(h.faults) ==>
        forall j :: 0 <= j < i ==> answers[j] == if Accepts(from[j], requests[j]) then Success else Error
    {
      var r := Serve(h, requests[i]);
      answers, from := answers + [r], from + [h.w];
    }
    h.AlwaysSafe();
    assert Key(h.w);
  }

  // ------------------------------------------------------- Core and its registry

  datatype CoreRequest =
    | CoreInstall(image: Image)
    | CoreUpgrade(image: Image)
    | CoreRecover
    | CoreControl(stop: bool, start: bool)
    | CoreRemove

  /** When a request to Core can succeed at all. */
  predicate CoreAccepts(w: World, q: CoreRequest) {
    match q
    case CoreInstall(image) =>
      if w.row.None? then MayInstall(w, image)
      else w.row.value.image == image && (w.row.value.confirmed || MayInstall(w, image))
    case CoreUpgrade(image) =>
      w.row.Some? && w.row.value.confirmed && w.row.value.image != image && MayUpgrade(w, w.row.value.image)
    case CoreRecover => w.row.Some? && MayRecover(w, w.row.value.image)
    case CoreControl(_, start) => w.row.Some? && MayControl(w, start)
    case CoreRemove => w.row.Some? && MayRemove(w)
  }

  /** What a request to Core is for; `before`: the row it found. */
  predicate CoreServed(q: CoreRequest, before: Option<Row>, w: World) {
    match q
    case CoreInstall(image) => w.row == Some(Row(image, true))
    case CoreUpgrade(image) => w.row == Some(Row(image, true))
    case CoreRecover => before.Some? && Has(w.main, before.value.image)
    case CoreControl(stop, start) =>
      && before.Some? && w.row == Some(before.value.(confirmed := true))
      && (start ==> HealthyMain(w)) && (stop && !start ==> !Running(w.main))
    case CoreRemove => w.row.None?
  }

  /** One registry write. The store is transactional: an error reply means that nothing was
      written, while a crash leaves it open. */
  method WriteRow(h: FrigateHost, row: Option<Row>) returns (r: Reply)
    requires h.Valid() && (h.disciplined ==> Agree(h.w.(row := row)))
    modifies h
    ensures h.Valid() && h.Progress()
    ensures Disturbs(old(h.w).(row := h.w.row), h.w)
    ensures r.Success? ==> h.w.row == row
    ensures r.Error? ==> h.w.row == old(h.w).row
    ensures h.w.row == row || h.w.row == old(h.w).row
    ensures h.faults == old(h.faults) ==> SameContainers(old(h.w), h.w)
    ensures h.faults == old(h.faults) ==> r.Success?
  {
    if h.events != [] && h.events[0].outcome.FailedAfter? {
      h.events := [h.events[0].(outcome := FailedBefore)] + h.events[1..];
    }
    ghost var pre;
    r, pre := h.Exec(SetRow(row));
  }

  /** Registry.UpgradeManifest: the row moves only after the helper replied success; a
      failed write is answered by a rollback, a successful one by the commit. */
  method UpgradeManifest(h: FrigateHost, image: Image) returns (r: Reply)
    requires h.Valid() && h.disciplined
    modifies h
    ensures h.Valid() && h.Progress()
    ensures r.Success? ==> h.w.row == Some(Row(image, true))
    ensures !r.Success? ==> h.w.row == old(h.w).row || h.w.row == Some(Row(image, true))
    ensures r.Success? && h.faults == old(h.faults) && old(h.w).journal.None? ==>
      h.w.journal.Some? && h.w.journal.value.phase.Committed?
    ensures h.steady && old(h.w).journal.None? && old(h.w).row.Some? && r.Error? && h.faults <= old(h.faults) + 1 ==>
      Running(old(h.w).main) && Has(old(h.w).main, old(h.w).row.value.image) ==>
        h.w.row == old(h.w).row && Running(h.w.main) && Has(h.w.main, old(h.w).row.value.image)
    ensures h.faults == old(h.faults) && old(h.w).journal.None? ==>
      r == (if && old(h.w).row.Some? && old(h.w).row.value.confirmed && old(h.w).row.value.image != image
               && Has(old(h.w).main, old(h.w).row.value.image) && old(h.w).main.value.running
               && old(h.w).candidate.None? && old(h.w).previous.None? then Success else Error)
    ensures h.faults == old(h.faults) ==> r == if CoreAccepts(old(h.w), CoreUpgrade(image)) then Success else Error
    ensures old(h.w).row.None? ==> r.Error? && h.w == old(h.w)
  {
    if h.w.row.None? || !h.w.row.value.confirmed || h.w.row.value.image == image { return Error; }
    var previousImage := h.w.row.value.image;
    ghost var back;
    r, back := h.Upgrade(image, previousImage);
    if !r.Success? { return; }
    r := WriteRow(h, Some(Row(image, true)));
    if r.Error? {
      var undone;
      undone, back := h.FinishUpgrade(image, previousImage, false);
      return if undone.Crash? then Crash else Error;
    }
    if r.Success? {
      var finished;
      finished, back := h.FinishUpgrade(image, previousImage, true);
      r := if finished.Crash? then Crash else Success;
    }
  }

  /** Registry.InstallManifest: the intent is recorded before the helper is called, and in no
      state of the run is there a container of the module without a row. `intent`: a state of
      this call that has the unconfirmed row and no container yet. */
  method InstallManifest(h: FrigateHost, image: Image) returns (r: Reply, ghost intent: nat)
    requires h.Valid() && h.disciplined
    modifies h
    ensures h.Valid() && h.Progress()
    ensures r.Success? ==> h.w.row == Some(Row(image, true))
    ensures r.Success? && old(h.w).row.None? ==>
      && |old(h.trace)| <= intent < |h.trace|
      && h.trace[intent].row == Some(Row(image, false)) && !OursAt(h.trace[intent], Main)
    ensures forall k :: 0 <= k < |h.trace| && OursAt(h.trace[k], Main) ==> h.trace[k].row.Some?
    ensures h.faults == old(h.faults) && old(h.w).row.None? && old(h.w).main.None? && old(h.w).journal.None? ==>
      r.Success?
    ensures old(h.w).row.Some? && old(h.w).row.value.image != image ==> r.Error? && h.w == old(h.w)
    ensures h.faults == old(h.faults) ==> r == if CoreAccepts(old(h.w), CoreInstall(image)) then Success else Error
    ensures old(h.w).row == Some(Row(image, true)) ==> r.Success? && h.w == old(h.w)
  {
    intent := 0;
    r, intent := InstallRecorded(h, image);
    h.AlwaysSafe();
  }

  method InstallRecorded(h: FrigateHost, image: Image) returns (r: Reply, ghost intent: nat)
    requires h.Valid() && h.disciplined
    modifies h
    ensures h.Valid() && h.Progress()
    ensures r.Success? ==> h.w.row == Some(Row(image, true))
    ensures r.Success? && old(h.w).row.None? ==>
      && |old(h.trace)| <= intent < |h.trace|
      && h.trace[intent].row == Some(Row(image, false)) && !OursAt(h.trace[intent], Main)
    ensures h.faults == old(h.faults) && old(h.w).row.None? && old(h.w).main.None? && old(h.w).journal.None? ==>
      r.Success?
    ensures old(h.w).row.Some? && old(h.w).row.value.image != image ==> r.Error? && h.w == old(h.w)
    ensures h.faults == old(h.faults) ==> r == if CoreAccepts(old(h.w), CoreInstall(image)) then Success else Error
    ensures old(h.w).row == Some(Row(image, true)) ==> r.Success? && h.w == old(h.w)
  {
    intent := 0;
    h.Facts();
    if h.w.row.Some? {
      if h.w.row.value.image != image { return Error, intent; }
      if h.w.row.value.confirmed { return Success, intent; }
    } else {
      r := WriteRow(h, Some(Row(image, false)));
      if !r.Success? { return; }
      h.Facts();
      intent := |h.trace| - 1;
    }
    r := InstallAndConfirm(h, image);
  }

  /** The helper's install, and the confirmation of the row. */
  method InstallAndConfirm(h: FrigateHost, image: Image) returns (r: Reply)
    requires h.Valid() && h.disciplined && h.w.row.Some? && h.w.row.value.image == image
    modifies h
    ensures h.Valid() && h.Progress()
    ensures r.Success? ==> h.w.row == Some(Row(image, true))
    ensures h.faults == old(h.faults) && old(h.w).main.None? && old(h.w).journal.None? ==> r.Success?
    ensures h.faults == old(h.faults) ==> r == if MayInstall(old(h.w), image) then Success else Error
  {
    ghost var first;
    r, first := h.Install(image);
    if !r.Success? { return; }
    h.Facts();
    r := WriteRow(h, Some(Row(image, true)));
  }

  /** Registry.Control with "recover_upgrade". */
  method RecoverUpgrade(h: FrigateHost) returns (r: Reply)
    requires h.Valid() && h.disciplined
    modifies h
    ensures h.Valid() && h.Onward()
    ensures r.Success? ==> old(h.w).row.Some? && Has(h.w.main, old(h.w).row.value.image)
    ensures old(h.w).row.None? ==> r.Error? && h.w == old(h.w)
    ensures h.faults == old(h.faults) && old(h.w).row.Some? && old(h.w).journal.Some? ==>
      r == (if old(Recoverable(h.w, h.w.row.value.image)) then Success else Error)
    ensures h.faults == old(h.faults) ==> r == if CoreAccepts(old(h.w), CoreRecover) then Success else Error
  {
    if h.w.row.None? { return Error; }
    r := h.RecoverRegistered(h.w.row.value.image);
  }

  /** Registry.Control with "enable", "disable" and "restart". */
  method ControlModule(h: FrigateHost, stop: bool, start: bool) returns (r: Reply)
    requires h.Valid() && h.disciplined
    modifies h
    ensures h.Valid() && h.Progress()
    ensures r.Success? ==> old(h.w).row.Some? && h.w.row == Some(old(h.w).row.value.(confirmed := true))
    ensures !r.Success? ==> h.w.row == old(h.w).row || (h.w.row.Some? && h.w.row.value.confirmed)
    ensures r.Success? && start ==> HealthyMain(h.w)
    ensures h.faults == old(h.faults) ==>
      r == (if && old(h.w).row.Some? && OursAt(old(h.w), Main)
               && (start ==> old(h.LifecycleAllowed()) && old(h.w).config.Some?) then Success else Error)
    ensures r.Success? && stop && !start ==> !Running(h.w.main)
    ensures old(h.w).row.None? ==> r.Error? && h.w == old(h.w)
  {
    if h.w.row.None? { return Error; }
    ghost var down;
    r, down := h.Control(stop, start);
    if !r.Success? { return; }
    h.Facts();
    r := WriteRow(h, Some(h.w.row.value.(confirmed := true)));
  }

  /** Registry.Remove: the row goes after the container. */
  method RemoveManifest(h: FrigateHost) returns (r: Reply)
    requires h.Valid() && h.disciplined
    modifies h
    ensures h.Valid() && h.Progress()
    ensures r.Success? ==> h.w.row.None?
    ensures !r.Success? && h.w.row != old(h.w).row ==> h.w.row.None? && h.w.main.None?
    ensures h.faults == old(h.faults) ==>
      r == (if old(h.w).row.Some? && old(h.LifecycleAllowed()) && (old(h.w).main.None? || OursAt(old(h.w), Main))
            then Success else Error)
    ensures old(h.w).row.None? ==> r.Error? && h.w == old(h.w)
  {
    if h.w.row.None? { return Error; }
    r := h.RemoveModule();
    if !r.Success? { return; }
    r := WriteRow(h, None);
  }

  /** Whatever Core is asked to do, with whatever faults and crashes on both sides: at every
      moment the host is safe, registry and journal agree, and a crash at that moment leaves an
      upgrade that can be reconciled, unless it is inside a window or the new container is down.
      Success has done what was asked, and if nothing goes wrong by itself, whatever can succeed
      does. */
  method Administer(h: FrigateHost, requests: seq<CoreRequest>) returns (answers: seq<Reply>, ghost from: seq<World>)
    requires h.Valid() && h.disciplined
    modifies h
    ensures h.Valid() && old(h.trace) <= h.trace && |h.trace| > 0 && h.trace[|h.trace| - 1] == h.w
    ensures forall i :: 0 <= i < |h.trace| ==> Safe(h.trace[i]) && Agree(h.trace[i])
    ensures forall i :: 0 <= i < |h.trace| && Interrupted(h.trace[i]) ==>
      Recoverable(h.trace[i], h.trace[i].row.value.image) || Stuck(h.trace[i], h.trace[i].row.value)
    ensures |answers| == |requests| && |from| == |requests| + 1 && from[0] == old(h.w) && from[|requests|] == h.w
    ensures forall i :: 0 <= i < |requests| && answers[i].Success? ==> CoreServed(requests[i], from[i].row, from[i + 1])
    ensures h.faults == old(h.faults) ==>
      forall i :: 0 <= i < |requests| ==> answers[i] == if CoreAccepts(from[i], requests[i]) then Success else Error
  {
    answers, from := [], [h.w];
    for i := 0 to |requests|
      invariant h.Valid() && old(h.trace) <= h.trace && old(h.faults) <= h.faults
      invariant |answers| == i && |from| == i + 1 && from[0] == old(h.w) && from[i] == h.w
      invariant forall j :: 0 <= j < i && answers[j].Success? ==> CoreServed(requests[j], from[j].row, from[j + 1])
      invariant h.faults == old(h.faults) ==>
        forall j :: 0 <= j < i ==> answers[j] == if CoreAccepts(from[j], requests[j]) then Success else Error
    {
      var r := AdministerOne(h, requests[i]);
      answers, from := answers + [r], from + [h.w];
    }
    h.AlwaysSafe();
    h.AlwaysReconcilable();
    assert Key(h.w);
  }

  method AdministerOne(h: FrigateHost, q: CoreRequest) returns (r: Reply)
    requires h.Valid() && h.disciplined
    modifies h
    ensures h.Valid() && h.Progress()
    ensures h.faults == old(h.faults) ==> r == if CoreAccepts(old(h.w), q) then Success else Error
    ensures r.Success? ==> CoreServed(q, old(h.w).row, h.w)
  {
    match q {
      case CoreInstall(image) =>
        ghost var intent;
        r, intent := InstallManifest(h, image);
      case CoreUpgrade(image) => r := UpgradeManifest(h, image);
      case CoreRecover => r := RecoverUpgrade(h);
      case CoreControl(stop, start) => r := ControlModule(h, stop, start);
      case CoreRemove => r := RemoveManifest(h);
    }
  }

  // ------------------------------------------------- when recovery is impossible

  /** The committed container can be down for good: after the registry has moved to the new image but before the
      commit, the always-admitted stop makes recovery impossible, and a start is refused. */
  lemma StopStrandsCommit(w: World)
    requires Inv(w) && Agree(w) && w.row.Some? && w.row.value.confirmed && w.journal.Some?
    requires w.journal.value.phase.Swapped? && w.row.value.image == w.journal.value.newImage
    requires Has(w.main, w.journal.value.newImage)
    ensures Permitted(Stop(Main), w) && KeepsAgreement(Stop(Main), w)
    ensures Running(w.main) ==> Recoverable(w, w.row.value.image)
    ensures !Recoverable(Apply(Stop(Main), w), w.row.value.image)
    ensures Pending(Apply(Stop(Main), w))
  {
  }

  /** An intent for another image over a retained, committed journal makes the refusing last
      branch of the reconciliation reachable: commit, remove, install something else. */
  lemma StrayIntentIsRefused(w: World, image: Image)
    requires Inv(w) && Agree(w) && w.row.None? && w.journal.Some? && image != w.journal.value.newImage
    ensures KeepsAgreement(SetRow(Some(Row(image, false))), w)
    ensures var v := Apply(SetRow(Some(Row(image, false))), w);
            !CommitEnabled(image, v.journal.value) && !RollbackEnabled(image, v.journal.value)
  {
  }

  // --------------------------------------------------------- runs that get there

  /** A run from `first` to `last` in which registry and journal always agree. */
  ghost predicate AgreedRun(t: seq<World>, first: World, last: World) {
    IsRun(t) && t[0] == first && t[|t| - 1] == last && Inv(last) && forall i :: 0 <= i < |t| ==> Agree(t[i])
  }

  /** One more permitted command of such a run. */
  lemma Go(t: seq<World>, c: Command) returns (u: seq<World>)
    requires |t| > 0 && AgreedRun(t, t[0], t[|t| - 1])
    requires Permitted(c, t[|t| - 1]) && Possible(c, t[|t| - 1]) && KeepsAgreement(c, t[|t| - 1])
    ensures AgreedRun(u, t[0], Apply(c, t[|t| - 1]))
  {
    var w := t[|t| - 1];
    CommandKeepsInv(c, w);
    CommandKeepsAgreement(c, w);
    RunGrows(t, Apply(c, w));
    u := t + [Apply(c, w)];
  }

  /** The first upgrade of an installation from `a` to `b`, on empty configurations: its stages. */
  function Stage(main: Option<Container>, candidate: Option<Container>, previous: Option<Container>, writers: set<nat>,
                 backup: Option<Tree>, journal: Option<Journal>, healthy: set<nat>, row: Image, touched: nat): World {
    World(main, candidate, previous, Some(Tree(map[], writers)), [], backup, journal, 2, 1, healthy,
          Some(Row(row, true)), Closed, touched)
  }

  function Old(a: Image, running: bool): Option<Container> {
    Some(Container(0, a, running, true))
  }

  function New(b: Image, running: bool): Option<Container> {
    Some(Container(1, b, running, true))
  }

  function Kept(): Option<Tree> {
    Some(Tree(map[], {0}))
  }

  function Begun(a: Image): World {
    World(Old(a, true), None, None, Kept(), [], None, None, 1, 0, {}, Some(Row(a, true)), Closed, 0)
  }

  function Staged(a: Image, b: Image): World {
    Stage(Old(a, false), New(b, false), None, {0}, None, Some(Journal(a, b, Prepared, None)), {}, a, 0)
  }

  function Frozen(a: Image, b: Image): World {
    Stage(Old(a, false), New(b, false), None, {0}, Kept(), Some(Journal(a, b, Snapshotted, Some(map[]))), {}, a, 0)
  }

  function Proven(a: Image, b: Image): World {
    Stage(Old(a, false), New(b, true), None, {0} + {1}, Kept(), Some(Journal(a, b, Snapshotted, Some(map[]))), {1}, a,
      1)
  }

  function Moved(a: Image, b: Image): World {
    Stage(New(b, true), None, Old(a, false), {0} + {1}, Kept(), Some(Journal(a, b, Swapped, Some(map[]))), {1}, b, 1)
  }

  function Ended(a: Image, b: Image): World {
    Stage(New(b, true), None, None, {0} + {1}, Kept(), Some(Journal(a, b, Committed, Some(map[]))), {1}, b, 1)
  }

  lemma RunToStaged(a: Image, b: Image) returns (t: seq<World>)
    requires a != b
    ensures AgreedRun(t, Begun(a), Staged(a, b))
  {
    t := [Begun(a)];
    t := Go(t, Create(Candidate, b));
    t := Go(t, Command.WriteJournal(Journal(a, b, Prepared, None)));
    t := Go(t, Stop(Main));
  }

  lemma RunToFrozen(a: Image, b: Image) returns (t: seq<World>)
    requires a != b
    ensures AgreedRun(t, Begun(a), Frozen(a, b))
  {
    t := RunToStaged(a, b);
    t := Go(t, MakeBackup);
    t := Go(t, FillBackup);
    t := Go(t, Command.WriteJournal(Journal(a, b, Snapshotted, Some(map[]))));
  }

  lemma RunToProven(a: Image, b: Image) returns (t: seq<World>)
    requires a != b
    ensures AgreedRun(t, Begun(a), Proven(a, b))
  {
    t := RunToFrozen(a, b);
    t := Go(t, Start(Candidate));
    t := Go(t, Probe(Candidate));
    assert {} + {1} == {1};
  }

  lemma RunToMoved(a: Image, b: Image) returns (t: seq<World>)
    requires a != b
    ensures AgreedRun(t, Begun(a), Moved(a, b))
  {
    t := RunToProven(a, b);
    t := Go(t, Rename(Main, Previous));
    t := Go(t, Rename(Candidate, Main));
    t := Go(t, Command.WriteJournal(Journal(a, b, Swapped, Some(map[]))));
    t := Go(t, SetRow(Some(Row(b, true))));
  }

  lemma RunToEnded(a: Image, b: Image) returns (t: seq<World>)
    requires a != b
    ensures AgreedRun(t, Begun(a), Ended(a, b))
  {
    t := RunToMoved(a, b);
    t := Go(t, Remove(Previous, false));
    t := Go(t, Command.WriteJournal(Journal(a, b, Committed, Some(map[]))));
  }

  /** Upgrade, registry write, stop: a run of Core's own commands, for any two images, to an
      upgrade that can be neither committed nor rolled back. */
  lemma StrandedIsReached(a: Image, b: Image) returns (t: seq<World>, w: World)
    requires a != b
    ensures AgreedRun(t, Begun(a), w)
    ensures w.row == Some(Row(b, true)) && Pending(w) && w.window.Closed? && !Recoverable(w, b)
  {
    t := RunToMoved(a, b);
    StopStrandsCommit(Moved(a, b));
    t := Go(t, Stop(Main));
    w := Apply(Stop(Main), Moved(a, b));
  }

  /** A crash between the two renames of a restore: the configuration is set aside, and neither
      branch of the reconciliation can do without it. */
  lemma RestoreWindowIsReached(a: Image, b: Image) returns (t: seq<World>, w: World)
    requires a != b
    ensures AgreedRun(t, Begun(a), w) && w.row == Some(Row(a, true))
    ensures Pending(w) && w.window.ConfigAside? && !Recoverable(w, a)
  {
    t := RunToFrozen(a, b);
    t := Go(t, SetAside);
    w := t[|t| - 1];
  }

  /** The rollback of the frozen upgrade, up to the healthy old container. */
  function Back(a: Image, b: Image): World {
    Stage(Old(a, true), None, None, {} + {0}, Kept(), Some(Journal(a, b, Snapshotted, Some(map[]))), {0}, a, 3)
    .(failed := [Tree(map[], {0})])
  }

  lemma RunToBack(a: Image, b: Image) returns (t: seq<World>)
    requires a != b
    ensures AgreedRun(t, Begun(a), Back(a, b))
  {
    t := RunToFrozen(a, b);
    t := Go(t, SetAside);
    t := Go(t, Adopt(Tree(map[], {})));
    t := Go(t, Remove(Candidate, true));
    t := Go(t, Start(Main));
    t := Go(t, Probe(Main));
    assert [] + [Tree(map[], {0})] == [Tree(map[], {0})] && {} + {0} == {0};
  }

  /** A crash between the two removals of a clearing: the backup is gone, the journal still
      wants it back. */
  lemma ClearingWindowIsReached(a: Image, b: Image) returns (t: seq<World>, w: World)
    requires a != b
    ensures AgreedRun(t, Begun(a), w) && w.row == Some(Row(a, true))
    ensures Pending(w) && w.window.BackupGoing? && w.backup.None? && !Recoverable(w, a)
  {
    t := RunToBack(a, b);
    t := Go(t, DropBackup);
    w := t[|t| - 1];
  }

  /** A crash between the creation of the candidate and its journal: a container that nothing
      accounts for holds the staging name, and keeps every later upgrade from success. */
  lemma OrphanIsReached(a: Image, b: Image) returns (t: seq<World>, w: World)
    requires a != b
    ensures AgreedRun(t, Begun(a), w) && w.row == Some(Row(a, true))
    ensures w.journal.None? && w.candidate.Some? && Running(w.main)
  {
    t := [Begun(a)];
    t := Go(t, Create(Candidate, b));
    w := t[|t| - 1];
  }

  /** Upgrade, commit, remove, intent for another image: a run to the refusing last branch. */
  lemma RefusalIsReached(a: Image, b: Image, other: Image) returns (t: seq<World>, w: World)
    requires a != b && other != b
    ensures AgreedRun(t, Begun(a), w)
    ensures w.journal.Some? && w.row == Some(Row(other, false))
    ensures !CommitEnabled(other, w.journal.value) && !RollbackEnabled(other, w.journal.value)
  {
    t := RunToEnded(a, b);
    t := Go(t, Remove(Main, true));
    t := Go(t, SetRow(None));
    t := Go(t, SetRow(Some(Row(other, false))));
    w := t[|t| - 1];
  }
}

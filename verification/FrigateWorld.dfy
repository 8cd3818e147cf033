/** The host a Frigate upgrade works on, the commands the helper may issue
    against it, the protocol that says which command is allowed when, and the
    invariant every run of the protocol keeps. */
module FrigateWorld {
  import opened Faults

  /** The three container names of the module. */
  datatype Place = Main | Candidate | Previous

  /** `ours`: the labels, profile and mounts are the reviewed ones. */
  datatype Container = Container(id: nat, image: Image, running: bool, ours: bool)

  datatype Phase = Prepared | Snapshotted | Swapped | Committed

  datatype Journal = Journal(oldImage: Image, newImage: Image, phase: Phase, snapshot: Option<Content>)

  /** Core's registry row: the image of the manifest, and whether an installation
      of it was ever confirmed (a mere "registered" intent is not). */
  datatype Row = Row(image: Image, confirmed: bool)

  /** Which replacement has been begun and not ended. This is the history of the run, not
      something on the host: `ConfigAside` from the first rename of a restore to the second,
      `BackupGoing` from the first removal of a clearing to the last. */
  datatype Window = Closed | ConfigAside | BackupGoing

  datatype World = World(
    main: Option<Container>,
    candidate: Option<Container>,
    previous: Option<Container>,
    config: Option<Tree>,
    failed: seq<Tree>,          // failed-config-* directories, oldest first
    backup: Option<Tree>,
    journal: Option<Journal>,
    nextId: nat,
    stagedId: nat,              // identity of the last container created under the candidate name
    healthy: set<nat>,          // identities that have passed a health check
    row: Option<Row>,
    window: Window,
    touched: nat)               // how often config was moved, or put under a started container: history as well

  function At(w: World, p: Place): Option<Container> {
    match p
    case Main => w.main
    case Candidate => w.candidate
    case Previous => w.previous
  }

  function Put(w: World, p: Place, c: Option<Container>): World {
    match p
    case Main => w.(main := c)
    case Candidate => w.(candidate := c)
    case Previous => w.(previous := c)
  }

  predicate Running(c: Option<Container>) {
    c.Some? && c.value.ours && c.value.running
  }

  predicate AnyRunning(w: World) {
    Running(w.main) || Running(w.candidate) || Running(w.previous)
  }

  predicate Has(c: Option<Container>, image: Image) {
    c.Some? && c.value.ours && c.value.image == image
  }

  // ---------------------------------------------------------------- safety

  predicate SingleWriter(w: World) {
    && !(Running(w.main) && Running(w.candidate))
    && !(Running(w.main) && Running(w.previous))
    && !(Running(w.candidate) && Running(w.previous))
  }

  /** While an upgrade is journaled, a running container of the old image sits on
      data that the upgrade's candidate has never run on. */
  predicate NoOldOnMigrated(w: World) {
    w.journal.Some? ==>
      forall p :: Has(At(w, p), w.journal.value.oldImage) && Running(At(w, p))
                  ==> w.config.Some? && w.stagedId !in w.config.value.writers
  }

  /** While the journal says "prepared" the candidate has not been started, and the
      old container is still under its own name. */
  predicate PreparedUntouched(w: World) {
    w.journal.Some? && w.journal.value.phase.Prepared? ==>
      && !Running(w.candidate)
      && Has(w.main, w.journal.value.oldImage)
      && (w.config.Some? ==> w.stagedId !in w.config.value.writers)
  }

  /** A backup directory never outlives its journal, and never holds data of the candidate. */
  predicate BackupJournaled(w: World) {
    && (w.journal.None? ==> w.backup.None?)
    && (w.journal.Some? && !w.journal.value.phase.Committed? && w.backup.Some?
        ==> w.stagedId !in w.backup.value.writers)
  }

  /** The journal says "swapped" only after the new container passed its health check. */
  predicate SwappedHealthy(w: World) {
    w.journal.Some? && w.journal.value.phase.Swapped? ==> w.stagedId in w.healthy
  }

  /** A pending upgrade can always go back: outside of the two windows the configuration is
      there, and the backup that the journal vouches for is intact; with the configuration set
      aside it is kept, and so is that backup; while the backup is being removed the old
      container is already back, healthy, on a configuration. */
  predicate WayBack(w: World) {
    Pending(w) ==> WindowShape(w, w.journal.value)
  }

  predicate Safe(w: World) {
    && SingleWriter(w) && NoOldOnMigrated(w) && PreparedUntouched(w) && BackupJournaled(w) && SwappedHealthy(w)
    && WayBack(w)
  }

  // ------------------------------------------------------------- invariant

  predicate IdsBelow(ids: set<nat>, n: nat) {
    forall i :: i in ids ==> i < n
  }

  predicate IdBelow(c: Option<Container>, n: nat) {
    c.Some? ==> c.value.id < n
  }

  predicate DistinctIds(a: Option<Container>, b: Option<Container>) {
    a.Some? && b.Some? ==> a.value.id != b.value.id
  }

  predicate Identities(w: World) {
    && IdBelow(w.main, w.nextId) && IdBelow(w.candidate, w.nextId) && IdBelow(w.previous, w.nextId)
    && DistinctIds(w.main, w.candidate) && DistinctIds(w.main, w.previous) && DistinctIds(w.candidate, w.previous)
    && (w.config.Some? ==> IdsBelow(w.config.value.writers, w.nextId))
    && (w.backup.Some? ==> IdsBelow(w.backup.value.writers, w.nextId))
  }

  predicate OldContainer(w: World, c: Option<Container>, j: Journal) {
    Has(c, j.oldImage) && c.value.id != w.stagedId
  }

  predicate NewContainer(w: World, c: Option<Container>, j: Journal) {
    Has(c, j.newImage) && c.value.id == w.stagedId
  }

  /** Between "prepared" and "committed". */
  predicate PendingShape(w: World, j: Journal) {
    && (w.main.Some? ==> OldContainer(w, w.main, j) || NewContainer(w, w.main, j))
    && (w.candidate.Some? ==> NewContainer(w, w.candidate, j))
    && (w.previous.Some? ==> OldContainer(w, w.previous, j))
    && !(Has(w.main, j.oldImage) && w.previous.Some?)
    && !(Has(w.main, j.newImage) && w.candidate.Some?)
    && (w.main.None? ==> w.previous.Some?)
    && (j.phase.Swapped? ==> w.stagedId in w.healthy)
    && (w.backup.Some? ==> w.stagedId !in w.backup.value.writers)
    && ((Has(w.main, j.oldImage) && Running(w.main)) || Running(w.previous)
        ==> w.config.Some? && w.stagedId !in w.config.value.writers)
    && (j.phase.Prepared? ==>
          && Has(w.main, j.oldImage) && !Running(w.candidate)
          && (w.config.Some? ==> w.stagedId !in w.config.value.writers))
  }

  predicate BackupIntact(w: World, snapshot: Option<Content>) {
    w.backup.Some? && snapshot == Some(w.backup.value.content)
  }

  /** The end of a rollback: the old container is back, healthy and alone, on a configuration. */
  predicate Returned(w: World, j: Journal) {
    && Has(w.main, j.oldImage) && w.main.value.id in w.healthy
    && w.candidate.None? && w.previous.None? && w.config.Some?
  }

  /** What a pending upgrade can go back to, outside of the two windows and inside of them. */
  predicate WindowShape(w: World, j: Journal) {
    match w.window
    case Closed => w.config.Some? && (j.phase.Prepared? || BackupIntact(w, j.snapshot))
    case ConfigAside => w.config.None? && |w.failed| > 0 && (j.phase.Prepared? || BackupIntact(w, j.snapshot))
    case BackupGoing => !j.phase.Prepared? && Returned(w, j)
  }

  predicate CommittedShape(w: World, j: Journal) {
    && w.window.Closed?
    && w.candidate.None? && w.previous.None?
    && (w.main.Some? ==> Has(w.main, j.newImage))
  }

  predicate QuietShape(w: World) {
    && w.window.Closed?
    && w.backup.None?
    && !Running(w.candidate)
    && !(w.previous.Some? && w.previous.value.ours)
  }

  predicate Inv(w: World) {
    && Identities(w)
    && SingleWriter(w)
    && (AnyRunning(w) ==> w.config.Some?)
    && match w.journal
       case None => QuietShape(w)
       case Some(j) =>
         && j.oldImage != j.newImage
         && (j.phase.Prepared? || j.snapshot.Some?)
         && if j.phase.Committed? then CommittedShape(w, j) else PendingShape(w, j) && WindowShape(w, j)
  }

  lemma InvIsSafe(w: World)
    requires Inv(w)
    ensures Safe(w)
  {
    if w.journal.Some? {
      forall p | Has(At(w, p), w.journal.value.oldImage) && Running(At(w, p))
        ensures w.config.Some? && w.stagedId !in w.config.value.writers
      {
        match p { case Main => case Candidate => case Previous => }
      }
    }
  }

  // ------------------------------------- what the outside world does meanwhile

  /** The same container, possibly no longer running. */
  predicate Aged(before: Option<Container>, after: Option<Container>) {
    && (before.None? <==> after.None?)
    && (before.Some? ==>
          && after.value == before.value.(running := after.value.running)
          && (after.value.running ==> before.value.running))
  }

  /** Containers may exit, and a running one may write its configuration at any time. */
  predicate Disturbs(w: World, v: World) {
    && v == w.(main := v.main, candidate := v.candidate, previous := v.previous, config := v.config)
    && Aged(w.main, v.main) && Aged(w.candidate, v.candidate) && Aged(w.previous, v.previous)
    && (w.config.None? <==> v.config.None?)
    && (w.config.Some? ==>
          && v.config.value.writers == w.config.value.writers
          && (AnyRunning(w) || v.config.value.content == w.config.value.content))
  }

  function AgedContainer(c: Option<Container>, exits: bool): Option<Container> {
    if c.Some? && exits then Some(c.value.(running := false)) else c
  }

  function Disturbed(w: World, exited: set<Place>, written: Content): (v: World)
    ensures Disturbs(w, v)
    ensures exited == {} ==> v.main == w.main && v.candidate == w.candidate && v.previous == w.previous
  {
    w.(main := AgedContainer(w.main, Main in exited),
       candidate := AgedContainer(w.candidate, Candidate in exited),
       previous := AgedContainer(w.previous, Previous in exited),
       config := if w.config.Some? && AnyRunning(w) then Some(w.config.value.(content := written)) else w.config)
  }

  /** No container runs, not even a foreign one. */
  predicate Idle(w: World) {
    && (w.main.Some? ==> !w.main.value.running)
    && (w.candidate.Some? ==> !w.candidate.value.running)
    && (w.previous.Some? ==> !w.previous.value.running)
  }

  lemma IdleStays(w: World, v: World)
    requires Disturbs(w, v)
    ensures Idle(w) ==> v == w
  {
  }

  lemma DisturbedAt(w: World, v: World, p: Place)
    requires Disturbs(w, v)
    ensures Aged(At(w, p), At(v, p))
  {
    match p { case Main => case Candidate => case Previous => }
  }

  lemma DisturbsCompose(u: World, v: World, w: World)
    requires Disturbs(u, v) && Disturbs(v, w)
    ensures Disturbs(u, w)
  {
  }

  predicate SameContainers(w: World, v: World) {
    w.main == v.main && w.candidate == v.candidate && w.previous == v.previous
  }

  predicate OursAt(w: World, p: Place) {
    At(w, p).Some? && At(w, p).value.ours
  }

  predicate OthersStopped(w: World, p: Place) {
    && (!p.Main? ==> !Running(w.main))
    && (!p.Candidate? ==> !Running(w.candidate))
    && (!p.Previous? ==> !Running(w.previous))
  }

  // ------------------------------------------------------------- commands

  datatype Command =
    | Look                                   // inspect, health probe, pull, file reads
    | Probe(place: Place)                    // a health check with the verdict "healthy"
    | Create(place: Place, image: Image)
    | Start(place: Place)
    | Stop(place: Place)
    | Remove(place: Place, force: bool)
    | Rename(source: Place, target: Place)
    | MakeStorage(initial: Content)            // first configuration directory
    | MakeBackup                             // mkdir upgrade-backup
    | FillBackup                             // complete, verified copy of config
    | SpoilBackup(left: Content)             // removal or copy interrupted half way
    | DropBackup
    | SetAside                               // rename config -> failed-config-N
    | PutBack                                // rename failed-config-N -> config
    | Adopt(tree: Tree)                      // rename .restore-N -> config
    | WriteJournal(next: Journal)
    | DropJournal
    | SetRow(value: Option<Row>)             // Core's registry write

  /** Docker and the file system refuse the command otherwise, without effect. */
  predicate Possible(c: Command, w: World) {
    match c
    case Probe(p) => At(w, p).Some? && At(w, p).value.running
    case Create(p, _) => At(w, p).None?
    case Start(p) => At(w, p).Some? && w.config.Some?
    case Stop(p) => At(w, p).Some?
    case Remove(p, force) => At(w, p).Some? && (force || !At(w, p).value.running)
    case Rename(p, q) => p != q && At(w, p).Some? && At(w, q).None?
    case MakeStorage(_) => w.config.None?
    case MakeBackup => w.backup.None?
    case FillBackup => w.backup.Some? && w.config.Some?
    case SetAside => w.config.Some?
    case PutBack => w.config.None? && |w.failed| > 0
    case Adopt(_) => w.config.None?
    case _ => true
  }

  function Created(w: World, p: Place, image: Image): World {
    Put(w, p, Some(Container(w.nextId, image, false, true)))
    .(nextId := w.nextId + 1, stagedId := if p.Candidate? then w.nextId else w.stagedId)
  }

  function Started(w: World, p: Place): World
    requires At(w, p).Some? && w.config.Some?
  {
    Put(w, p, Some(At(w, p).value.(running := true)))
    .(config := Some(w.config.value.(writers := w.config.value.writers + {At(w, p).value.id})),
      touched := w.touched + 1)
  }

  function Aside(w: World): World
    requires w.config.Some?
  {
    w.(config := None, failed := w.failed + [w.config.value], window := ConfigAside, touched := w.touched + 1)
  }

  /** Removing the backup of a snapshot opens the second window. */
  function Clearing(w: World): World {
    if Pending(w) && !w.journal.value.phase.Prepared? then w.(window := BackupGoing) else w
  }

  function BackupAfter(c: Command, w: World): Option<Tree> {
    if c.MakeBackup? then Some(Tree(map[], {}))
    else if c.FillBackup? then w.config
    else None
  }

  function Apply(c: Command, w: World): World {
    match c
    case Look => w
    case Probe(p) => if At(w, p).Some? then w.(healthy := w.healthy + {At(w, p).value.id}) else w
    case Create(p, image) => Created(w, p, image)
    case Start(p) => if At(w, p).Some? && w.config.Some? then Started(w, p) else w
    case Stop(p) => if At(w, p).Some? then Put(w, p, Some(At(w, p).value.(running := false))) else w
    case Remove(p, _) => Put(w, p, None)
    case Rename(p, q) => Put(Put(w, p, None), q, At(w, p))
    case MakeStorage(initial) => w.(config := Some(Tree(initial, {})), touched := w.touched + 1)
    case MakeBackup => w.(backup := BackupAfter(c, w))
    case FillBackup => w.(backup := BackupAfter(c, w))
    case SpoilBackup(left) =>
      if w.backup.Some? then Clearing(w).(backup := Some(w.backup.value.(content := left))) else Clearing(w)
    case DropBackup => Clearing(w).(backup := BackupAfter(c, w))
    case SetAside => if w.config.Some? then Aside(w) else w
    case PutBack =>
      if |w.failed| > 0 then
        w.(config := Some(w.failed[|w.failed| - 1]), failed := w.failed[..|w.failed| - 1], window := Closed,
           touched := w.touched + 1)
      else w
    case Adopt(tree) => w.(config := Some(tree), window := Closed, touched := w.touched + 1)
    case WriteJournal(j) => w.(journal := Some(j))
    case DropJournal => w.(journal := None, window := Closed)
    case SetRow(r) => w.(row := r)
  }

  predicate Pending(w: World) {
    w.journal.Some? && !w.journal.value.phase.Committed?
  }

  predicate Untainted(w: World, writers: set<nat>) {
    w.stagedId !in writers && IdsBelow(writers, w.nextId)
  }

  predicate MayWriteJournal(j: Journal, w: World) {
    && j.oldImage != j.newImage
    && (j.phase.Prepared? || j.snapshot.Some?)
    && match j.phase
       case Prepared =>
         && w.journal.None? && Has(w.main, j.oldImage) && OldContainer(w, w.main, j)
         && NewContainer(w, w.candidate, j) && w.previous.None?
         && w.config.Some? && Untainted(w, w.config.value.writers)
       case Committed =>
         && w.journal.Some? && w.journal.value.(phase := Committed, snapshot := j.snapshot) == j
         && Has(w.main, j.newImage) && w.main.value.id in w.healthy && w.candidate.None? && w.previous.None?
         && w.config.Some?
       case _ =>
         && BackupIntact(w, j.snapshot)
         && (j.phase.Swapped? ==> w.stagedId in w.healthy)
         && Pending(w) && w.journal.value.(phase := j.phase, snapshot := j.snapshot) == j
  }

  /** The old image never on migrated data, the new one never before the snapshot. */
  predicate MayStartPending(w: World, p: Place)
    requires w.journal.Some?
  {
    && (Has(At(w, p), w.journal.value.oldImage) && w.config.Some? ==> w.stagedId !in w.config.value.writers)
    && (Has(At(w, p), w.journal.value.newImage) ==> !w.journal.value.phase.Prepared?)
  }

  /** A journaled snapshot is kept until the rollback has brought the old container back. */
  predicate MayDropBackup(w: World) {
    Pending(w) ==> w.journal.value.phase.Prepared? || Returned(w, w.journal.value)
  }

  /** The protocol: when each command may be issued. */
  predicate Permitted(c: Command, w: World) {
    match c
    case Look => true
    case Probe(_) => true
    case Create(p, image) =>
      match p {
        case Main => w.journal.None? || (w.journal.value.phase.Committed? && image == w.journal.value.newImage)
        case Candidate => w.journal.None?
        case Previous => false
      }
    case Start(p) =>
      && At(w, p).Some? && At(w, p).value.ours
      && OthersStopped(w, p)
      && (if Pending(w) then MayStartPending(w, p) else p.Main?)
    case Stop(p) => At(w, p).Some? && At(w, p).value.ours
    case Remove(p, _) =>
      && At(w, p).Some? && At(w, p).value.ours
      && (Pending(w) && p.Main? ==> Has(w.main, w.journal.value.newImage) && w.previous.Some?)
      && (Pending(w) && p.Previous? ==> Has(w.main, w.journal.value.newImage))
    case Rename(p, q) =>
      && Pending(w)
      && match (p, q) {
           case (Main, Previous) =>
             Has(w.main, w.journal.value.oldImage) && !w.journal.value.phase.Prepared? && w.candidate.Some?
           case (Candidate, Main) => w.previous.Some?
           case (Previous, Main) => true
           case _ => false
         }
    case MakeStorage(_) => !Pending(w)
    case MakeBackup => Pending(w) && w.journal.value.phase.Prepared?
    case FillBackup => Pending(w) && w.journal.value.phase.Prepared? && w.config.Some?
      && w.stagedId !in w.config.value.writers
    case SpoilBackup(_) => w.journal.Some? && MayDropBackup(w)
    case DropBackup => MayDropBackup(w)
    case SetAside =>
      && Pending(w) && !AnyRunning(w)
      && (w.journal.value.phase.Prepared? || BackupIntact(w, w.journal.value.snapshot))
    case PutBack =>
      && Pending(w) && !AnyRunning(w) && |w.failed| > 0
      && (var t := w.failed[|w.failed| - 1];
          && IdsBelow(t.writers, w.nextId)
          && (w.journal.value.phase.Prepared? ==> w.stagedId !in t.writers))
    case Adopt(tree) => Pending(w) && !AnyRunning(w) && Untainted(w, tree.writers)
    case WriteJournal(j) => MayWriteJournal(j, w)
    case DropJournal =>
      && w.backup.None? && w.previous.None? && w.candidate.None?
      && (Pending(w) ==> Returned(w, w.journal.value))
    case SetRow(_) => true
  }

  // ------------------------------------------------- the invariant is inductive

  lemma DisturbanceKeepsInv(w: World, v: World)
    requires Inv(w) && Disturbs(w, v)
    ensures Inv(v)
  {
  }

  lemma DisturbanceKeepsPermission(c: Command, w: World, v: World)
    requires Permitted(c, w) && Disturbs(w, v)
    ensures Permitted(c, v)
  {
    match c {
      case Start(p) => match p { case Main => case Candidate => case Previous => }
      case _ =>
    }
  }

  lemma StartKeepsInv(p: Place, w: World)
    requires Inv(w) && Permitted(Start(p), w) && Possible(Start(p), w)
    ensures Inv(Apply(Start(p), w))
  {
    match p { case Main => case Candidate => case Previous => }
  }

  lemma CreateKeepsInv(p: Place, image: Image, w: World)
    requires Inv(w) && Permitted(Create(p, image), w) && Possible(Create(p, image), w)
    ensures Inv(Apply(Create(p, image), w))
  {
  }

  lemma RemoveKeepsInv(p: Place, force: bool, w: World)
    requires Inv(w) && Permitted(Remove(p, force), w)
    ensures Inv(Apply(Remove(p, force), w))
  {
    match p { case Main => case Candidate => case Previous => }
  }

  lemma RenameKeepsInv(p: Place, q: Place, w: World)
    requires Inv(w) && Permitted(Rename(p, q), w) && Possible(Rename(p, q), w)
    ensures Inv(Apply(Rename(p, q), w))
  {
    match (p, q) {
      case (Main, Previous) =>
      case (Candidate, Main) =>
      case (Previous, Main) =>
    }
  }

  lemma JournalKeepsInv(j: Journal, w: World)
    requires Inv(w) && MayWriteJournal(j, w)
    ensures Inv(w.(journal := Some(j)))
  {
  }

  lemma ConfigKeepsInv(c: Command, w: World)
    requires c.SetAside? || c.PutBack? || c.Adopt? || c.MakeStorage?
    requires Inv(w) && Permitted(c, w) && Possible(c, w)
    ensures Inv(Apply(c, w))
  {
  }

  lemma StopKeepsInv(p: Place, w: World)
    requires Inv(w)
    ensures Inv(Apply(Stop(p), w))
  {
    match p { case Main => case Candidate => case Previous => }
  }

  lemma BackupKeepsInv(c: Command, w: World)
    requires c.MakeBackup? || c.FillBackup? || c.SpoilBackup? || c.DropBackup? || c.DropJournal? || c.SetRow? || c.Look?
      || c.Probe?
    requires Inv(w) && Permitted(c, w) && Possible(c, w)
    ensures Inv(Apply(c, w))
  {
  }

  /** Every permitted command, on every world the invariant admits. */
  lemma CommandKeepsInv(c: Command, w: World)
    requires Inv(w) && Permitted(c, w) && Possible(c, w)
    ensures Inv(Apply(c, w))
  {
    if c.Start? { StartKeepsInv(c.place, w); }
    else if c.Stop? { StopKeepsInv(c.place, w); }
    else if c.Create? { CreateKeepsInv(c.place, c.image, w); }
    else if c.Rename? { RenameKeepsInv(c.source, c.target, w); }
    else if c.Remove? { RemoveKeepsInv(c.place, c.force, w); }
    else if c.WriteJournal? { JournalKeepsInv(c.next, w); }
    else if c.SetAside? || c.PutBack? || c.Adopt? || c.MakeStorage? { ConfigKeepsInv(c, w); }
    else { BackupKeepsInv(c, w); }
  }
}

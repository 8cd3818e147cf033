/** The host of the Home Assistant module: containers that keep their identity
    across renames, one configuration directory per generation, and the record of
    the active generation. */
module HomeAssistantWorld {
  import opened Faults

  datatype Place = Main | Candidate | Previous

  /** `ours`: labels, image, runtime profile and mounts are the fixed ones. */
  datatype Container = Container(id: nat, image: Image, dir: nat, running: bool, ours: bool)

  /** active.json and the backup-*.json files. */
  datatype Record = Record(image: Image, dir: nat)

  datatype World = World(
    main: Option<Container>,
    candidate: Option<Container>,
    previous: Option<Container>,
    content: map<nat, Content>,        // configuration generations
    writers: map<nat, set<nat>>,       // ... and the containers that have ever run on them
    active: Option<Record>,
    backups: seq<Record>,
    healthy: set<Record>,       // image/directory pairs that have passed a health check
    nextId: nat,
    nextDir: nat)

  function At(w: World, p: Place): Option<Container> {
    match p
    case Main => w.main
    case Candidate => w.candidate
    case Previous => w.previous
  }

  function Put(w: World, p: Place, c: Option<Container>): (v: World)
    ensures v == w.(main := v.main, candidate := v.candidate, previous := v.previous)
  {
    match p
    case Main => w.(main := c)
    case Candidate => w.(candidate := c)
    case Previous => w.(previous := c)
  }

  predicate Ours(c: Option<Container>) {
    c.Some? && c.value.ours
  }

  predicate Running(c: Option<Container>) {
    Ours(c) && c.value.running
  }

  function RecordOf(c: Container): Record {
    Record(c.image, c.dir)
  }

  /** Docker commands by container identity. */
  function Find(w: World, id: nat): Option<Place> {
    if w.main.Some? && w.main.value.id == id then Some(Main)
    else if w.candidate.Some? && w.candidate.value.id == id then Some(Candidate)
    else if w.previous.Some? && w.previous.value.id == id then Some(Previous)
    else None
  }

  // ---------------------------------------------------------------- safety

  /** At most one container of the module runs. */
  predicate Solo(w: World) {
    && !(Running(w.main) && Running(w.candidate))
    && !(Running(w.main) && Running(w.previous))
    && !(Running(w.candidate) && Running(w.previous))
  }

  predicate DistinctDirs(a: Option<Container>, b: Option<Container>) {
    Ours(a) && Ours(b) ==> a.value.dir != b.value.dir
  }

  /** No directory belongs to two containers, running or not. */
  predicate Exclusive(w: World) {
    DistinctDirs(w.main, w.candidate) && DistinctDirs(w.main, w.previous) && DistinctDirs(w.candidate, w.previous)
  }

  /** A container's data is confined to its own directory. */
  predicate Confined(w: World, c: Option<Container>) {
    Ours(c) ==>
      && c.value.id < w.nextId
      && c.value.dir in w.writers
      && forall d :: d in w.writers && c.value.id in w.writers[d] ==> d == c.value.dir
  }

  predicate Isolated(w: World) {
    Exclusive(w) && Confined(w, w.main) && Confined(w, w.candidate) && Confined(w, w.previous)
  }

  /** The record names an image/directory pair that has passed its health check. */
  predicate RecordHealthy(w: World) {
    w.active.Some? && w.active.value in w.healthy
  }

  // ------------------------------------------------------------- invariant

  predicate DistinctIds(a: Option<Container>, b: Option<Container>) {
    a.Some? && b.Some? ==> a.value.id != b.value.id
  }

  predicate Inv(w: World) {
    && Isolated(w)
    && DistinctIds(w.main, w.candidate) && DistinctIds(w.main, w.previous) && DistinctIds(w.candidate, w.previous)
    && (w.main.Some? ==> w.main.value.id < w.nextId)
    && (w.candidate.Some? ==> w.candidate.value.id < w.nextId)
    && (w.previous.Some? ==> w.previous.value.id < w.nextId)
    && w.content.Keys == w.writers.Keys
    && (forall d :: d in w.writers ==> d < w.nextDir)
    && (forall d, i :: d in w.writers && i in w.writers[d] ==> i < w.nextId)
    && !(Ours(w.main) && Ours(w.candidate) && Ours(w.previous))
    && (w.active.Some? ==> w.active.value.dir in w.writers)
    && (w.active.None? ==>
          && w.healthy == {} && !Ours(w.main) && !Ours(w.candidate) && !Ours(w.previous))
  }

  // ------------------------------------- what the outside world does meanwhile

  predicate Aged(before: Option<Container>, after: Option<Container>) {
    && (before.None? <==> after.None?)
    && (before.Some? ==>
          && after.value == before.value.(running := after.value.running)
          && (after.value.running ==> before.value.running))
  }

  predicate Mounted(w: World, d: nat) {
    || (Running(w.main) && w.main.value.dir == d)
    || (Running(w.candidate) && w.candidate.value.dir == d)
    || (Running(w.previous) && w.previous.value.dir == d)
  }

  /** The same host, except that containers may have exited and contents may have changed. */
  predicate Drifts(w: World, v: World) {
    && v == w.(main := v.main, candidate := v.candidate, previous := v.previous, content := v.content)
    && Aged(w.main, v.main) && Aged(w.candidate, v.candidate) && Aged(w.previous, v.previous)
  }

  /** Containers may exit; a running one may write its own directory. */
  predicate Disturbs(w: World, v: World) {
    && Drifts(w, v)
    && v.content.Keys == w.content.Keys
    && forall d :: d in w.content ==> v.content[d] == w.content[d] || Mounted(w, d)
  }

  function AgedContainer(c: Option<Container>, exits: bool): Option<Container> {
    if c.Some? && exits then Some(c.value.(running := false)) else c
  }

  function Disturbed(w: World, exited: set<Place>, written: Content): (v: World)
    ensures Disturbs(w, v)
    ensures exited == {} ==> SameContainers(w, v)
  {
    w.(main := AgedContainer(w.main, Main in exited),
       candidate := AgedContainer(w.candidate, Candidate in exited),
       previous := AgedContainer(w.previous, Previous in exited),
       content := map d | d in w.content :: if Mounted(w, d) then written else w.content[d])
  }

  predicate SameContainers(w: World, v: World) {
    w.main == v.main && w.candidate == v.candidate && w.previous == v.previous
  }

  // ------------------------------------------------------------- commands

  datatype Command =
    | Look
    | Probe(place: Place)                       // a health check with the verdict "healthy"
    | Create(place: Place, image: Image, dir: nat)
    | Start(place: Place)
    | Stop(place: Place)
    | Remove(place: Place)                      // without -f: refused while running
    | Rename(source: Place, target: Place)
    | MakeDir                                   // a fresh, empty configuration directory
    | FillDir(dir: nat, origin: nat)            // complete copy of another generation
    | WriteActive(record: Record)
    | WriteBackup(record: Record)

  predicate Possible(c: Command, w: World) {
    match c
    case Probe(p) => At(w, p).Some? && At(w, p).value.running
    case Create(p, _, _) => At(w, p).None?
    case Start(p) => At(w, p).Some?
    case Stop(p) => At(w, p).Some?
    case Remove(p) => At(w, p).Some? && !At(w, p).value.running
    case Rename(p, q) => p != q && At(w, p).Some? && At(w, q).None?
    case _ => true
  }

  function Started(w: World, p: Place): World
    requires At(w, p).Some? && At(w, p).value.dir in w.writers
  {
    var c := At(w, p).value;
    Put(w, p, Some(c.(running := true))).(writers := w.writers[c.dir := w.writers[c.dir] + {c.id}])
  }

  function Created(w: World, p: Place, image: Image, dir: nat): World {
    Put(w, p, Some(Container(w.nextId, image, dir, false, true))).(nextId := w.nextId + 1)
  }

  function Apply(c: Command, w: World): World {
    match c
    case Look => w
    case Probe(p) => if At(w, p).Some? then w.(healthy := w.healthy + {RecordOf(At(w, p).value)}) else w
    case Create(p, image, dir) => Created(w, p, image, dir)
    case Start(p) => if At(w, p).Some? && At(w, p).value.dir in w.writers then Started(w, p) else w
    case Stop(p) => if At(w, p).Some? then Put(w, p, Some(At(w, p).value.(running := false))) else w
    case Remove(p) => Put(w, p, None)
    case Rename(p, q) => Put(Put(w, p, None), q, At(w, p))
    case MakeDir =>
      w.(content := w.content[w.nextDir := map[]], writers := w.writers[w.nextDir := {}], nextDir := w.nextDir + 1)
    case FillDir(d, s) =>
      if s in w.content then w.(content := w.content[d := w.content[s]]) else w
    case WriteActive(r) => w.(active := Some(r))
    case WriteBackup(r) => w.(backups := w.backups + [r])
  }

  /** No container has the directory. */
  predicate Unused(w: World, d: nat) {
    && (Ours(w.main) ==> w.main.value.dir != d)
    && (Ours(w.candidate) ==> w.candidate.value.dir != d)
    && (Ours(w.previous) ==> w.previous.value.dir != d)
  }

  predicate OthersStopped(w: World, p: Place) {
    && (!p.Main? ==> !Running(w.main))
    && (!p.Candidate? ==> !Running(w.candidate))
    && (!p.Previous? ==> !Running(w.previous))
  }

  /** The protocol. `strict`: a start is issued only when no other container runs. */
  predicate Permitted(c: Command, w: World, strict: bool) {
    match c
    case Look => true
    case Probe(p) => Ours(At(w, p))
    case Create(p, _, dir) =>
      && w.active.Some? && dir in w.writers && Unused(w, dir)
      && (p.Main? ==> !Ours(w.candidate) && !Ours(w.previous))
      && (p.Candidate? ==> !Ours(w.previous))
      && !p.Previous?
    case Start(p) => Ours(At(w, p)) && (strict ==> OthersStopped(w, p))
    case Stop(p) => Ours(At(w, p))
    case Remove(p) => Ours(At(w, p))
    case Rename(p, q) => Ours(At(w, p))
    case MakeDir => true
    case FillDir(d, s) => d in w.content && s in w.content && d != s && Unused(w, d)
    case WriteActive(r) => r.dir in w.writers && (w.active.None? || r in w.healthy)
    case WriteBackup(r) => true
  }

  lemma DisturbanceKeepsInv(w: World, v: World)
    requires Inv(w) && Disturbs(w, v)
    ensures Inv(v) && (Solo(w) ==> Solo(v))
  {
  }

  lemma DisturbanceKeepsPermission(c: Command, w: World, v: World, strict: bool)
    requires Permitted(c, w, strict) && Disturbs(w, v)
    ensures Permitted(c, v, strict)
  {
    match c {
      case Start(p) => match p { case Main => case Candidate => case Previous => }
      case Probe(p) => match p { case Main => case Candidate => case Previous => }
      case Stop(p) => match p { case Main => case Candidate => case Previous => }
      case Remove(p) => match p { case Main => case Candidate => case Previous => }
      case Rename(p, _) => match p { case Main => case Candidate => case Previous => }
      case _ =>
    }
  }

  lemma StartKeepsInv(p: Place, w: World, strict: bool)
    requires Inv(w) && Permitted(Start(p), w, strict)
    ensures Inv(Started(w, p)) && (Solo(w) && strict ==> Solo(Started(w, p)))
  {
    match p { case Main => case Candidate => case Previous => }
  }

  lemma CreateKeepsInv(p: Place, image: Image, d: nat, w: World, strict: bool)
    requires Inv(w) && Permitted(Create(p, image, d), w, strict) && Possible(Create(p, image, d), w)
    ensures Inv(Apply(Create(p, image, d), w)) && (Solo(w) ==> Solo(Apply(Create(p, image, d), w)))
  {
    match p { case Main => case Candidate => case Previous => }
  }

  lemma MoveKeepsInv(c: Command, w: World, strict: bool)
    requires c.Stop? || c.Remove?
    requires Inv(w) && Permitted(c, w, strict) && Possible(c, w)
    ensures Inv(Apply(c, w)) && (Solo(w) ==> Solo(Apply(c, w)))
  {
    match c.place { case Main => case Candidate => case Previous => }
  }

  lemma RenameKeepsInv(p: Place, q: Place, w: World, strict: bool)
    requires Inv(w) && Permitted(Rename(p, q), w, strict) && Possible(Rename(p, q), w)
    ensures Inv(Apply(Rename(p, q), w)) && (Solo(w) ==> Solo(Apply(Rename(p, q), w)))
  {
    match p { case Main => case Candidate => case Previous => }
    match q { case Main => case Candidate => case Previous => }
  }

  lemma RestKeepsInv(c: Command, w: World, strict: bool)
    requires !(c.Stop? || c.Remove? || c.Rename? || c.Start? || c.Create?)
    requires Inv(w) && Permitted(c, w, strict) && Possible(c, w)
    ensures Inv(Apply(c, w)) && (Solo(w) ==> Solo(Apply(c, w)))
  {
    if c.Probe? {
      match c.place { case Main => case Candidate => case Previous => }
    }
  }

  lemma CommandKeepsInv(c: Command, w: World, strict: bool)
    requires Inv(w) && Permitted(c, w, strict) && Possible(c, w)
    ensures Inv(Apply(c, w))
    ensures Solo(w) && (c.Start? ==> strict) ==> Solo(Apply(c, w))
  {
    if c.Start? {
      assert At(w, c.place).value.dir in w.writers by {
        match c.place { case Main => case Candidate => case Previous => }
      }
      StartKeepsInv(c.place, w, strict);
    } else if c.Create? {
      CreateKeepsInv(c.place, c.image, c.dir, w, strict);
    } else if c.Rename? {
      RenameKeepsInv(c.source, c.target, w, strict);
    } else if c.Stop? || c.Remove? {
      MoveKeepsInv(c, w, strict);
    } else {
      RestKeepsInv(c, w, strict);
    }
  }

  /** Once the record names a pair that passed its health check, it always does. */
  lemma CommandKeepsRecord(c: Command, w: World, strict: bool)
    requires RecordHealthy(w) && Permitted(c, w, strict)
    ensures RecordHealthy(Apply(c, w))
  {
  }

  // ------------------------------------------------------------------ runs

  ghost predicate Step(a: World, b: World, strict: bool) {
    Disturbs(a, b) || exists c :: Permitted(c, a, strict) && Possible(c, a) && b == Apply(c, a)
  }

  ghost predicate IsRun(t: seq<World>, strict: bool) {
    && |t| > 0
    && Inv(t[0])
    && forall i :: 0 < i < |t| ==> Step(t[i - 1], t[i], strict)
  }

  lemma RunGrows(t: seq<World>, b: World, strict: bool)
    requires IsRun(t, strict) && Step(t[|t| - 1], b, strict)
    ensures IsRun(t + [b], strict)
  {
    var u := t + [b];
    forall i | 0 < i < |u| ensures Step(u[i - 1], u[i], strict) {
      if i < |t| {
        assert u[i - 1] == t[i - 1] && u[i] == t[i];
      }
    }
  }

  lemma StepKeepsInv(a: World, b: World, strict: bool)
    requires Inv(a) && Step(a, b, strict)
    ensures Inv(b)
    ensures strict && Solo(a) ==> Solo(b)
    ensures RecordHealthy(a) ==> RecordHealthy(b)
  {
    if Disturbs(a, b) {
      DisturbanceKeepsInv(a, b);
    } else {
      var c :| Permitted(c, a, strict) && Possible(c, a) && b == Apply(c, a);
      CommandKeepsInv(c, a, strict);
      if RecordHealthy(a) { CommandKeepsRecord(c, a, strict); }
    }
  }

  /** Over whole runs: generations are isolated from each other's containers; if every start
      finds the other containers stopped, no two containers of the module ever run at once; and
      from the first healthy record on, the record is healthy. */
  lemma {:induction false} RunIsSafe(t: seq<World>, k: nat, strict: bool)
    requires IsRun(t, strict) && k < |t|
    ensures Inv(t[k]) && Isolated(t[k])
    ensures strict && Solo(t[0]) ==> Solo(t[k])
    ensures RecordHealthy(t[0]) ==> RecordHealthy(t[k])
  {
    if k > 0 {
      RunIsSafe(t, k - 1, strict);
      StepKeepsInv(t[k - 1], t[k], strict);
    }
  }

  /** A start keeps a single running container exactly when no other one runs. */
  lemma StartKeepsSoloExactly(w: World, p: Place)
    requires Inv(w) && Solo(w) && Ours(At(w, p))
    ensures At(w, p).value.dir in w.writers && Permitted(Start(p), w, false)
    ensures Solo(Started(w, p)) <==> OthersStopped(w, p)
  {
    match p { case Main => case Candidate => case Previous => }
  }

  lemma RunWeakens(t: seq<World>)
    requires IsRun(t, true)
    ensures IsRun(t, false)
  {
    forall i | 0 < i < |t| ensures Step(t[i - 1], t[i], false) {
      if !Disturbs(t[i - 1], t[i]) {
        var c :| Permitted(c, t[i - 1], true) && Possible(c, t[i - 1]) && t[i] == Apply(c, t[i - 1]);
        assert Permitted(c, t[i - 1], false);
      }
    }
  }

  lemma StepIsStrict(a: World, b: World)
    requires Inv(a) && Solo(a) && Solo(b) && Step(a, b, false)
    ensures Step(a, b, true)
  {
    if !Disturbs(a, b) {
      var c :| Permitted(c, a, false) && Possible(c, a) && b == Apply(c, a);
      if c.Start? {
        StartKeepsSoloExactly(a, c.place);
      }
      assert Permitted(c, a, true);
    }
  }

  /** When a run has a single running container throughout: exactly when none of its starts
      finds another container running. */
  lemma SoloExactly(t: seq<World>)
    requires IsRun(t, false) && Solo(t[0])
    ensures (forall k :: 0 <= k < |t| ==> Solo(t[k])) <==> IsRun(t, true)
  {
    if IsRun(t, true) {
      forall k | 0 <= k < |t| ensures Solo(t[k]) {
        RunIsSafe(t, k, true);
      }
    } else if forall k :: 0 <= k < |t| ==> Solo(t[k]) {
      forall i | 0 < i < |t| ensures Step(t[i - 1], t[i], true) {
        RunIsSafe(t, i - 1, false);
        StepIsStrict(t[i - 1], t[i]);
      }
      assert false;
    }
  }

  lemma RecordStaysHealthy(t: seq<World>, j: nat, k: nat, strict: bool)
    requires IsRun(t, strict) && j <= k < |t| && RecordHealthy(t[j])
    ensures RecordHealthy(t[k])
  {
    RunIsSafe(t, j, strict);
    var rest := t[j..];
    forall i | 0 < i < |rest| ensures Step(rest[i - 1], rest[i], strict) {
      assert rest[i] == t[j + i] && rest[i - 1] == t[j + i - 1];
    }
    RunIsSafe(rest, k - j, strict);
  }

  lemma CommandKeepsContent(c: Command, w: World, d: nat, strict: bool)
    requires Inv(w) && Permitted(c, w, strict) && d in w.content && !Unused(w, d)
    ensures d in Apply(c, w).content && Apply(c, w).content[d] == w.content[d]
  {
  }

  lemma StepKeepsContent(a: World, b: World, d: nat, strict: bool)
    requires Inv(a) && Step(a, b, strict) && d in a.content && !Mounted(a, d) && !Unused(a, d)
    ensures d in b.content && b.content[d] == a.content[d]
  {
    if !Disturbs(a, b) {
      var c :| Permitted(c, a, strict) && Possible(c, a) && b == Apply(c, a);
      CommandKeepsContent(c, a, d, strict);
    }
  }

  /** Copy isolation: as long as a container keeps its directory but does not run, nobody
      changes that directory, whatever the candidate does meanwhile. */
  lemma {:induction false} StoppedContentStays(t: seq<World>, j: nat, k: nat, d: nat, strict: bool)
    requires IsRun(t, strict) && j <= k < |t| && d in t[j].content
    requires forall i :: j <= i < k ==> !Mounted(t[i], d) && !Unused(t[i], d)
    ensures d in t[k].content && t[k].content[d] == t[j].content[d]
    decreases k
  {
    if j < k {
      StoppedContentStays(t, j, k - 1, d, strict);
      RunIsSafe(t, k - 1, strict);
      StepKeepsContent(t[k - 1], t[k], d, strict);
    }
  }

  // -------------------------------------------------- what a directory holds, along a run

  /** The directory a command may write or have written: a start mounts it, a copy fills it. */
  function Writes(c: Command, w: World): Option<nat> {
    match c
    case Start(p) => if At(w, p).Some? then Some(At(w, p).value.dir) else None
    case FillDir(d, _) => Some(d)
    case _ => None
  }

  /** A directory nobody runs on stays that way, with its content. */
  predicate Keeps(a: World, b: World, d: nat) {
    d in a.content ==>
      && d in b.content
      && (!Mounted(a, d) ==> !Mounted(b, d) && b.content[d] == a.content[d])
  }

  lemma StartMountsItsOwn(p: Place, w: World, d: nat)
    requires Possible(Start(p), w) && Writes(Start(p), w) != Some(d) && !Mounted(w, d)
    ensures !Mounted(Apply(Start(p), w), d)
  {
    match p { case Main => case Candidate => case Previous => }
  }

  lemma RenameMountsNothing(p: Place, q: Place, w: World, d: nat)
    requires Possible(Rename(p, q), w) && !Mounted(w, d)
    ensures !Mounted(Apply(Rename(p, q), w), d)
  {
    match p { case Main => case Candidate => case Previous => }
    match q { case Main => case Candidate => case Previous => }
  }

  lemma RestMountsNothing(c: Command, w: World, d: nat)
    requires c.Create? || c.Stop? || c.Remove?
    requires !Mounted(w, d)
    ensures !Mounted(Apply(c, w), d)
  {
    match c.place { case Main => case Candidate => case Previous => }
  }

  lemma CommandKeeps(c: Command, w: World, d: nat, strict: bool)
    requires Inv(w) && Permitted(c, w, strict) && Possible(c, w) && Writes(c, w) != Some(d)
    ensures Keeps(w, Apply(c, w), d)
  {
    if d in w.content && !Mounted(w, d) {
      if c.Start? { StartMountsItsOwn(c.place, w, d); }
      else if c.Rename? { RenameMountsNothing(c.source, c.target, w, d); }
      else if c.Create? || c.Stop? || c.Remove? { RestMountsNothing(c, w, d); }
    }
  }

  lemma DisturbanceKeeps(a: World, b: World, d: nat)
    requires Disturbs(a, b)
    ensures Keeps(a, b, d)
  {
  }

  /** For each directory, the steps of a run that may have written it otherwise than by a
      container that was running there already. */
  type Log = map<nat, seq<nat>>

  function LogOf(log: Log, d: nat): seq<nat> {
    if d in log then log[d] else []
  }

  function NextLog(c: Command, w: World, log: Log, k: nat): Log {
    match Writes(c, w)
    case Some(d) => Noted(log, d, k)
    case None => log
  }

  function Noted(log: Log, d: nat, k: nat): (next: Log)
    ensures forall e :: LogOf(next, e) == if e == d then LogOf(log, d) + [k] else LogOf(log, e)
  {
    log[d := LogOf(log, d) + [k]]
  }

  ghost predicate Logged(t: seq<World>, log: Log) {
    && (forall i, d :: 0 < i < |t| && i !in LogOf(log, d) ==> Keeps(t[i - 1], t[i], d))
    && (forall i, d :: i in LogOf(log, d) ==> i < |t|)
  }

  lemma LogGrows(t: seq<World>, log: Log, b: World, next: Log)
    requires |t| > 0 && Logged(t, log)
    requires next == log || exists d :: next == Noted(log, d, |t|)
    requires forall d :: |t| !in LogOf(next, d) ==> Keeps(t[|t| - 1], b, d)
    ensures Logged(t + [b], next)
  {
    var u := t + [b];
    forall i, d | 0 < i < |u| && i !in LogOf(next, d) ensures Keeps(u[i - 1], u[i], d) {
      if i < |t| {
        assert u[i - 1] == t[i - 1] && u[i] == t[i];
        assert i !in LogOf(log, d);
      }
    }
    forall i, d | i in LogOf(next, d) ensures i < |u| {
      assert i == |t| || i in LogOf(log, d);
    }
  }

  /** One more step of a run, with the log kept up. */
  lemma LogFollows(t: seq<World>, log: Log, c: Command, b: World, strict: bool)
    requires |t| > 0 && Logged(t, log) && Inv(t[|t| - 1]) && Permitted(c, t[|t| - 1], strict)
    ensures Disturbs(t[|t| - 1], b) ==> Logged(t + [b], log)
    ensures Possible(c, t[|t| - 1]) && b == Apply(c, t[|t| - 1]) ==> Logged(t + [b], NextLog(c, t[|t| - 1], log, |t|))
  {
    var w := t[|t| - 1];
    if Disturbs(w, b) {
      forall d ensures Keeps(w, b, d) { DisturbanceKeeps(w, b, d); }
      LogGrows(t, log, b, log);
    }
    if Possible(c, w) && b == Apply(c, w) {
      var next := NextLog(c, w, log, |t|);
      forall d | |t| !in LogOf(next, d) ensures Keeps(w, b, d) { CommandKeeps(c, w, d, strict); }
      LogGrows(t, log, b, next);
    }
  }

  /** From one moment to another: as soon as nobody runs on the directory, nobody does any
      more, and its content stays what it is. */
  ghost predicate Untouched(t: seq<World>, from: nat, to: nat, d: nat) {
    forall i, j :: from <= i <= j <= to < |t| && d in t[i].content && !Mounted(t[i], d) ==>
      d in t[j].content && !Mounted(t[j], d) && t[j].content[d] == t[i].content[d]
  }

  /** A directory is untouched between two steps of its log. */
  lemma UntouchedBetween(t: seq<World>, log: Log, from: nat, to: nat, d: nat)
    requires Logged(t, log) && to < |t| && forall i :: from < i <= to ==> i !in LogOf(log, d)
    ensures Untouched(t, from, to, d)
  {
    forall i, j | from <= i <= j <= to && d in t[i].content && !Mounted(t[i], d)
      ensures d in t[j].content && !Mounted(t[j], d) && t[j].content[d] == t[i].content[d]
    {
      ContentStays(t, log, i, j, d);
    }
  }

  lemma {:induction false} ContentStays(t: seq<World>, log: Log, i: nat, j: nat, d: nat)
    requires Logged(t, log) && i <= j < |t| && forall k :: i < k <= j ==> k !in LogOf(log, d)
    requires d in t[i].content && !Mounted(t[i], d)
    ensures d in t[j].content && !Mounted(t[j], d) && t[j].content[d] == t[i].content[d]
    decreases j
  {
    if i < j {
      ContentStays(t, log, i, j - 1, d);
      assert j !in LogOf(log, d) && Keeps(t[j - 1], t[j], d);
    }
  }
}

/** The helper's Home Assistant operations, step by step. Every effect goes through `Exec`. */
module HomeAssistant {
  import opened Faults
  import opened HomeAssistantWorld

  /** Names a world so that `Lawful` is looked into there, and only there. */
  predicate Key(w: World) {
    true
  }

  /** The trace is a run to the present world, its starts find the others stopped unless there
      was a leak, and the log accounts for whatever wrote a directory. */
  ghost predicate Lawful(t: seq<World>, w: World, leak: Option<nat>, log: Log) {
    forall v {:trigger Key(v)} :: Key(v) && v == w ==>
      && IsRun(t, leak.None?) && t[|t| - 1] == v && Inv(v) && Logged(t, log)
      && (leak.Some? ==> leak.value < |t| && !Solo(t[leak.value]))
  }

  /** Every running container belongs to one of the two identities. */
  predicate OnlyRuns(w: World, id: nat, other: Option<nat>) {
    && (Running(w.main) ==> w.main.value.id == id || Some(w.main.value.id) == other)
    && (Running(w.candidate) ==> w.candidate.value.id == id || Some(w.candidate.value.id) == other)
    && (Running(w.previous) ==> w.previous.value.id == id || Some(w.previous.value.id) == other)
  }

  /** The same container under this name, running or not. */
  predicate Stands(w: World, p: Place, c: Container) {
    At(w, p).Some? && At(w, p).value == c.(running := At(w, p).value.running)
  }

  /** No generation that existed before gained a writer, except the old container in its own. */
  predicate NoNewWriters(w: World, v: World, owner: Container) {
    forall d :: d in w.writers ==>
      d in v.writers && v.writers[d] <= w.writers[d] + (if d == owner.dir then {owner.id} else {})
  }

  /** At most the owner is added, to the writers of its own generation. */
  predicate OwnerWrites(w: World, v: World, owner: Container) {
    || v.writers == w.writers
    || (owner.dir in w.writers && v.writers == w.writers[owner.dir := w.writers[owner.dir] + {owner.id}])
  }

  /** What a successful upgrade leaves: a healthy container of the new image on a generation
      of its own, and the stopped old one on its untouched data. */
  predicate Upgraded(w: World, v: World, old0: Container, image: Image) {
    && Ours(v.main) && v.main.value.image == image && v.main.value.dir !in w.writers
    && RecordOf(v.main.value) in v.healthy
    && v.main.value.dir in v.writers && v.writers[v.main.value.dir] == {v.main.value.id}
    && v.previous == Some(old0.(running := false))
    && v.candidate.None?
    && old0.dir in w.writers && old0.dir in v.writers && v.writers[old0.dir] == w.writers[old0.dir]
    && v.backups == w.backups + [RecordOf(old0)]
  }

  /** The moment of the copy: both generations have the same content, and nobody runs on the source. */
  predicate Forked(w: World, source: nat, dir: nat) {
    && source in w.content && dir in w.content && w.content[dir] == w.content[source] && !Mounted(w, source)
  }

  /** The old container is back under the module's name, on its own data, and recorded. */
  predicate Restored(w: World, old0: Container) {
    && Ours(w.main) && Stands(w, Main, old0)
    && w.active == Some(RecordOf(old0)) && RecordOf(old0) in w.healthy
  }

  predicate DroppedAt(before: Option<Container>, after: Option<Container>, id: nat) {
    Aged(before, after) || (before.Some? && before.value.id == id && after.None?)
  }

  /** Nothing happened but ageing, and perhaps the removal of one container. */
  predicate Dropped(w: World, v: World, id: nat) {
    && v == w.(main := v.main, candidate := v.candidate, previous := v.previous, content := v.content)
    && DroppedAt(w.main, v.main, id) && DroppedAt(w.candidate, v.candidate, id) && DroppedAt(w.previous, v.previous, id)
  }

  predicate Gone(w: World, id: nat) {
    && (w.main.Some? ==> w.main.value.id != id)
    && (w.candidate.Some? ==> w.candidate.value.id != id)
    && (w.previous.Some? ==> w.previous.value.id != id)
  }

  /** Nothing happened but ageing, and perhaps one new, unused generation. */
  predicate Fetched(w: World, v: World, dir: nat) {
    && v == w.(main := v.main, candidate := v.candidate, previous := v.previous, content := v.content,
               writers := v.writers, nextDir := v.nextDir)
    && Aged(w.main, v.main) && Aged(w.candidate, v.candidate) && Aged(w.previous, v.previous)
    && (v.writers == w.writers || v.writers == w.writers[dir := {}])
  }

  /** The old container is down, and the candidate waits on a generation of its own. */
  predicate Staged(w: World, v: World, old0: Container, id: nat, image: Image) {
    && v.main == Some(old0.(running := false)) && v.previous.None?
    && Ours(v.candidate) && !v.candidate.value.running && v.candidate.value.id == id && v.candidate.value.image == image
    && v.candidate.value.dir !in w.writers && v.writers == w.writers[v.candidate.value.dir := {}]
    && v.backups == w.backups + [RecordOf(old0)]
  }

  /** One of the module's own containers has the identity. */
  predicate Held(w: World, id: nat) {
    Find(w, id).Some? && Ours(At(w, Find(w, id).value))
  }

  predicate AnyRunning(w: World) {
    Running(w.main) || Running(w.candidate) || Running(w.previous)
  }

  /** What a rollback to the old container needs to find: the container as it was, the candidate
      if there is to be one, and the module's name free of anything else. */
  predicate CanRestore(w: World, old0: Container, candidateId: Option<nat>) {
    && Held(w, old0.id) && Stands(w, Find(w, old0.id).value, old0)
    && (candidateId.Some? ==> Held(w, candidateId.value))
    && (w.main.Some? ==> w.main.value.id == old0.id || candidateId == Some(w.main.value.id))
  }

  datatype Action = Begin | Halt | Restart | Delete

  datatype Request =
    | Install(image: Image)
    | Upgrade(image: Image, previous: Image)
    | Finish(commit: bool, image: Image, previous: Image)
    | Control(action: Action)

  /** What a request is for. */
  predicate Served(request: Request, w: World) {
    match request
    case Install(image) => InService(w) && w.main.value.image == image
    case Upgrade(image, previous) =>
      Ours(w.main) && w.main.value.image == image && w.previous.Some? && w.previous.value.image == previous
    case Finish(commit, image, previous) =>
      InService(w) && w.main.value.image == (if commit then image else previous) && (commit ==> w.previous.None?)
    case Control(action) =>
      match action
      case Halt => Ours(w.main) && !w.main.value.running
      case Delete => w.main.None?
      case _ => InService(w)
  }

  /** The recorded container is under the module's name and has passed its health check. */
  predicate InService(w: World) {
    Ours(w.main) && w.active == Some(RecordOf(w.main.value)) && RecordHealthy(w)
  }

  /** The two names hold the two images on two directories. */
  predicate PairMatches(w: World, image: Image, previousImage: Image) {
    && Ours(w.main) && Ours(w.previous)
    && w.main.value.image == image && w.previous.value.image == previousImage
    && w.main.value.dir != w.previous.value.dir
  }

  /** What an upgrade asks for: the recorded container of the image runs, and both staging names are free. */
  predicate Upgradable(w: World, previousImage: Image) {
    && Running(w.main) && w.main.value.image == previousImage && w.active == Some(RecordOf(w.main.value))
    && w.candidate.None? && w.previous.None?
  }

  /** What a commit or a rollback asks for; only the commit needs the new container to run. */
  predicate Finishable(w: World, image: Image, previousImage: Image, commit: bool) {
    PairMatches(w, image, previousImage) && !w.previous.value.running && (commit ==> w.main.value.running)
  }

  /** The names of a cut-over, exchanged. */
  function Swapped(w: World): World {
    w.(main := w.candidate, candidate := None, previous := w.main)
  }

  /** The new container is the recorded one, the old one is gone, all data is kept. */
  predicate Committed(w: World, v: World) {
    && Ours(w.main) && Stands(v, Main, w.main.value)
    && v.active == Some(RecordOf(w.main.value)) && RecordHealthy(v)
    && v.previous.None? && v.writers == w.writers
  }

  lemma DroppedStep(u: World, w: World, v: World, p: Place, id: nat)
    requires Inv(u) && Drifts(u, w) && (v == w || v == Put(w, p, None))
    requires At(w, p).Some? && At(w, p).value.id == id
    ensures Dropped(u, v, id)
    ensures v == Put(w, p, None) ==> Gone(v, id)
  {
    match p { case Main => case Candidate => case Previous => }
  }

  lemma DriftFinds(u: World, v: World, id: nat)
    requires Drifts(u, v)
    ensures Find(v, id) == Find(u, id) && (Held(v, id) <==> Held(u, id))
    ensures forall c: Container :: Held(u, id) ==>
      (Stands(v, Find(u, id).value, c) <==> Stands(u, Find(u, id).value, c))
  {
  }

  lemma DroppedFinds(u: World, v: World, id: nat, dropped: nat)
    requires Inv(u) && Dropped(u, v, dropped) && id != dropped
    ensures Find(v, id) == Find(u, id) && (Held(v, id) <==> Held(u, id))
    ensures forall c: Container :: Held(u, id) ==>
      (Stands(v, Find(u, id).value, c) <==> Stands(u, Find(u, id).value, c))
    ensures v.main.Some? ==> u.main.Some? && v.main.value.id == u.main.value.id
    ensures u.main.Some? && u.main.value.id != dropped ==> v.main.Some?
  {
  }

  lemma DriftThenDropped(u: World, v: World, w: World, id: nat)
    requires Drifts(u, v) && Dropped(v, w, id)
    ensures Dropped(u, w, id)
  {
  }

  lemma RunAdvances(t: seq<World>, w: World, next: World, c: Command, leak: Option<nat>, log: Log)
    requires Lawful(t, w, leak, log) && Permitted(c, w, leak.None?)
    ensures Disturbs(w, next) ==> Lawful(t + [next], next, leak, log)
    ensures Possible(c, w) && next == Apply(c, w) ==> Lawful(t + [next], next, leak, NextLog(c, w, log, |t|))
  {
    assert Key(w);
    if Step(w, next, leak.None?) {
      RunGrows(t, next, leak.None?);
      StepKeepsInv(w, next, leak.None?);
      LogFollows(t, log, c, next, leak.None?);
    }
  }

  /** The start of the main container while another one runs. */
  lemma RunLeaks(t: seq<World>, w: World, leak: Option<nat>, log: Log)
    requires Lawful(t, w, leak, log) && Ours(w.main) && !OthersStopped(w, Main)
    ensures Lawful(t + [Apply(Start(Main), w)], Apply(Start(Main), w), if leak.None? then Some(|t|) else leak,
                   NextLog(Start(Main), w, log, |t|))
  {
    var next := Apply(Start(Main), w);
    assert Key(w);
    if leak.None? { RunWeakens(t); }
    assert Permitted(Start(Main), w, false) && Possible(Start(Main), w) && Step(w, next, false);
    RunGrows(t, next, false);
    StepKeepsInv(w, next, false);
    LogFollows(t, log, Start(Main), next, false);
  }

  /** A directory that has been reopened only after step `to`, if at all, is untouched until then. */
  lemma StaysUntouched(was: seq<World>, before: Log, w0: World, leak0: Option<nat>,
                       trace: seq<World>, log: Log, w: World, leak: Option<nat>, to: nat, d: nat)
    requires Lawful(was, w0, leak0, before) && Lawful(trace, w, leak, log) && was <= trace && to < |trace|
    requires LogOf(log, d) == LogOf(before, d) || LogOf(log, d) == LogOf(before, d) + [to + 1]
    ensures |was| > 0 && Untouched(trace, |was| - 1, to, d)
  {
    assert Key(w0) && Key(w);
    forall i | |was| - 1 < i <= to ensures i !in LogOf(log, d) {
      assert i !in LogOf(before, d);
    }
    UntouchedBetween(trace, log, |was| - 1, to, d);
  }

  // ------------------------------------------------- the one way to two containers

  /** What a resuming install of the image acts on. */
  predicate Resumable(w: World, image: Image) {
    Ours(w.main) && w.main.value.image == image && w.active == Some(RecordOf(w.main.value)) && !w.main.value.running
  }

  /** The recorded container is down, or may go down, while one of an interrupted upgrade runs. */
  predicate Lapse(w: World, image: Image) {
    && Ours(w.main) && w.main.value.image == image && w.active == Some(RecordOf(w.main.value))
    && (Running(w.candidate) || Running(w.previous))
  }

  /** When an install request can bring a second container up behind a blind port probe: a
      condition on the host before the request. */
  lemma ResumeRunsTwoExactly(w: World, image: Image)
    requires Inv(w) && Solo(w)
    ensures (exists u :: Disturbs(w, u) && Resumable(u, image) && !Solo(Apply(Start(Main), u))) <==> Lapse(w, image)
  {
    if u :| Disturbs(w, u) && Resumable(u, image) && !Solo(Apply(Start(Main), u)) {
      DisturbanceKeepsInv(w, u);
      StartKeepsSoloExactly(u, Main);
    }
    if Lapse(w, image) {
      StartKeepsSoloExactly(w, Main);
      assert Disturbs(w, w) && Resumable(w, image);
    }
  }

  // ----------------------------------------- the commands of each operation, in order

  datatype History = Nothing | Then(before: History, last: Command)

  function Looked(h: History): History {
    Then(h, Command.Look)
  }

  function Twice(h: History): History {
    Looked(Looked(h))
  }

  /** The candidate under this name goes. */
  function Dropping(h: History, p: Place): History {
    Then(Then(Looked(h), Stop(p)), Remove(p))
  }

  function Proving(h: History, old0: Container): History {
    Looked(Then(Then(h, Probe(Main)), WriteActive(RecordOf(old0))))
  }

  /** The old container, found under this name, gets its own, starts, proves healthy, and is recorded. */
  function Reviving(h: History, p: Place, old0: Container): History {
    Proving(Then(if p.Main? then h else Then(h, Rename(p, Main)), Start(Main)), old0)
  }

  predicate Findable(w: World, oldId: nat, candidateId: Option<nat>) {
    Find(w, oldId).Some? && (candidateId.Some? ==> Find(w, candidateId.value).Some?)
  }

  function Restoring(h: History, w: World, old0: Container, candidateId: Option<nat>): History
    requires Findable(w, old0.id, candidateId)
  {
    var dropped := if candidateId.Some? then Dropping(h, Find(w, candidateId.value).value) else h;
    Reviving(Twice(dropped), Find(w, old0.id).value, old0)
  }

  function Copying(h: History, source: nat, dir: nat): History {
    Then(Then(Looked(h), MakeDir), FillDir(dir, source))
  }

  /** The copy, the backup of the record, the port, the candidate on the copy. */
  function Staging(h: History, old0: Container, image: Image, dir: nat): History {
    Looked(Then(Looked(Then(Copying(h, old0.dir, dir), WriteBackup(RecordOf(old0)))), Create(Candidate, image, dir)))
  }

  function Swapping(h: History): History {
    Then(Then(h, Rename(Main, Previous)), Rename(Candidate, Main))
  }

  /** Healthy before it gets the name. */
  function Promoting(h: History): History {
    Looked(Swapping(Then(Then(h, Start(Candidate)), Probe(Candidate))))
  }

  function CuttingOver(h: History, old0: Container, image: Image, dir: nat): History {
    Promoting(Staging(Looked(Then(h, Stop(Main))), old0, image, dir))
  }

  /** Healthy, recorded, and only then the old one goes. */
  function Committing(h: History, c: Container): History {
    Looked(Then(Then(Then(h, Probe(Main)), WriteActive(RecordOf(c))), Remove(Previous)))
  }

  function Resuming(h: History, running: bool): History {
    var up := if running then Twice(h) else Then(Looked(Twice(h)), Start(Main));
    Looked(Then(up, Probe(Main)))
  }

  function Creating(h: History, record: Record): History {
    Starting(Then(h, Create(Main, record.image, record.dir)))
  }

  function Installing(h: History, first: bool, record: Record): History {
    var free := Twice(Twice(h));
    Creating(Looked(Twice(if first then Then(Then(free, MakeDir), WriteActive(record)) else free)), record)
  }

  function Starting(h: History): History {
    Looked(Then(Then(h, Start(Main)), Probe(Main)))
  }

  function Beginning(h: History, restart: bool): History {
    Starting(if restart then Then(h, Stop(Main)) else h)
  }

  /** The record is read, and the port asked for a container that was down. */
  function Serving(h: History, running: bool, restart: bool): History {
    Beginning(if running then Looked(h) else Twice(h), restart)
  }

  class HaHost {
    var w: World
    const portSeesAll: bool        // a container that runs is seen by the port probe
    ghost var trace: seq<World>
    ghost var leak: Option<nat>    // where a resuming install has started a second container
    ghost var log: Log
    ghost var done: History        // every command that was reported carried out, in their order
    ghost var faults: nat          // how often something went wrong by itself: a command that could have been
                                   // carried out was not, or not reported so, or containers exited

    ghost predicate Valid()
      reads this
    {
      Lawful(trace, w, leak, log) && (portSeesAll ==> leak.None?)
    }

    lemma Facts()
      requires Valid()
      ensures Inv(w) && |trace| > 0 && trace[|trace| - 1] == w
    {
      assert Key(w);
    }

    constructor (w: World, portSeesAll: bool)
      requires Inv(w)
      ensures Valid() && this.w == w && this.portSeesAll == portSeesAll && trace == [w] && leak.None?
    {
      this.w := w;
      this.portSeesAll := portSeesAll;
      this.trace := [w];
      this.leak := None;
      this.log := map[];
      this.done := Nothing;
      this.faults := 0;
    }

    twostate predicate Onward()
      reads this
    {
      old(trace) <= trace && old(faults) <= faults
    }

    /** The command took effect as the last step, and is logged. */
    twostate predicate Wrote(c: Command, pre: World)
      reads this
    {
      && |old(trace)| + 1 < |trace| && trace[|trace| - 2] == pre && trace[|trace| - 1] == w
      && Possible(c, pre) && w == Apply(c, pre) && log == NextLog(c, pre, old(log), |trace| - 1)
    }

    /** The old container was started again, for the first time, after step `k`. */
    twostate predicate Reopened(old0: Container, k: nat)
      reads this
    {
      && |old(trace)| <= k < |trace| - 1
      && Stands(trace[k], Main, old0) && trace[k + 1] == Apply(Start(Main), trace[k])
      && LogOf(log, old0.dir) == old(LogOf(log, old0.dir)) + [k + 1]
    }

    /** What happens to the host before a command reaches it. */
    method Drift(ghost c: Command)
      requires Valid() && Permitted(c, w, leak.None?)
      modifies this`w, this`trace, this`faults
      ensures Valid() && Onward() && Permitted(c, w, leak.None?)
      ensures Drifts(old(w), w) && w.content.Keys == old(w).content.Keys && trace == old(trace) + [w]
      ensures faults == old(faults) ==> SameContainers(old(w), w)
    {
      var exited: set<Place> := *;
      var written: Content := *;
      var now := Disturbed(w, exited, written);
      faults := if SameContainers(w, now) then faults else faults + 1;
      Advance(now, c);
    }

    /** How a command ends. */
    method Fate() returns (o: Outcome)
      modifies this`faults
      ensures faults == if o.Done? then old(faults) else old(faults) + 1
    {
      o := *;
      faults := if o.Done? then faults else faults + 1;
    }

    /** Every command but a start and a copy, which may write a directory. */
    method Exec(c: Command) returns (r: Reply, ghost pre: World)
      requires Valid() && Permitted(c, w, leak.None?) && !c.Start? && !c.FillDir?
      modifies this`w, this`trace, this`faults, this`done
      ensures Valid() && Onward()
      ensures Drifts(old(w), pre) && pre.content.Keys == old(w).content.Keys && |old(trace)| < |trace|
      ensures r.Success? ==> Possible(c, pre) && w == Apply(c, pre)
      ensures !r.Success? ==> w == pre || (Possible(c, pre) && w == Apply(c, pre))
      ensures faults == old(faults) ==>
        SameContainers(old(w), pre) && r == if Possible(c, pre) then Success else Error
      ensures faults == old(faults) && !r.Success? ==> w == pre
      ensures done == if r.Success? then Then(old(done), c) else old(done)
    {
      Drift(c);
      pre := w;
      var o := Fate();
      r := ReplyOf(o);
      if !Possible(c, w) {
        r := if r.Crash? then Crash else Error;
      } else if TakesEffect(o) {
        Advance(Apply(c, w), c);
      }
      done := if r.Success? then Then(done, c) else done;
    }

    method Advance(next: World, ghost c: Command)
      requires Valid() && Permitted(c, w, leak.None?)
      requires Disturbs(w, next) || (Possible(c, w) && Writes(c, w).None? && next == Apply(c, w))
      modifies this`w, this`trace
      ensures Valid() && w == next && trace == old(trace) + [next]
      ensures Disturbs(old(w), next) ==> Permitted(c, w, leak.None?)
    {
      RunAdvances(trace, w, next, c, leak, log);
      if Disturbs(w, next) {
        DisturbanceKeepsPermission(c, w, next, leak.None?);
      }
      w := next;
      trace := trace + [next];
    }

    /** A start or a copy. */
    method ExecWriting(c: Command) returns (r: Reply, ghost pre: World)
      requires Valid() && Permitted(c, w, leak.None?)
      modifies this`w, this`trace, this`faults, this`done, this`log
      ensures Valid() && Onward() && Drifts(old(w), pre) && pre.content.Keys == old(w).content.Keys
      ensures r.Success? ==> Wrote(c, pre)
      ensures !r.Success? ==> (w == pre && log == old(log)) || Wrote(c, pre)
      ensures faults == old(faults) ==>
        SameContainers(old(w), pre) && r == if Possible(c, pre) then Success else Error
      ensures done == if r.Success? then Then(old(done), c) else old(done)
    {
      Drift(c);
      pre := w;
      var o := Fate();
      r := ReplyOf(o);
      if !Possible(c, w) {
        r := if r.Crash? then Crash else Error;
      } else if TakesEffect(o) {
        Write(c);
      }
      done := if r.Success? then Then(done, c) else done;
    }

    /** Its effect. */
    method Write(c: Command)
      requires Valid() && Permitted(c, w, leak.None?) && Possible(c, w)
      modifies this`w, this`trace, this`log
      ensures Valid() && w == Apply(c, old(w)) && trace == old(trace) + [w]
      ensures log == NextLog(c, old(w), old(log), |old(trace)|)
    {
      RunAdvances(trace, w, Apply(c, w), c, leak, log);
      log := NextLog(c, w, log, |trace|);
      w := Apply(c, w);
      trace := trace + [w];
    }

    /** The effect of a start, whoever else runs. */
    method WriteBlindly()
      requires Valid() && Ours(w.main) && (portSeesAll ==> OthersStopped(w, Main))
      modifies this`w, this`trace, this`log, this`leak
      ensures Valid() && w == Apply(Start(Main), old(w)) && trace == old(trace) + [w]
      ensures leak != old(leak) ==> old(leak).None? && leak == Some(|trace| - 1) && !OthersStopped(old(w), Main)
    {
      if OthersStopped(w, Main) {
        RunAdvances(trace, w, Apply(Start(Main), w), Start(Main), leak, log);
      } else {
        RunLeaks(trace, w, leak, log);
        leak := if leak.None? then Some(|trace|) else leak;
      }
      log := NextLog(Start(Main), w, log, |trace|);
      w := Apply(Start(Main), w);
      trace := trace + [w];
    }

    /** docker start on the resume path, which knows of the other containers only what the port
        probe says. */
    method StartBlindly() returns (r: Reply, ghost pre: World)
      requires Valid() && Ours(w.main) && (portSeesAll ==> OthersStopped(w, Main))
      modifies this`w, this`trace, this`faults, this`done, this`log, this`leak
      ensures Valid() && Onward() && Drifts(old(w), pre)
      ensures r.Success? ==> w == Apply(Start(Main), pre)
      ensures !r.Success? ==> w == pre || w == Apply(Start(Main), pre)
      ensures leak != old(leak) ==>
        old(leak).None? && leak == Some(|trace| - 1) && |old(trace)| + 1 < |trace| && !OthersStopped(old(w), Main)
      ensures faults == old(faults) ==> r.Success? && SameContainers(old(w), pre)
      ensures r.Success? ==> done == Then(old(done), Start(Main))
    {
      Drift(Command.Look);
      pre := w;
      var o := Fate();
      r := ReplyOf(o);
      if TakesEffect(o) {
        WriteBlindly();
      }
      done := if r.Success? then Then(done, Start(Main)) else done;
    }

    // -------------------------------------------------- one external command each

    method Look() returns (r: Reply)
      requires Valid()
      modifies this`w, this`trace, this`faults, this`done
      ensures Valid() && Onward() && Drifts(old(w), w)
      ensures faults == old(faults) ==> r.Success? && SameContainers(old(w), w)
      ensures r.Success? ==> done == Looked(old(done))
    {
      ghost var pre;
      r, pre := Exec(Command.Look);
    }

    /** docker start, with nothing else of the module running. */
    method StartContainer(p: Place) returns (r: Reply, ghost pre: World)
      requires Valid() && Ours(At(w, p)) && OthersStopped(w, p) && At(w, p).value.dir in w.writers
      modifies this`w, this`trace, this`faults, this`done, this`log
      ensures Valid() && Onward() && Drifts(old(w), pre)
      ensures At(pre, p).Some? && At(pre, p).value.dir in pre.writers
      ensures r.Success? ==> w == Started(pre, p)
      ensures !r.Success? ==> w == pre || w == Started(pre, p)
      ensures faults == old(faults) ==> r.Success? && SameContainers(old(w), pre)
      ensures r.Success? ==> done == Then(old(done), Start(p))
    {
      r, pre := StartLogged(p);
    }

    /** The same, and where it stands in the log. */
    method StartLogged(p: Place) returns (r: Reply, ghost pre: World)
      requires Valid() && Ours(At(w, p)) && OthersStopped(w, p) && At(w, p).value.dir in w.writers
      modifies this`w, this`trace, this`faults, this`done, this`log
      ensures Valid() && Onward() && Drifts(old(w), pre)
      ensures At(pre, p).Some? && At(pre, p).value.dir in pre.writers
      ensures r.Success? ==> w == Started(pre, p) && Wrote(Start(p), pre)
      ensures !r.Success? ==> (w == pre && log == old(log)) || (w == Started(pre, p) && Wrote(Start(p), pre))
      ensures faults == old(faults) ==> r.Success? && SameContainers(old(w), pre)
      ensures r.Success? ==> done == Then(old(done), Start(p))
    {
      r, pre := ExecWriting(Start(p));
    }

    /** docker stop --time 60. */
    method StopContainer(p: Place) returns (r: Reply)
      requires Valid() && Ours(At(w, p))
      modifies this`w, this`trace, this`faults, this`done
      ensures Valid() && Onward() && Drifts(old(w), w)
      ensures r.Success? ==> !At(w, p).value.running
      ensures faults == old(faults) ==> r.Success? && SameContainers(Apply(Stop(p), old(w)), w)
      ensures |old(trace)| < |trace|
      ensures r.Success? ==> done == Then(old(done), Stop(p))
      ensures !r.Success? ==> done == old(done)
    {
      ghost var pre;
      r, pre := Exec(Stop(p));
    }

    /** docker rm, refused while the container runs. */
    method RemoveContainer(p: Place) returns (r: Reply, ghost pre: World)
      requires Valid() && Ours(At(w, p))
      modifies this`w, this`trace, this`faults, this`done
      ensures Valid() && Onward() && Drifts(old(w), pre)
      ensures r.Success? ==> w == Put(pre, p, None)
      ensures !r.Success? ==> w == pre || w == Put(pre, p, None)
      ensures faults == old(faults) ==>
        SameContainers(old(w), pre) && r == if At(old(w), p).value.running then Error else Success
      ensures r.Success? ==> done == Then(old(done), Remove(p))
      ensures !r.Success? ==> done == old(done)
    {
      r, pre := Exec(Remove(p));
    }

    /** docker rename. */
    method RenameContainer(p: Place, q: Place) returns (r: Reply, ghost pre: World)
      requires Valid() && Ours(At(w, p))
      modifies this`w, this`trace, this`faults, this`done
      ensures Valid() && Onward() && Drifts(old(w), pre)
      ensures r.Success? ==> p != q && At(pre, q).None? && w == Put(Put(pre, p, None), q, At(pre, p))
      ensures !r.Success? ==> w == pre || (p != q && At(pre, q).None? && w == Put(Put(pre, p, None), q, At(pre, p)))
      ensures faults == old(faults) ==>
        SameContainers(old(w), pre) && r == if p != q && At(old(w), q).None? then Success else Error
      ensures r.Success? ==> done == Then(old(done), Rename(p, q))
    {
      r, pre := Exec(Rename(p, q));
    }

    /** docker create on one configuration generation. */
    method CreateContainer(p: Place, image: Image, dir: nat) returns (r: Reply, ghost pre: World)
      requires Valid() && Permitted(Create(p, image, dir), w, leak.None?)
      modifies this`w, this`trace, this`faults, this`done
      ensures Valid() && Onward() && Drifts(old(w), pre)
      ensures r.Success? ==> w == Created(pre, p, image, dir)
      ensures !r.Success? ==> w == pre || w == Created(pre, p, image, dir)
      ensures faults == old(faults) ==>
        SameContainers(old(w), pre) && r == if At(old(w), p).None? then Success else Error
      ensures r.Success? ==> done == Then(old(done), Create(p, image, dir))
    {
      r, pre := Exec(Create(p, image, dir));
    }

    /** haWaitHealthy: "healthy" is only said of a running container. */
    method WaitHealthy(p: Place) returns (r: Reply)
      requires Valid() && Ours(At(w, p))
      modifies this`w, this`trace, this`faults, this`done
      ensures Valid() && Onward()
      ensures Drifts(old(w).(healthy := w.healthy), w) && old(w).healthy <= w.healthy
      ensures r.Success? ==> Running(At(w, p)) && RecordOf(At(w, p).value) in w.healthy
      ensures faults == old(faults) ==>
        SameContainers(old(w), w) && r == if At(old(w), p).value.running then Success else Error
      ensures r.Success? ==> done == Then(old(done), Probe(p))
    {
      ghost var pre;
      r, pre := Exec(Probe(p));
    }

    /** haWriteState("active.json", ...). */
    method WriteActiveRecord(record: Record) returns (r: Reply)
      requires Valid() && record.dir in w.writers && (w.active.None? || record in w.healthy)
      modifies this`w, this`trace, this`faults, this`done
      ensures Valid() && Onward() && Drifts(old(w).(active := w.active), w)
      ensures r.Success? ==> w.active == Some(record)
      ensures w.active == old(w).active || w.active == Some(record)
      ensures faults == old(faults) ==> r.Success? && SameContainers(old(w), w)
      ensures r.Success? ==> done == Then(old(done), WriteActive(record))
    {
      ghost var pre;
      r, pre := Exec(WriteActive(record));
    }

    /** haInspect by container identity. */
    method InspectId(id: nat) returns (r: Reply, p: Place)
      requires Valid()
      modifies this`w, this`trace, this`faults, this`done
      ensures Valid() && Onward() && Drifts(old(w), w)
      ensures r.Success? ==> Ours(At(w, p)) && At(w, p).value.id == id
      ensures faults == old(faults) ==>
        SameContainers(old(w), w) && r == if Held(old(w), id) then Success else Error
      ensures r.Success? ==> Find(w, id) == Some(p)
      ensures r.Success? ==> done == Looked(old(done))
    {
      p := Main;
      r := Look();
      if !r.Success? { return; }
      var at := Find(w, id);
      if at.None? { return Error, Main; }
      p := at.value;
      if !At(w, p).value.ours { r := Error; }
    }

    /** haInspect by name. */
    method InspectName(p: Place) returns (r: Reply, info: Option<Container>)
      requires Valid()
      modifies this`w, this`trace, this`faults, this`done
      ensures Valid() && Onward() && Drifts(old(w), w)
      ensures r.Success? ==> Ours(At(w, p)) && info == At(w, p)
      ensures faults == old(faults) ==> SameContainers(old(w), w) && r == if Ours(At(old(w), p)) then Success else Error
      ensures r.Success? ==> done == Looked(old(done))
    {
      info := None;
      r := Look();
      if !r.Success? { return; }
      if !Ours(At(w, p)) { return Error, None; }
      info := At(w, p);
    }

    /** haPortAvailable: whether something listens on the module's port. */
    method PortAvailable() returns (r: Reply)
      requires Valid()
      modifies this`w, this`trace, this`faults, this`done
      ensures Valid() && Onward() && Drifts(old(w), w)
      ensures r.Success? && portSeesAll ==> !Running(w.main) && !Running(w.candidate) && !Running(w.previous)
      ensures faults == old(faults) ==>
        SameContainers(old(w), w) && r == if portSeesAll && AnyRunning(old(w)) then Error else Success
      ensures r.Success? ==> done == Looked(old(done))
    {
      r := Look();
      if r.Success? {
        r := Verdict();
      }
    }

    /** What the probe says: a container that it sees, or something else, may hold the port. */
    method Verdict() returns (r: Reply)
      modifies this`faults
      ensures !r.Crash? && (portSeesAll && AnyRunning(w) ==> r.Error?)
      ensures faults == if r.Error? && !(portSeesAll && AnyRunning(w)) then old(faults) + 1 else old(faults)
    {
      var busy: bool := *;
      r := if busy || (portSeesAll && AnyRunning(w)) then Error else Success;
      faults := if r.Error? && !(portSeesAll && AnyRunning(w)) then faults + 1 else faults;
    }

    /** ensureModuleUpgradeNamesFree. */
    method StagingFree() returns (r: Reply)
      requires Valid()
      modifies this`w, this`trace, this`faults, this`done
      ensures Valid() && Onward() && Drifts(old(w), w)
      ensures r.Success? ==> w.candidate.None? && w.previous.None?
      ensures faults == old(faults) ==> SameContainers(old(w), w)
      ensures faults == old(faults) ==>
        r == if old(w).candidate.None? && old(w).previous.None? then Success else Error
      ensures r.Success? ==> done == Twice(old(done))
    {
      r := Look();
      if !r.Success? { return; }
      if w.candidate.Some? { return Error; }
      r := Look();
      if !r.Success? { return; }
      if w.previous.Some? { return Error; }
    }

    // ------------------------------------------------------------ rollback

    /** The candidate, known by identity, is stopped and removed, or the rollback ends here. */
    method DropCandidate(id: nat) returns (r: Reply)
      requires Valid()
      modifies this`w, this`trace, this`faults, this`done
      ensures Valid() && Onward() && Dropped(old(w), w, id)
      ensures r.Success? ==> Gone(w, id)
      ensures faults == old(faults) ==> r == if Held(old(w), id) then Success else Error
      ensures r.Success? ==> Find(old(w), id).Some? && done == Dropping(old(done), Find(old(w), id).value)
    {
      var p;
      r, p := InspectId(id);
      if !r.Success? { return; }
      ghost var found := w;
      r := DropAt(p);
      DriftThenDropped(old(w), found, w, id);
    }

    method DropAt(p: Place) returns (r: Reply)
      requires Valid() && Ours(At(w, p))
      modifies this`w, this`trace, this`faults, this`done
      ensures Valid() && Onward() && Dropped(old(w), w, At(old(w), p).value.id)
      ensures r.Success? ==> Gone(w, At(old(w), p).value.id)
      ensures faults == old(faults) ==> r.Success?
      ensures r.Success? ==> done == Then(Then(old(done), Stop(p)), Remove(p))
    {
      Facts();
      ghost var id := At(w, p).value.id;
      r := StopContainer(p);
      if !r.Success? { return; }
      ghost var pre;
      r, pre := RemoveContainer(p);
      DroppedStep(old(w), pre, w, p, id);
    }

    /** haRestorePrevious: the candidate goes first; then the old container, unchanged in image
        and directory, gets its name back, starts, proves healthy, and is recorded. */
    method RestorePrevious(old0: Container, candidateId: Option<nat>) returns (r: Reply, ghost started: nat)
      requires Valid() && OnlyRuns(w, old0.id, candidateId) && candidateId != Some(old0.id) && old0.ours
      modifies this`w, this`trace, this`faults, this`done, this`log
      ensures Valid() && Onward()
      ensures r.Success? ==> Restored(w, old0) && Reopened(old0, started)
      ensures r.Success? && candidateId.Some? ==> Gone(w, candidateId.value)
      ensures w.active == old(w).active || w.active == Some(RecordOf(old0))
      ensures OwnerWrites(old(w), w, old0)
      ensures faults == old(faults) ==> r == if old(CanRestore(w, old0, candidateId)) then Success else Error
      ensures faults == old(faults) && r.Success? ==> Running(w.main)
      ensures r.Success? ==>
        Findable(old(w), old0.id, candidateId) && done == Restoring(old(done), old(w), old0, candidateId)
    {
      r, started := Success, 0;
      if candidateId.Some? {
        Facts();
        r := DropCandidate(candidateId.value);
        DroppedFinds(old(w), w, old0.id, candidateId.value);
        if !r.Success? { return; }
      }
      r, started := ReviveOld(old0, candidateId);
    }

    /** The candidate is gone, or there was none. */
    method ReviveOld(old0: Container, ghost gone: Option<nat>) returns (r: Reply, ghost started: nat)
      requires Valid() && OnlyRuns(w, old0.id, None) && old0.ours
      modifies this`w, this`trace, this`faults, this`done, this`log
      ensures Valid() && Onward()
      ensures r.Success? ==> Restored(w, old0) && Reopened(old0, started)
      ensures gone.Some? && old(Gone(w, gone.value)) ==> Gone(w, gone.value)
      ensures w.active == old(w).active || w.active == Some(RecordOf(old0))
      ensures OwnerWrites(old(w), w, old0)
      ensures faults == old(faults) ==> r == if old(CanRestore(w, old0, None)) then Success else Error
      ensures faults == old(faults) && r.Success? ==> Running(w.main)
      ensures r.Success? ==>
        Find(old(w), old0.id).Some? && done == Reviving(Twice(old(done)), Find(old(w), old0.id).value, old0)
    {
      started := 0;
      var p;
      r, p := FindOld(old0);
      if !r.Success? { return; }
      Facts();
      r, started := ReviveAt(p, old0, gone);
    }

    /** The old container by identity; its image and directory must be what they were. */
    method FindOld(old0: Container) returns (r: Reply, p: Place)
      requires Valid() && old0.ours
      modifies this`w, this`trace, this`faults, this`done
      ensures Valid() && Onward() && Drifts(old(w), w)
      ensures r.Success? ==> Ours(At(w, p)) && Stands(w, p, old0)
      ensures faults == old(faults) ==> SameContainers(old(w), w)
      ensures faults == old(faults) ==>
        r == if Held(old(w), old0.id) && Stands(old(w), Find(old(w), old0.id).value, old0) then Success else Error
      ensures faults == old(faults) && r.Success? ==> p == Find(old(w), old0.id).value
      ensures r.Success? ==> done == Twice(old(done))
      ensures r.Success? ==> Find(old(w), old0.id) == Some(p)
    {
      r, p := InspectId(old0.id);
      DriftFinds(old(w), w, old0.id);
      if !r.Success? { return; }
      if At(w, p).value.image != old0.image || At(w, p).value.dir != old0.dir { return Error, p; }
      r := Look();
    }

    /** The last part of the rollback: name, start, health, record. */
    method ReviveAt(p: Place, old0: Container, ghost gone: Option<nat>) returns (r: Reply, ghost started: nat)
      requires Valid() && Ours(At(w, p)) && Stands(w, p, old0) && OnlyRuns(w, old0.id, None)
      modifies this`w, this`trace, this`faults, this`done, this`log
      ensures Valid() && Onward()
      ensures r.Success? ==> Restored(w, old0) && Reopened(old0, started)
      ensures gone.Some? && old(Gone(w, gone.value)) ==> Gone(w, gone.value)
      ensures w.active == old(w).active || w.active == Some(RecordOf(old0))
      ensures OwnerWrites(old(w), w, old0)
      ensures faults == old(faults) ==> r == if p.Main? || old(w).main.None? then Success else Error
      ensures faults == old(faults) && r.Success? ==> Running(w.main)
      ensures r.Success? ==> done == Reviving(old(done), p, old0)
    {
      r, started := Success, 0;
      if !p.Main? {
        r := Reclaim(p, old0, gone);
        if !r.Success? { return; }
      }
      r, started := RunAndRecord(old0, gone);
    }

    /** Under its name again: start, health, record. */
    method RunAndRecord(old0: Container, ghost gone: Option<nat>) returns (r: Reply, ghost started: nat)
      requires Valid() && Ours(w.main) && Stands(w, Main, old0) && OnlyRuns(w, old0.id, None)
      modifies this`w, this`trace, this`faults, this`done, this`log
      ensures Valid() && Onward()
      ensures r.Success? ==> Restored(w, old0) && Reopened(old0, started)
      ensures gone.Some? && old(Gone(w, gone.value)) ==> Gone(w, gone.value)
      ensures w.active == old(w).active || w.active == Some(RecordOf(old0))
      ensures OwnerWrites(old(w), w, old0)
      ensures faults == old(faults) ==> r.Success? && Running(w.main)
      ensures r.Success? ==> done == Proving(Then(old(done), Start(Main)), old0)
    {
      r, started := StartMain(old0);
      if !r.Success? { return; }
      r := ProveAndRecord(old0, gone);
    }

    /** Health, then the record. */
    method ProveAndRecord(old0: Container, ghost gone: Option<nat>) returns (r: Reply)
      requires Valid() && Ours(w.main) && Stands(w, Main, old0)
      modifies this`w, this`trace, this`faults, this`done
      ensures Valid() && Onward()
      ensures r.Success? ==> Restored(w, old0)
      ensures gone.Some? && old(Gone(w, gone.value)) ==> Gone(w, gone.value)
      ensures w.active == old(w).active || w.active == Some(RecordOf(old0))
      ensures w.writers == old(w).writers
      ensures faults == old(faults) ==> r == if old(w).main.value.running then Success else Error
      ensures faults == old(faults) && r.Success? ==> Running(w.main)
      ensures r.Success? ==> done == Proving(old(done), old0)
    {
      r := WaitHealthy(Main);
      if !r.Success? { return; }
      r := RecordOld(old0);
    }

    /** The healthy old container is the recorded one again. */
    method RecordOld(old0: Container) returns (r: Reply)
      requires Valid() && Ours(w.main) && Stands(w, Main, old0) && RecordOf(old0) in w.healthy
      modifies this`w, this`trace, this`faults, this`done
      ensures Valid() && Onward() && Drifts(old(w).(active := w.active), w)
      ensures r.Success? ==> Restored(w, old0)
      ensures w.active == old(w).active || w.active == Some(RecordOf(old0))
      ensures faults == old(faults) ==> r.Success? && SameContainers(old(w), w)
      ensures r.Success? ==> done == Looked(Then(old(done), WriteActive(RecordOf(old0))))
    {
      Facts();
      r := WriteActiveRecord(RecordOf(old0));
      if !r.Success? { return; }
      r := Look();
    }

    /** docker rename of the old container back to the module's name. */
    method Reclaim(p: Place, old0: Container, ghost gone: Option<nat>) returns (r: Reply)
      requires Valid() && Ours(At(w, p)) && Stands(w, p, old0) && OnlyRuns(w, old0.id, None)
      modifies this`w, this`trace, this`faults, this`done
      ensures Valid() && Onward()
      ensures r.Success? ==> Ours(w.main) && Stands(w, Main, old0)
      ensures OnlyRuns(w, old0.id, None) && w.active == old(w).active && w.writers == old(w).writers
      ensures gone.Some? && old(Gone(w, gone.value)) ==> Gone(w, gone.value)
      ensures faults == old(faults) ==> r == if !p.Main? && old(w).main.None? then Success else Error
      ensures r.Success? ==> done == Then(old(done), Rename(p, Main))
    {
      ghost var pre;
      r, pre := RenameContainer(p, Main);
      match p { case Main => case Candidate => case Previous => }
    }

    /** docker start of the old container under the module's name. */
    method StartMain(old0: Container) returns (r: Reply, ghost started: nat)
      requires Valid() && Ours(w.main) && Stands(w, Main, old0) && OnlyRuns(w, old0.id, None)
      modifies this`w, this`trace, this`faults, this`done, this`log
      ensures Valid() && Onward()
      ensures Ours(w.main) && Stands(w, Main, old0)
      ensures w.active == old(w).active && old0.dir in w.writers
      ensures OwnerWrites(old(w), w, old0)
      ensures Aged(old(w).candidate, w.candidate) && Aged(old(w).previous, w.previous)
      ensures r.Success? ==> Reopened(old0, started)
      ensures faults == old(faults) ==> r.Success? && Running(w.main)
      ensures r.Success? ==> done == Then(old(done), Start(Main))
    {
      started := 0;
      Facts();
      ghost var pre;
      r, pre := StartLogged(Main);
      if r.Success? { started := |trace| - 2; }
    }

    // ------------------------------------------------------------- upgrade

    /** haReadState("active.json"). */
    method ReadActive() returns (r: Reply, record: Record)
      requires Valid()
      modifies this`w, this`trace, this`faults, this`done
      ensures Valid() && Onward() && Drifts(old(w), w)
      ensures r.Success? ==> w.active == Some(record)
      ensures faults == old(faults) ==> SameContainers(old(w), w) && r == if old(w).active.Some? then Success else Error
      ensures r.Success? ==> done == Looked(old(done))
    {
      record := Record("", 0);
      r := Look();
      if !r.Success? { return; }
      if w.active.None? { return Error, record; }
      record := w.active.value;
    }

    /** os.MkdirTemp: an empty generation that no container has. */
    method MakeDirectory() returns (r: Reply, dir: nat)
      requires Valid()
      modifies this`w, this`trace, this`faults, this`done
      ensures Valid() && Onward()
      ensures dir == old(w).nextDir && dir !in old(w).writers && Fetched(old(w), w, dir)
      ensures r.Success? ==> w.writers == old(w).writers[dir := {}] && Unused(w, dir)
      ensures faults == old(faults) ==> r.Success? && SameContainers(old(w), w)
      ensures r.Success? ==> done == Then(old(done), MakeDir)
    {
      Facts();
      dir := w.nextDir;
      ghost var pre;
      r, pre := Exec(MakeDir);
    }

    /** The walk that copies every file of the stopped container's generation. */
    method FillDirectory(dir: nat, source: nat) returns (r: Reply)
      requires Valid() && dir in w.writers && source in w.writers && dir != source && Unused(w, dir)
      modifies this`w, this`trace, this`faults, this`done, this`log
      ensures Valid() && Onward() && Drifts(old(w), w)
      ensures r.Success? ==> dir in w.content && source in w.content && w.content[dir] == w.content[source]
      ensures LogOf(log, source) == old(LogOf(log, source))
      ensures faults == old(faults) ==> r.Success? && SameContainers(old(w), w)
      ensures r.Success? ==> done == Then(old(done), FillDir(dir, source))
    {
      Facts();
      ghost var pre;
      r, pre := ExecWriting(FillDir(dir, source));
    }

    /** haCopyConfig: the copy goes to a fresh generation; on failure it may stay behind, partial. */
    method CopyConfig(source: nat) returns (r: Reply, dir: nat, ghost fork: nat)
      requires Valid() && source in w.writers && !Mounted(w, source)
      modifies this`w, this`trace, this`faults, this`done, this`log
      ensures Valid() && Onward()
      ensures dir == old(w).nextDir && dir !in old(w).writers
      ensures Fetched(old(w), w, dir)
      ensures r.Success? ==>
        && w.writers == old(w).writers[dir := {}] && Unused(w, dir)
        && |old(trace)| <= fork < |trace| && Forked(trace[fork], source, dir)
      ensures LogOf(log, source) == old(LogOf(log, source))
      ensures faults == old(faults) ==> r.Success? && SameContainers(old(w), w)
      ensures r.Success? ==> done == Copying(old(done), source, dir)
    {
      dir, fork := w.nextDir, 0;
      Facts();
      r := Look();
      if !r.Success? { return; }
      r, dir := MakeDirectory();
      if !r.Success? { return; }
      r := FillDirectory(dir, source);
      Facts();
      fork := |trace| - 1;
    }

    /** The old container stops, its data is copied, and the candidate is created on the copy. */
    method Stage(old0: Container, image: Image) returns (r: Reply, newId: Option<nat>, ghost fork: nat)
      requires Valid() && old0.ours && Ours(w.main) && Stands(w, Main, old0)
      requires w.candidate.None? && w.previous.None? && w.active == Some(RecordOf(old0))
      modifies this`w, this`trace, this`faults, this`done, this`log
      ensures Valid() && Onward()
      ensures w.active == old(w).active && NoNewWriters(old(w), w, old0) && newId != Some(old0.id)
      ensures OnlyRuns(w, old0.id, None)
      ensures r.Success? ==> newId.Some? && Staged(old(w), w, old0, newId.value, image)
      ensures r.Success? ==> |old(trace)| <= fork < |trace| && Forked(trace[fork], old0.dir, w.candidate.value.dir)
      ensures LogOf(log, old0.dir) == old(LogOf(log, old0.dir))
      ensures faults == old(faults) ==> r.Success?
      ensures !r.Success? ==> Ours(w.main) && Stands(w, Main, old0)
      ensures r.Success? ==> done == Staging(Looked(Then(old(done), Stop(Main))), old0, image, old(w).nextDir)
    {
      Facts();
      newId, fork := None, 0;
      r := StopContainer(Main);
      if !r.Success? { return; }
      r := Look();
      if !r.Success? { return; }
      if w.main.value.running {
        r := Error;
        return;
      }
      r, newId, fork := StageStopped(old0, image);
    }

    /** The old container is down: copy, record, port, candidate. */
    method StageStopped(old0: Container, image: Image) returns (r: Reply, newId: Option<nat>, ghost fork: nat)
      requires Valid() && old0.ours && w.main == Some(old0.(running := false))
      requires w.candidate.None? && w.previous.None? && w.active == Some(RecordOf(old0))
      modifies this`w, this`trace, this`faults, this`done, this`log
      ensures Valid() && Onward()
      ensures w.active == old(w).active && NoNewWriters(old(w), w, old0) && newId != Some(old0.id)
      ensures OnlyRuns(w, old0.id, None)
      ensures r.Success? ==> newId.Some? && Staged(old(w), w, old0, newId.value, image)
      ensures r.Success? ==> |old(trace)| <= fork < |trace| && Forked(trace[fork], old0.dir, w.candidate.value.dir)
      ensures LogOf(log, old0.dir) == old(LogOf(log, old0.dir))
      ensures faults == old(faults) ==> r.Success?
      ensures !r.Success? ==> Ours(w.main) && Stands(w, Main, old0)
      ensures w.candidate.Some? ==> w.backups == old(w).backups + [RecordOf(old0)]
      ensures r.Success? ==> done == Staging(old(done), old0, image, old(w).nextDir)
    {
      Facts();
      newId, fork := None, 0;
      var dir;
      r, dir, fork := CopyConfig(old0.dir);
      if !r.Success? { return; }
      ghost var pre;
      r, pre := Exec(WriteBackup(RecordOf(old0)));
      if !r.Success? { return; }
      r := PortAvailable();
      if !r.Success? { return; }
      r, newId := StageCandidate(old0, image, dir);
    }

    /** haCreate on the copy, and the check of what was created. */
    method StageCandidate(old0: Container, image: Image, dir: nat) returns (r: Reply, newId: Option<nat>)
      requires Valid() && old0.ours
      requires w.main == Some(old0.(running := false)) && w.candidate.None? && w.previous.None?
      requires w.active.Some? && dir in w.writers && w.writers[dir] == {} && Unused(w, dir)
      modifies this`w, this`trace, this`faults, this`done
      ensures Valid() && Onward()
      ensures w.active == old(w).active && w.writers == old(w).writers && newId != Some(old0.id)
      ensures w.backups == old(w).backups
      ensures OnlyRuns(w, old0.id, None)
      ensures r.Success? ==>
        && w.main == Some(old0.(running := false)) && w.previous.None?
        && newId.Some? && w.candidate == Some(Container(newId.value, image, dir, false, true))
      ensures faults == old(faults) ==> r.Success?
      ensures !r.Success? ==> Ours(w.main) && Stands(w, Main, old0) && w.previous.None?
      ensures r.Success? ==> done == Looked(Then(old(done), Create(Candidate, image, dir)))
    {
      Facts();
      newId := None;
      ghost var pre;
      r, pre := CreateContainer(Candidate, image, dir);
      if !r.Success? { return; }
      var info;
      r, info := InspectName(Candidate);
      if !r.Success? { return; }
      if info.value.image != image || info.value.dir != dir || info.value.id == old0.id { return Error, None; }
      newId := Some(info.value.id);
    }

    /** The candidate starts on the copy, proves healthy, and takes the module's name. */
    method Promote(old0: Container, candidate: Container) returns (r: Reply)
      requires Valid() && candidate.ours && candidate.id != old0.id && candidate.dir != old0.dir
      requires w.main == Some(old0.(running := false)) && w.candidate == Some(candidate) && w.previous.None?
      requires candidate.dir in w.writers && !candidate.running && old0.ours
      modifies this`w, this`trace, this`faults, this`done, this`log
      ensures Valid() && Onward() && w.active == old(w).active && w.backups == old(w).backups
      ensures w.writers == old(w).writers ||
              w.writers == old(w).writers[candidate.dir := old(w).writers[candidate.dir] + {candidate.id}]
      ensures OnlyRuns(w, old0.id, Some(candidate.id)) && LogOf(log, old0.dir) == old(LogOf(log, old0.dir))
      ensures r.Success? ==>
        && w.main == Some(candidate.(running := true)) && w.candidate.None?
          && w.previous == Some(old0.(running := false))
        && RecordOf(candidate) in w.healthy
        && w.writers == old(w).writers[candidate.dir := old(w).writers[candidate.dir] + {candidate.id}]
      ensures faults == old(faults) ==> r.Success?
      ensures !r.Success? ==> CanRestore(w, old0, Some(candidate.id))
      ensures r.Success? ==> done == Promoting(old(done))
    {
      ghost var pre;
      r, pre := StartLogged(Candidate);
      if !r.Success? { return; }
      r := WaitHealthy(Candidate);
      if !r.Success? { return; }
      r := SwapNames(old0, candidate);
      if !r.Success? { return; }
      r := Look();
      if r.Success? && !w.main.value.running { r := Error; }
    }

    /** Two renames: the old container to the side, the candidate to the module's name. */
    method SwapNames(old0: Container, candidate: Container) returns (r: Reply)
      requires Valid() && Ours(w.candidate) && Stands(w, Candidate, candidate)
      requires old0.ours && w.main == Some(old0.(running := false)) && w.previous.None?
      modifies this`w, this`trace, this`faults, this`done
      ensures Valid() && Onward()
      ensures w.active == old(w).active && w.writers == old(w).writers && w.healthy == old(w).healthy
      ensures w.backups == old(w).backups
      ensures OnlyRuns(w, old0.id, Some(candidate.id))
      ensures r.Success? ==>
        && Ours(w.main) && Stands(w, Main, candidate) && w.candidate.None?
          && w.previous == Some(old0.(running := false))
      ensures faults == old(faults) ==> r.Success? && SameContainers(Swapped(old(w)), w)
      ensures !r.Success? ==> CanRestore(w, old0, Some(candidate.id))
      ensures r.Success? ==> done == Swapping(old(done))
    {
      Facts();
      ghost var pre;
      r, pre := RenameContainer(Main, Previous);
      if !r.Success? { return; }
      r, pre := RenameContainer(Candidate, Main);
    }

    /** Everything from the stop of the old container to the new one under the module's name. */
    method CutOver(old0: Container, image: Image) returns (r: Reply, newId: Option<nat>, ghost fork: nat)
      requires Valid() && old0.ours && Ours(w.main) && Stands(w, Main, old0)
      requires w.candidate.None? && w.previous.None? && w.active == Some(RecordOf(old0))
      modifies this`w, this`trace, this`faults, this`done, this`log
      ensures Valid() && Onward()
      ensures w.active == old(w).active && NoNewWriters(old(w), w, old0) && newId != Some(old0.id)
      ensures OnlyRuns(w, old0.id, newId) && LogOf(log, old0.dir) == old(LogOf(log, old0.dir))
      ensures r.Success? ==> Upgraded(old(w), w, old0, image)
      ensures r.Success? ==> |old(trace)| <= fork < |trace| && Forked(trace[fork], old0.dir, w.main.value.dir)
      ensures faults == old(faults) ==> r.Success?
      ensures !r.Success? ==> CanRestore(w, old0, newId)
      ensures r.Success? ==> done == CuttingOver(old(done), old0, image, old(w).nextDir)
    {
      Facts();
      r, newId, fork := Stage(old0, image);
      if !r.Success? {
        newId := None;
        return;
      }
      ghost var staged := w;
      r := Promote(old0, w.candidate.value);
    }

    /** The recorded container of the image, running. */
    method FindServing(previousImage: Image) returns (r: Reply, info: Option<Container>)
      requires Valid()
      modifies this`w, this`trace, this`faults, this`done
      ensures Valid() && Onward() && Drifts(old(w), w)
      ensures r.Success? ==>
        && info.Some? && info.value.ours && info.value.image == previousImage && Ours(w.main)
        && Stands(w, Main, info.value) && w.active == Some(RecordOf(info.value))
      ensures faults == old(faults) ==> SameContainers(old(w), w)
      ensures faults == old(faults) ==>
        r == if && Running(old(w).main) && Ours(old(w).main) && old(w).main.value.image == previousImage
                && old(w).active == Some(RecordOf(old(w).main.value)) then Success else Error
      ensures r.Success? ==> done == Twice(old(done))
    {
      r, info := InspectName(Main);
      if !r.Success? { return; }
      var record;
      r, record := ReadActive();
      if !r.Success? { return; }
      if info.value.image != previousImage || !info.value.running || record != RecordOf(info.value) {
        return Error, None;
      }
    }

    /** The same, with both staging names free. */
    method FindRunning(previousImage: Image) returns (r: Reply, info: Option<Container>)
      requires Valid()
      modifies this`w, this`trace, this`faults, this`done
      ensures Valid() && Onward() && Drifts(old(w), w)
      ensures r.Success? ==>
        && info.Some? && info.value.ours && info.value.image == previousImage && Ours(w.main)
          && Stands(w, Main, info.value)
        && w.candidate.None? && w.previous.None? && w.active == Some(RecordOf(info.value))
      ensures faults == old(faults) ==> SameContainers(old(w), w)
      ensures faults == old(faults) ==>
        r == if Upgradable(old(w), previousImage) then Success else Error
      ensures r.Success? ==> done == Twice(Twice(Twice(old(done))))
    {
      info := None;
      r := Look();
      if !r.Success? { return; }
      r, info := FindServing(previousImage);
      if !r.Success? { return; }
      r := StagingFree();
      if !r.Success? { return; }
      r := Look();
    }

    /** docker.module.upgrade. `restored`: the failed upgrade was rolled back completely. */
    method Upgrade(image: Image, previousImage: Image)
      returns (r: Reply, restored: bool, ghost old0: Option<Container>, ghost fork: nat, ghost started: nat)
      requires Valid()
      modifies this`w, this`trace, this`faults, this`done, this`log
      ensures Valid() && Onward() && w.active == old(w).active
      ensures r.Success? ==>
        && old0.Some? && old0.value.image == previousImage && w.active == Some(RecordOf(old0.value))
        && Stands(old(w), Main, old0.value) && Upgraded(old(w), w, old0.value, image)
        && |old(trace)| <= fork < |trace| && Forked(trace[fork], old0.value.dir, w.main.value.dir)
        && |old(trace)| > 0 && Untouched(trace, |old(trace)| - 1, |trace| - 1, old0.value.dir)
      ensures restored ==>
        && old0.Some? && Stands(old(w), Main, old0.value) && Restored(w, old0.value) && Reopened(old0.value, started)
        && |old(trace)| > 0 && Untouched(trace, |old(trace)| - 1, started, old0.value.dir)
      ensures old0.Some? ==> NoNewWriters(old(w), w, old0.value)
      ensures old0.None? ==> Drifts(old(w), w)
      ensures image == previousImage ==> old0.None? && !r.Success?
      ensures faults == old(faults) ==>
        r == if image != previousImage && Upgradable(old(w), previousImage) then Success else Error
      ensures r.Error? && old0.Some? && faults <= old(faults) + 1 ==> restored && Running(w.main)
      ensures image != previousImage && Upgradable(old(w), previousImage) && faults == old(faults) ==> r.Success?
      ensures r.Success? ==> done == CuttingOver(Twice(Twice(Twice(old(done)))), old0.value, image, old(w).nextDir)
    {
      old0, restored, fork, started := None, false, 0, 0;
      ghost var was, before, w0 := trace, log, w;
      r := Error;
      if image == previousImage { return; }
      var info;
      r, info := FindRunning(previousImage);
      if !r.Success? { return; }
      old0 := info;
      r, restored, fork, started := Replace(info.value, image);
      if r.Success? || restored {
        ghost var to := if restored then started else |trace| - 1;
        StaysUntouched(was, before, w0, leak, trace, log, w, leak, to, info.value.dir);
      }
    }

    /** The cut over, and the rollback when it fails. */
    method Replace(old0: Container, image: Image)
      returns (r: Reply, restored: bool, ghost fork: nat, ghost started: nat)
      requires Valid() && old0.ours && Ours(w.main) && Stands(w, Main, old0)
      requires w.candidate.None? && w.previous.None? && w.active == Some(RecordOf(old0))
      modifies this`w, this`trace, this`faults, this`done, this`log
      ensures Valid() && Onward()
      ensures w.active == old(w).active && NoNewWriters(old(w), w, old0)
      ensures r.Success? ==> !restored && Upgraded(old(w), w, old0, image)
      ensures r.Success? ==> |old(trace)| <= fork < |trace| && Forked(trace[fork], old0.dir, w.main.value.dir)
      ensures r.Success? ==> LogOf(log, old0.dir) == old(LogOf(log, old0.dir))
      ensures restored ==> r.Error? && Restored(w, old0) && Reopened(old0, started)
      ensures faults == old(faults) ==> r.Success?
      ensures r.Error? && faults <= old(faults) + 1 ==> restored && Running(w.main)
      ensures r.Success? ==> done == CuttingOver(old(done), old0, image, old(w).nextDir)
    {
      restored, started := false, 0;
      var newId;
      r, newId, fork := CutOver(old0, image);
      if !r.Error? { return; }
      var back;
      back, started := RestorePrevious(old0, newId);
      restored := back.Success?;
      if back.Crash? { r := Crash; }
    }

    /** The new container and the retained, stopped one. */
    method FindPair(image: Image, previousImage: Image)
      returns (r: Reply, current: Option<Container>, previous: Option<Container>)
      requires Valid()
      modifies this`w, this`trace, this`faults, this`done
      ensures Valid() && Onward() && Drifts(old(w), w)
      ensures r.Success? ==>
        && PairMatches(w, image, previousImage) && previous == w.previous && !previous.value.running
        && current.Some? && Stands(w, Main, current.value)
      ensures faults == old(faults) ==> SameContainers(old(w), w)
      ensures faults == old(faults) ==>
        r == if PairMatches(old(w), image, previousImage) && !old(w).previous.value.running then Success else Error
      ensures r.Success? ==> done == Twice(old(done))
    {
      previous := None;
      r, current := InspectName(Main);
      if !r.Success? { return; }
      r, previous := InspectName(Previous);
      if !r.Success? { return; }
      if current.value.image != image || previous.value.image != previousImage
         || current.value.dir == previous.value.dir || previous.value.running {
        r := Error;
      }
    }

    /** docker.module.upgrade.commit and docker.module.upgrade.rollback. */
    method FinishUpgrade(commit: bool, image: Image, previousImage: Image) returns (r: Reply, ghost started: nat)
      requires Valid()
      modifies this`w, this`trace, this`faults, this`done, this`log
      ensures Valid() && Onward()
      ensures !PairMatches(old(w), image, previousImage) ==> !r.Success? && Drifts(old(w), w)
      ensures r.Success? && commit ==> Committed(old(w), w)
      ensures r.Success? && !commit ==>
        && Restored(w, old(w).previous.value) && Gone(w, old(w).main.value.id)
        && |old(trace)| > 0 && Reopened(old(w).previous.value, started)
        && Untouched(trace, |old(trace)| - 1, started, old(w).previous.value.dir)
      ensures w.active == old(w).active || PairMatches(old(w), image, previousImage)
      ensures faults == old(faults) ==>
        r == if Finishable(old(w), image, previousImage, commit) then Success else Error
      ensures faults == old(faults) && r.Success? ==> Running(w.main)
      ensures commit && old(w).previous.Some? && w.previous.None? ==>
        old(w).main.Some? && w.active == Some(RecordOf(old(w).main.value))
      ensures r.Success? && commit ==> done == Committing(Twice(old(done)), old(w).main.value)
      ensures r.Success? && !commit ==>
        var old0, candidateId := old(w).previous.value, Some(old(w).main.value.id);
        Findable(old(w), old0.id, candidateId) && done == Restoring(Twice(old(done)), old(w), old0, candidateId)
    {
      started := 0;
      ghost var was, before, w0 := trace, log, w;
      var current, previous;
      r, current, previous := FindPair(image, previousImage);
      if !r.Success? { return; }
      Facts();
      if commit {
        r := CommitPair();
      } else {
        r, started := RestorePrevious(previous.value, Some(current.value.id));
        if r.Success? {
          StaysUntouched(was, before, w0, leak, trace, log, w, leak, started, previous.value.dir);
        }
      }
    }

    /** The new pair proves healthy and is recorded; only then the old container goes. */
    method CommitPair() returns (r: Reply)
      requires Valid() && Ours(w.main) && Ours(w.previous)
      modifies this`w, this`trace, this`faults, this`done
      ensures Valid() && Onward()
      ensures r.Success? ==> Committed(old(w), w)
      ensures w.active == old(w).active || w.active == Some(RecordOf(old(w).main.value))
      ensures faults == old(faults) ==>
        r == if old(w).main.value.running && !old(w).previous.value.running then Success else Error
      ensures faults == old(faults) && r.Success? ==> Running(w.main)
      ensures w.previous.None? ==> w.active == Some(RecordOf(old(w).main.value))
      ensures r.Success? ==> done == Committing(old(done), old(w).main.value)
    {
      Facts();
      r := WaitHealthy(Main);
      if !r.Success? { return; }
      r := WriteActiveRecord(RecordOf(w.main.value));
      if !r.Success? { return; }
      ghost var pre;
      r, pre := RemoveContainer(Previous);
      if !r.Success? { return; }
      r := Look();
    }

    // ------------------------------------------------ install, start, stop, remove

    /** The request found an upgrade interrupted with a container running, and brought up a second one. */
    twostate predicate Leaks(image: Image)
      reads this
    {
      leak.Some? && |old(trace)| < leak.value < |trace| && Lapse(old(w), image)
    }

    /** When an install can succeed at all. */
    predicate Installable(v: World, image: Image) {
      if v.main.Some? then Recorded(v, image) && (v.main.value.running || !(portSeesAll && AnyRunning(v)))
      else v.candidate.None? && v.previous.None? && (v.active.Some? ==> v.active.value.image == image)
    }

    predicate Recorded(v: World, image: Image) {
      Ours(v.main) && v.main.value.image == image && v.active == Some(RecordOf(v.main.value))
    }

    /** installHomeAssistant. */
    method Install(image: Image) returns (r: Reply)
      requires Valid()
      modifies this`w, this`trace, this`faults, this`done, this`log, this`leak
      ensures Valid() && Onward()
      ensures r.Success? ==> InService(w) && w.main.value.image == image
      ensures old(w).active.Some? ==> w.active == old(w).active
      ensures w.active.Some? && old(w).active.None? ==> w.active.value.dir !in old(w).writers
      ensures leak != old(leak) ==> old(leak).None? && Leaks(image)
      ensures faults == old(faults) ==> r == if Installable(old(w), image) then Success else Error
      ensures faults == old(faults) && r.Success? ==> Running(w.main)
      ensures r.Success? && old(w).main.None? ==>
        done == Installing(Twice(old(done)), old(w).active.None?, w.active.value)
      ensures r.Success? && old(w).main.Some? ==>
        done == Resuming(Twice(old(done)), true) || done == Resuming(Twice(old(done)), false)
    {
      r := Look();
      if !r.Success? { return; }
      r := Look();
      if !r.Success? { return; }
      if w.main.Some? {
        r := Resume(image);
      } else {
        r := InstallFresh(image);
      }
    }

    /** The container under the module's name, if it is the recorded one. */
    method FindRecorded(image: Image) returns (r: Reply, info: Option<Container>)
      requires Valid()
      modifies this`w, this`trace, this`faults, this`done
      ensures Valid() && Onward() && Drifts(old(w), w)
      ensures r.Success? ==>
        && Ours(w.main) && w.main.value.image == image && w.active == Some(RecordOf(w.main.value))
        && info.Some? && Stands(w, Main, info.value)
      ensures faults == old(faults) ==>
        SameContainers(old(w), w) && r == if Recorded(old(w), image) then Success else Error
      ensures faults == old(faults) && r.Success? ==> info == w.main
      ensures r.Success? ==> done == Twice(old(done))
    {
      r, info := InspectName(Main);
      if !r.Success? { return; }
      var record;
      r, record := ReadActive();
      if !r.Success? { return; }
      if info.value.image != image || record != RecordOf(info.value) { return Error, None; }
    }

    /** The resume path: it looks at the record and, for a stopped container, at the port,
        but not at the staging names. */
    method Resume(image: Image) returns (r: Reply)
      requires Valid() && w.main.Some?
      modifies this`w, this`trace, this`faults, this`done, this`log, this`leak
      ensures Valid() && Onward()
      ensures r.Success? ==> InService(w) && w.main.value.image == image
      ensures w.active == old(w).active
      ensures leak != old(leak) ==> old(leak).None? && Leaks(image)
      ensures InService(w) || Drifts(old(w), w) || (Ours(w.main) && w.active == Some(RecordOf(w.main.value)))
      ensures faults == old(faults) ==>
        r == if Recorded(old(w), image) && (old(w).main.value.running || !(portSeesAll && AnyRunning(old(w))))
             then Success else Error
      ensures faults == old(faults) && r.Success? ==> Running(w.main)
      ensures r.Success? ==> done == Resuming(old(done), true) || done == Resuming(old(done), false)
    {
      var info;
      r, info := FindRecorded(image);
      if !r.Success? { return; }
      r := BringUp(info.value.running);
      if !r.Success? { return; }
      r := WaitHealthy(Main);
      if !r.Success? { return; }
      r := Look();
    }

    /** A stopped container is started when the port seems free. */
    method BringUp(running: bool) returns (r: Reply)
      requires Valid() && Ours(w.main)
      modifies this`w, this`trace, this`faults, this`done, this`log, this`leak
      ensures Valid() && Onward()
      ensures Ours(w.main) && Stands(w, Main, old(w).main.value) && w.active == old(w).active
      ensures leak != old(leak) ==>
        old(leak).None? && leak.Some? && |old(trace)| < leak.value < |trace| && !OthersStopped(old(w), Main)
      ensures faults == old(faults) ==> r == if running || !(portSeesAll && AnyRunning(old(w))) then Success else Error
      ensures faults == old(faults) && r.Success? && (running ==> old(w).main.value.running) ==> Running(w.main)
      ensures r.Success? ==> done == if running then old(done) else Then(Looked(old(done)), Start(Main))
    {
      Facts();
      r := Success;
      if !running {
        r := PortAvailable();
        if !r.Success? { return; }
        ghost var pre;
        r, pre := StartBlindly();
      }
    }

    /** The first install, or a reinstall on the preserved configuration. */
    method InstallFresh(image: Image) returns (r: Reply)
      requires Valid() && w.main.None?
      modifies this`w, this`trace, this`faults, this`done, this`log
      ensures Valid() && Onward()
      ensures r.Success? ==> InService(w) && w.main.value.image == image
      ensures old(w).active.Some? ==> w.active == old(w).active
      ensures w.active.Some? && old(w).active.None? ==> w.active.value.dir !in old(w).writers
      ensures faults == old(faults) ==>
        r == if old(w).candidate.None? && old(w).previous.None?
                && (old(w).active.Some? ==> old(w).active.value.image == image) then Success else Error
      ensures faults == old(faults) && r.Success? ==> Running(w.main)
      ensures r.Success? ==> done == Installing(old(done), old(w).active.None?, w.active.value)
    {
      r := StagingFree();
      if !r.Success? { return; }
      r := PortAvailable();
      if !r.Success? { return; }
      r := Look();
      if !r.Success? { return; }
      if w.active.None? {
        r := RecordFreshDirectory(image);
        if !r.Success? { return; }
      }
      r := InstallRecorded(image);
    }

    /** The install on the recorded directory. */
    method InstallRecorded(image: Image) returns (r: Reply)
      requires Valid() && w.main.None? && w.candidate.None? && w.previous.None?
      modifies this`w, this`trace, this`faults, this`done, this`log
      ensures Valid() && Onward() && w.active == old(w).active
      ensures r.Success? ==> InService(w) && w.main.value.image == image
      ensures faults == old(faults) ==>
        r == if old(w).active.Some? && old(w).active.value.image == image then Success else Error
      ensures faults == old(faults) && r.Success? ==> Running(w.main)
      ensures r.Success? ==> done == Creating(Looked(Twice(old(done))), w.active.value)
    {
      var record;
      r, record := ReadActive();
      if !r.Success? { return; }
      if record.image != image { return Error; }
      r := Look();
      if !r.Success? { return; }
      r := PortAvailable();
      if !r.Success? { return; }
      r := CreateAndStart(record);
    }

    /** No record: a new directory, never an existing one, and the record of it. */
    method RecordFreshDirectory(image: Image) returns (r: Reply)
      requires Valid() && w.active.None?
      modifies this`w, this`trace, this`faults, this`done
      ensures Valid() && Onward() && Fetched(old(w), w.(active := None), old(w).nextDir)
      ensures w.active.Some? ==>
        w.active.value == Record(image, old(w).nextDir) && w.active.value.dir !in old(w).writers
      ensures faults == old(faults) ==> r.Success? && SameContainers(old(w), w)
      ensures r.Success? ==> w.active == Some(Record(image, old(w).nextDir))
      ensures r.Success? ==> done == Then(Then(old(done), MakeDir), WriteActive(Record(image, old(w).nextDir)))
    {
      var dir;
      r, dir := MakeDirectory();
      if !r.Success? { return; }
      r := WriteActiveRecord(Record(image, dir));
    }

    /** haCreate, start, health check; a failed start is cleaned up again. */
    method CreateAndStart(record: Record) returns (r: Reply)
      requires Valid() && w.active == Some(record)
      requires w.main.None? && w.candidate.None? && w.previous.None?
      modifies this`w, this`trace, this`faults, this`done, this`log
      ensures Valid() && Onward() && w.active == old(w).active
      ensures r.Success? ==> InService(w) && w.main.value.image == record.image
      ensures faults == old(faults) ==> r.Success? && Running(w.main)
      ensures r.Success? ==> done == Creating(old(done), record)
    {
      Facts();
      ghost var pre;
      r, pre := CreateContainer(Main, record.image, record.dir);
      if !r.Success? { return; }
      r := StartOrDrop();
      if !r.Success? { return; }
      r := Look();
    }

    /** Start and health check; when one fails, and nothing else does, the container is removed again. */
    method StartOrDrop() returns (r: Reply)
      requires Valid() && Ours(w.main) && w.candidate.None? && w.previous.None? && w.main.value.dir in w.writers
      modifies this`w, this`trace, this`faults, this`done, this`log
      ensures Valid() && Onward() && w.active == old(w).active
      ensures r.Success? ==> Ours(w.main) && Stands(w, Main, old(w).main.value) && RecordOf(w.main.value) in w.healthy
      ensures faults == old(faults) ==> r.Success? && Running(w.main)
      ensures r.Error? && faults <= old(faults) + 1 ==> w.main.None?
      ensures r.Success? ==> done == Then(Then(old(done), Start(Main)), Probe(Main))
    {
      ghost var pre;
      r, pre := StartContainer(Main);
      if r.Success? {
        r := WaitHealthy(Main);
      }
      if r.Error? {
        CleanUp();
      }
    }

    /** haCleanupFailedStart: stop, then remove. */
    method CleanUp()
      requires Valid() && Ours(w.main)
      modifies this`w, this`trace, this`faults, this`done
      ensures Valid() && Onward() && w.active == old(w).active
      ensures faults == old(faults) ==> w.main.None?
      ensures done == old(done) || done == Then(old(done), Stop(Main))
        || done == Then(Then(old(done), Stop(Main)), Remove(Main))
    {
      var r := StopContainer(Main);
      if !r.Success? { return; }
      ghost var pre;
      r, pre := RemoveContainer(Main);
    }

    /** When an action can succeed at all. */
    predicate Controllable(v: World, action: Action) {
      match action
      case Halt => Ours(v.main)
      case Delete => v.main.None? || (Ours(v.main) && v.candidate.None? && v.previous.None?)
      case _ => Ours(v.main) && v.active == Some(RecordOf(v.main.value)) && v.candidate.None? && v.previous.None?
    }

    /** At step `k` the module's container does not run. */
    twostate predicate DownAt(k: nat)
      reads this
    {
      |old(trace)| <= k < |trace| && trace[k].main.Some? && !trace[k].main.value.running
    }

    /** controlHomeAssistant. */
    method Control(action: Action) returns (r: Reply, ghost down: nat)
      requires Valid()
      modifies this`w, this`trace, this`faults, this`done, this`log
      ensures Valid() && Onward()
      ensures w.active == old(w).active
      ensures r.Success? && (action.Begin? || action.Restart?) ==> InService(w)
      ensures r.Success? && action.Halt? ==> Ours(w.main) && !w.main.value.running
      ensures r.Success? && action.Delete? ==> w.main.None? && w.writers == old(w).writers
      ensures r.Success? && !action.Halt? && old(w).main.Some? ==> w.candidate.None? && w.previous.None?
      ensures faults == old(faults) ==> r == if Controllable(old(w), action) then Success else Error
      ensures faults == old(faults) && r.Success? && (action.Begin? || action.Restart?) ==> Running(w.main)
      ensures r.Success? && action.Restart? ==> DownAt(down)
      ensures r.Success? && action.Halt? ==> done == Looked(Then(Twice(old(done)), Stop(Main)))
      ensures r.Success? && action.Delete? ==>
        done == if old(w).main.None? then Looked(old(done))
                else Then(Then(Twice(Twice(old(done))), Stop(Main)), Remove(Main))
      ensures r.Success? && !action.Halt? && !action.Delete? ==>
        || done == Serving(Twice(Twice(old(done))), true, action.Restart?)
        || done == Serving(Twice(Twice(old(done))), false, action.Restart?)
    {
      down := 0;
      r := Look();
      if !r.Success? { return; }
      if w.main.None? && action.Delete? { return; }
      var info;
      r, info := InspectName(Main);
      if !r.Success? { return; }
      if !action.Halt? {
        r := StagingFree();
        if !r.Success? { return; }
      }
      match action {
        case Halt =>
          r := StopContainer(Main);
          if !r.Success? { return; }
          r := Look();
        case Delete =>
          r := DeleteMain();
        case _ =>
          r, down := Run(info.value, action.Restart?);
      }
    }

    /** stop, then rm: every configuration generation stays. */
    method DeleteMain() returns (r: Reply)
      requires Valid() && Ours(w.main) && w.candidate.None? && w.previous.None?
      modifies this`w, this`trace, this`faults, this`done
      ensures Valid() && Onward() && w.active == old(w).active && w.writers == old(w).writers
      ensures r.Success? ==> w.main.None? && w.candidate.None? && w.previous.None?
      ensures faults == old(faults) ==> r.Success?
      ensures r.Success? ==> done == Then(Then(old(done), Stop(Main)), Remove(Main))
    {
      r := StopContainer(Main);
      if !r.Success? { return; }
      ghost var pre;
      r, pre := RemoveContainer(Main);
    }

    /** start and restart: only what the record names, and only with the staging names free. */
    method Run(c: Container, restart: bool) returns (r: Reply, ghost down: nat)
      requires Valid() && Ours(w.main) && Stands(w, Main, c) && w.candidate.None? && w.previous.None?
      requires w.main.value.running ==> c.running
      modifies this`w, this`trace, this`faults, this`done, this`log
      ensures Valid() && Onward() && w.active == old(w).active
      ensures r.Success? ==> InService(w) && w.candidate.None? && w.previous.None?
      ensures w.active != Some(RecordOf(c)) ==> Drifts(old(w), w)
      ensures faults == old(faults) ==>
        r == if old(w).active == Some(RecordOf(old(w).main.value)) then Success else Error
      ensures faults == old(faults) && r.Success? ==> Running(w.main)
      ensures r.Success? && restart ==> DownAt(down)
      ensures r.Success? ==> done == Serving(old(done), c.running, restart)
    {
      down := 0;
      var record;
      r, record := ReadActive();
      if !r.Success? { return; }
      if record != RecordOf(c) { return Error, down; }
      if !c.running {
        r := PortAvailable();
        if !r.Success? { return; }
      }
      r, down := Begin(c, restart);
    }

    /** A restart stops first. */
    method Begin(c: Container, restart: bool) returns (r: Reply, ghost down: nat)
      requires Valid() && Ours(w.main) && Stands(w, Main, c) && w.candidate.None? && w.previous.None?
      requires w.active == Some(RecordOf(c))
      modifies this`w, this`trace, this`faults, this`done, this`log
      ensures Valid() && Onward() && w.active == old(w).active
      ensures r.Success? ==> InService(w) && w.candidate.None? && w.previous.None?
      ensures faults == old(faults) ==> r.Success? && Running(w.main)
      ensures r.Success? && restart ==> DownAt(down)
      ensures r.Success? ==> done == Beginning(old(done), restart)
    {
      down := 0;
      if restart {
        r := StopContainer(Main);
        if !r.Success? { return; }
        Facts();
        down := |trace| - 1;
      }
      r := StartAndWait(c);
    }

    /** The starting half of both. */
    method StartAndWait(ghost c: Container) returns (r: Reply)
      requires Valid() && Ours(w.main) && Stands(w, Main, c) && w.candidate.None? && w.previous.None?
      requires w.active == Some(RecordOf(c))
      modifies this`w, this`trace, this`faults, this`done, this`log
      ensures Valid() && Onward() && w.active == old(w).active
      ensures r.Success? ==> InService(w) && w.candidate.None? && w.previous.None?
      ensures faults == old(faults) ==> r.Success? && Running(w.main)
      ensures r.Success? ==> done == Starting(old(done))
    {
      Facts();
      ghost var pre;
      r, pre := StartContainer(Main);
      if !r.Success? { return; }
      r := WaitHealthy(Main);
      if !r.Success? { return; }
      r := Look();
    }

    // ------------------------------------------------------------ any session

    /** When a request can succeed at all. */
    predicate Accepts(v: World, request: Request) {
      match request
      case Install(image) => Installable(v, image)
      case Upgrade(image, previous) => image != previous && Upgradable(v, previous)
      case Finish(commit, image, previous) => Finishable(v, image, previous, commit)
      case Control(action) => Controllable(v, action)
    }

    /** One request. */
    method Serve(request: Request) returns (r: Reply)
      requires Valid()
      modifies this`w, this`trace, this`faults, this`done, this`log, this`leak
      ensures Valid() && Onward()
      ensures r.Success? && request.Install? ==> InService(w) && w.main.value.image == request.image
      ensures leak != old(leak) ==> request.Install? && old(leak).None? && Leaks(request.image)
      ensures faults == old(faults) ==> r == if Accepts(old(w), request) then Success else Error
      ensures r.Success? ==> Served(request, w)
    {
      match request {
        case Install(image) =>
          r := Install(image);
        case Upgrade(image, previous) =>
          var restored;
          ghost var old0, fork, started;
          r, restored, old0, fork, started := Upgrade(image, previous);
        case Finish(commit, image, previous) =>
          ghost var started;
          r, started := FinishUpgrade(commit, image, previous);
        case Control(action) =>
          ghost var down;
          r, down := Control(action);
      }
    }

    /** Any sequence of requests, with any failures and crashes: every state on the way has its
        generations isolated, and a healthy record stays healthy. No two containers ever run at
        once, exactly as long as no resuming install has started a second one; such an install
        was asked for while an interrupted upgrade had a container running. Each request is
        answered from where the one before it has led (`from`): success has done what was asked,
        and if nothing fails by itself, whatever can succeed does. */
    method ServeAll(requests: seq<Request>)
      returns (answers: seq<Reply>, ghost from: seq<World>, ghost asked: nat, ghost image: Image)
      requires Valid()
      modifies this`w, this`trace, this`faults, this`done, this`log, this`leak
      ensures Valid() && Onward() && |old(trace)| > 0
      ensures forall k :: 0 <= k < |trace| ==> Isolated(trace[k])
      ensures forall j, k :: 0 <= j <= k < |trace| && RecordHealthy(trace[j]) ==> RecordHealthy(trace[k])
      ensures Solo(trace[0]) ==> (leak.None? <==> forall k :: 0 <= k < |trace| ==> Solo(trace[k]))
      ensures leak != old(leak) ==>
        old(leak).None? && leak.Some? && |old(trace)| - 1 <= asked < leak.value < |trace| && Lapse(trace[asked], image)
      ensures leak != old(leak) ==> exists i :: 0 <= i < |requests| && requests[i] == Request.Install(image)
      ensures portSeesAll ==> leak.None?
      ensures |answers| == |requests| && |from| == |requests| + 1 && from[0] == old(w) && from[|requests|] == w
      ensures forall i :: 0 <= i < |requests| && answers[i].Success? ==> Served(requests[i], from[i + 1])
      ensures faults == old(faults) ==>
        forall i :: 0 <= i < |requests| ==> answers[i] == if Accepts(from[i], requests[i]) then Success else Error
    {
      Facts();
      asked, image, answers, from := 0, "", [], [w];
      for i := 0 to |requests|
        invariant Valid() && Onward() && |answers| == i && |from| == i + 1 && from[0] == old(w) && from[i] == w
        invariant forall j :: 0 <= j < i && answers[j].Success? ==> Served(requests[j], from[j + 1])
        invariant faults == old(faults) ==>
          forall j :: 0 <= j < i ==> answers[j] == if Accepts(from[j], requests[j]) then Success else Error
        invariant leak != old(leak) ==> exists j :: 0 <= j < i && requests[j] == Request.Install(image)
        invariant leak != old(leak) ==>
          old(leak).None? && leak.Some? && |old(trace)| - 1 <= asked < leak.value < |trace|
            && Lapse(trace[asked], image)
      {
        Facts();
        ghost var before, at := leak, |trace| - 1;
        var r := Serve(requests[i]);
        answers, from := answers + [r], from + [w];
        if leak != before {
          asked, image := at, requests[i].image;
        }
      }
      WholeRunIsSafe();
    }

    lemma WholeRunIsSafe()
      requires Valid()
      ensures |trace| > 0 && forall k :: 0 <= k < |trace| ==> Isolated(trace[k])
      ensures Solo(trace[0]) ==> (leak.None? <==> forall k :: 0 <= k < |trace| ==> Solo(trace[k]))
      ensures forall j, k :: 0 <= j <= k < |trace| && RecordHealthy(trace[j]) ==> RecordHealthy(trace[k])
    {
      assert Key(w);
      forall k | 0 <= k < |trace|
        ensures Isolated(trace[k]) && (leak.None? && Solo(trace[0]) ==> Solo(trace[k]))
      {
        RunIsSafe(trace, k, leak.None?);
      }
      forall j, k | 0 <= j <= k < |trace| && RecordHealthy(trace[j]) ensures RecordHealthy(trace[k]) {
        RecordStaysHealthy(trace, j, k, leak.None?);
      }
    }
  }

  /** One more permitted command of a run whose starts find the others stopped. */
  lemma Go(t: seq<World>, c: Command) returns (u: seq<World>)
    requires IsRun(t, true) && Inv(t[|t| - 1]) && Permitted(c, t[|t| - 1], true) && Possible(c, t[|t| - 1])
    ensures IsRun(u, true) && u[0] == t[0] && u[|u| - 1] == Apply(c, t[|t| - 1]) && Inv(u[|u| - 1])
  {
    u := t + [Apply(c, t[|t| - 1])];
    CommandKeepsInv(c, t[|t| - 1], true);
    RunGrows(t, Apply(c, t[|t| - 1]), true);
  }

  /** A lapse is reached from any host in service: by an upgrade that gets as far as starting its candidate. */
  lemma LapseIsReached(w: World, image: Image) returns (t: seq<World>)
    requires Inv(w) && Ours(w.main) && w.active == Some(RecordOf(w.main.value)) && w.candidate.None? && w.previous.None?
    ensures IsRun(t, true) && t[0] == w
    ensures Lapse(t[|t| - 1], w.main.value.image) && Resumable(t[|t| - 1], w.main.value.image)
  {
    var dir := w.nextDir;
    t := Go([w], Stop(Main));
    t := Go(t, MakeDir);
    t := Go(t, FillDir(dir, w.main.value.dir));
    t := Go(t, Create(Candidate, image, dir));
    t := Go(t, Start(Candidate));
  }

  /** The state a crash in the middle of an upgrade leaves, in which a resuming install of the
      recorded image starts a second container if the probe misses the running candidate. */
  lemma BlindProbeRunsTwo() returns (w: World)
    ensures Inv(w) && Solo(w) && RecordHealthy(w) && Ours(w.main) && Lapse(w, w.main.value.image)
      && Resumable(w, w.main.value.image)
    ensures !Solo(Apply(Start(Main), w))
  {
    var a, b := Record("old", 0), Container(1, "new", 1, true, true);
    w := World(Some(Container(0, "old", 0, false, true)), Some(b), None,
               map[0 := map[], 1 := map[]], map[0 := {0}, 1 := {1}], Some(a), [], {a}, 2, 2);
  }
}

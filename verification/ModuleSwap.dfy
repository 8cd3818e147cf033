/** The container swap without a journal: the generic module upgrade and the switch of the
    AI module between CPU and GPU. Both share one cut-over with compensation. */
module ModuleSwap {
  import opened Faults

  datatype Place = Main | Candidate | Previous

  datatype Container = Container(id: nat, image: Image, running: bool)

  datatype Host = Host(main: Option<Container>, candidate: Option<Container>, previous: Option<Container>, nextId: nat)

  function At(w: Host, p: Place): Option<Container> {
    match p
    case Main => w.main
    case Candidate => w.candidate
    case Previous => w.previous
  }

  function Put(w: Host, p: Place, c: Option<Container>): Host {
    match p
    case Main => w.(main := c)
    case Candidate => w.(candidate := c)
    case Previous => w.(previous := c)
  }

  predicate Running(c: Option<Container>) {
    c.Some? && c.value.running
  }

  /** At most one container writes the module's shared data directory. */
  predicate Solo(w: Host) {
    && !(Running(w.main) && Running(w.candidate))
    && !(Running(w.main) && Running(w.previous))
    && !(Running(w.candidate) && Running(w.previous))
  }

  /** The container with this identity exists, under the module's name or as the retained one. */
  predicate Holds(w: Host, id: nat) {
    (w.main.Some? && w.main.value.id == id) || (w.previous.Some? && w.previous.value.id == id)
  }

  predicate Apart(w: Host, a: Option<Container>, b: Option<Container>) {
    && (a.Some? ==> a.value.id < w.nextId)
    && (a.Some? && b.Some? ==> a.value.id != b.value.id)
  }

  predicate Shape(w: Host) {
    && Apart(w, w.main, w.candidate) && Apart(w, w.candidate, w.previous) && Apart(w, w.previous, w.main)
    && !(w.main.Some? && w.candidate.Some? && w.previous.Some?)
  }

  predicate Aged(before: Option<Container>, after: Option<Container>) {
    && (before.None? <==> after.None?)
    && (before.Some? ==>
          && after.value == before.value.(running := after.value.running)
          && (after.value.running ==> before.value.running))
  }

  /** Only exits of containers. */
  predicate Drifts(w: Host, v: Host) {
    && Aged(w.main, v.main) && Aged(w.candidate, v.candidate) && Aged(w.previous, v.previous) && v.nextId == w.nextId
  }

  function Exited(c: Option<Container>, exits: bool): Option<Container> {
    if c.Some? && exits then Some(c.value.(running := false)) else c
  }

  function Disturbed(w: Host, exits: set<Place>): (v: Host)
    ensures Drifts(w, v)
  {
    w.(main := Exited(w.main, Main in exits), candidate := Exited(w.candidate, Candidate in exits),
       previous := Exited(w.previous, Previous in exits))
  }

  datatype Command =
    | Look
    | Probe(place: Place)
    | CreateCandidate(image: Image)
    | Start(place: Place)
    | Stop(place: Place)
    | Remove(place: Place)
    | RemoveForce(place: Place)
    | Rename(source: Place, target: Place)

  predicate Possible(c: Command, w: Host) {
    match c
    case Probe(p) => Running(At(w, p))
    case CreateCandidate(_) => w.candidate.None?
    case Start(p) => At(w, p).Some?
    case Stop(p) => At(w, p).Some?
    case Remove(p) => At(w, p).Some? && !At(w, p).value.running
    case Rename(p, q) => p != q && At(w, p).Some? && At(w, q).None?
    case _ => true
  }

  function WithRunning(w: Host, p: Place, running: bool): Host {
    if At(w, p).Some? then Put(w, p, Some(At(w, p).value.(running := running))) else w
  }

  function Apply(c: Command, w: Host): Host {
    match c
    case CreateCandidate(image) => w.(candidate := Some(Container(w.nextId, image, false)), nextId := w.nextId + 1)
    case Start(p) => WithRunning(w, p, true)
    case Stop(p) => WithRunning(w, p, false)
    case Remove(p) => Put(w, p, None)
    case RemoveForce(p) => Put(w, p, None)
    case Rename(p, q) => Put(Put(w, p, None), q, At(w, p))
    case _ => w
  }

  predicate OthersStopped(w: Host, p: Place) {
    && (!p.Main? ==> !Running(w.main))
    && (!p.Candidate? ==> !Running(w.candidate))
    && (!p.Previous? ==> !Running(w.previous))
  }

  /** `leaked`: a forced removal has already left a running candidate behind. */
  predicate Permitted(c: Command, w: Host, guarded: nat, leaked: bool) {
    match c
    case CreateCandidate(_) => w.main.None? || w.previous.None?
    case Start(p) => leaked || OthersStopped(w, p)
    case Remove(p) => At(w, p).Some? ==> At(w, p).value.id != guarded
    case RemoveForce(p) => At(w, p).Some? ==> At(w, p).value.id != guarded
    case Rename(p, q) => !q.Candidate?
    case _ => true
  }

  lemma ApplyKeeps(c: Command, w: Host, guarded: nat, leaked: bool)
    requires Shape(w) && Possible(c, w) && Permitted(c, w, guarded, leaked)
    ensures Shape(Apply(c, w))
    ensures Holds(w, guarded) ==> Holds(Apply(c, w), guarded)
    ensures !leaked && Solo(w) ==> Solo(Apply(c, w))
  {
    match c {
      case Start(p) => match p { case Main => case Candidate => case Previous => }
      case Stop(p) => match p { case Main => case Candidate => case Previous => }
      case Remove(p) => match p { case Main => case Candidate => case Previous => }
      case RemoveForce(p) => match p { case Main => case Candidate => case Previous => }
      case Rename(p, q) =>
        match p { case Main => case Candidate => case Previous => }
        match q { case Main => case Candidate => case Previous => }
      case _ =>
    }
  }

  lemma DriftKeeps(w: Host, v: Host, c: Command, guarded: nat, leaked: bool)
    requires Shape(w) && Drifts(w, v) && Permitted(c, w, guarded, leaked)
    ensures Shape(v) && Permitted(c, v, guarded, leaked)
    ensures Holds(w, guarded) ==> Holds(v, guarded)
    ensures Solo(w) ==> Solo(v)
  {
    match c {
      case Start(p) => match p { case Main => case Candidate => case Previous => }
      case Remove(p) => match p { case Main => case Candidate => case Previous => }
      case RemoveForce(p) => match p { case Main => case Candidate => case Previous => }
      case _ =>
    }
  }

  // ------------------------------------------------------ the atomic specification

  /** The replacing half of the atomic step. */
  function Replaced(w: Host, image: Image): Host
    requires w.main.Some?
  {
    Host(Some(Container(w.nextId, image, true)), None, Some(w.main.value.(running := false)), w.nextId + 1)
  }

  /** The restoring half: nothing changed but a spent identity. */
  predicate Intact(w: Host, v: Host) {
    v.main == w.main && v.candidate.None? && v.previous.None?
  }

  /** How a cut-over ends, by the commands that failed: the first one stops it, and the
      compensation, if there is anything to compensate, succeeds unless another one fails. */
  function EndingBy(f: seq<Command>): Ending {
    if f == [] then Swapped else if f[0] == Stop(Main) then Refused else if |f| == 1 then Undone else Stranded
  }

  /** Refused: not yet begun. Undone: compensated. Stranded: a compensation failure is reported. */
  datatype Ending = Swapped | Refused | Undone | Stranded

  /** What a compensation leaves, when failing commands have no effect, by the ones of its own
      that failed. */
  predicate Compensated(candidate: Option<Container>, v: Host, original: Container, renamed: bool, f: seq<Command>) {
    && v.candidate == (if RemoveForce(Candidate) in f then candidate else None)
    && Renamed(v, original, renamed, f)
  }

  predicate Renamed(v: Host, original: Container, renamed: bool, f: seq<Command>) {
    if renamed && Rename(Previous, Main) in f then v.main.None? && v.previous == Some(original.(running := false))
    else v.main == Some(original.(running := Start(Main) !in f)) && v.previous.None?
  }

  /** What the rollback of a pair leaves, by the command that failed. */
  function HalfRolledBack(u: Host, c: Command): Host
    requires u.main.Some? && u.previous.Some?
  {
    match c
    case Stop(_) => u
    case Remove(_) => u.(main := Some(u.main.value.(running := false)))
    case _ => HalfTaken(u.(main := None), c)
  }

  function HalfTaken(u: Host, c: Command): Host
    requires u.previous.Some?
  {
    match c
    case Rename(_, _) => u
    case Start(_) => u.(main := u.previous, previous := None)
    case _ => RolledBack(u)
  }

  /** What a swap does when failing commands have no effect: one atomic step; or, after a second
      failure, exactly what the failed part of the compensation left. `f`: the failed commands. */
  predicate Atomic(w: Host, v: Host, image: Image, end: Ending, f: seq<Command>) {
    match end
    case Swapped => w.main.Some? && v == Replaced(w, image)
    case Undone => Intact(w, v)
    case Refused =>
      v.main == w.main && v.previous == w.previous && (v.candidate == w.candidate || !Running(v.candidate))
    case Stranded => |f| >= 2 && w.main.Some? && StrandedBy(w, v, image, f)
  }

  predicate LeftOver(v: Host, original: Container, candidate: Container, f: seq<Command>) {
    exists running, renamed :: Compensated(Some(candidate.(running := running)), v, original, renamed, f)
  }

  predicate StrandedBy(w: Host, v: Host, image: Image, f: seq<Command>)
    requires |f| >= 2 && w.main.Some?
  {
    || LeftOver(v, w.main.value, Container(w.nextId, image, false), f[1..])
    || v == HalfRolledBack(Replaced(w, image), f[1])
  }

  /** What rollback does to an upgraded pair. */
  function RolledBack(w: Host): Host
    requires w.previous.Some?
  {
    w.(main := Some(w.previous.value.(running := true)), previous := None)
  }

  /** Rollback after an upgrade gives the host back as it was, up to spent identities. */
  lemma RollbackUndoesUpgrade(w: Host, image: Image)
    requires Running(w.main) && w.candidate.None? && w.previous.None?
    ensures Intact(w, RolledBack(Replaced(w, image)))
    ensures Solo(Replaced(w, image)) && Solo(RolledBack(Replaced(w, image)))
  {
    assert w.main.value.(running := false).(running := true) == w.main.value;
  }

  /** A start under the module's name keeps a single writer exactly when no staging container
      runs. In the compensation only the forced removal sees to that; the module's own start,
      restart and resume do not look at the staging names at all. */
  lemma StartKeepsSoloExactly(w: Host)
    requires Solo(w) && w.main.Some?
    ensures Solo(Apply(Start(Main), w)) <==> !Running(w.candidate) && !Running(w.previous)
  {
    assert At(w, Main) == w.main;
  }

  /** A fresh install: a container is created under the free name and started. */
  function FreshlyInstalled(w: Host, image: Image): Host {
    w.(main := Some(Container(w.nextId, image, true)), nextId := w.nextId + 1)
  }

  /** A cut-over that is cut short by a crash, before or between its renames, leaves the
      candidate running; starting or installing the module then runs a second container. */
  lemma CrashedCutOverRunsTwo(w: Host, image: Image)
    requires Running(w.main) && w.candidate.Some? && w.previous.None?
    ensures var cut := Apply(Start(Candidate), Apply(Stop(Main), w));
            var between := Apply(Rename(Main, Previous), cut);
            && Solo(cut) && !Solo(Apply(Start(Main), cut))
            && Solo(between) && between.main.None? && !Solo(FreshlyInstalled(between, image))
  {
    var stopped := Apply(Stop(Main), w);
    assert stopped == w.(main := Some(w.main.value.(running := false)));
    var cut := Apply(Start(Candidate), stopped);
    assert cut == stopped.(candidate := Some(w.candidate.value.(running := true)));
    StartKeepsSoloExactly(cut);
    assert Apply(Rename(Main, Previous), cut) == Host(None, cut.candidate, cut.main, cut.nextId);
  }

  // ------------------------------------------------- the commands of each operation

  /** The candidate starts, is seen healthy, and is looked at; then the names are exchanged. */
  const EXCHANGE: seq<Command> :=
    [Start(Candidate), Probe(Candidate), Look] + [Rename(Main, Previous), Rename(Candidate, Main)]

  const ROLLBACK: seq<Command> :=
    [Stop(Main), Remove(Main)] + TAKEBACK

  const TAKEBACK: seq<Command> := [Rename(Previous, Main), Start(Main), Probe(Main), Look]

  /** Image, names, disk space, the candidate and its mount; the cut-over; the last look. */
  function UpgradeScript(image: Image): seq<Command> {
    [Look] + ([Look, Look, Look, CreateCandidate(image), Look] + (([Stop(Main)] + EXCHANGE) + [Look]))
  }

  function SwitchScript(image: Image): seq<Command> {
    [Look, Look, Look, Look, CreateCandidate(image)] + ([Stop(Main)] + EXCHANGE)
  }

  /** The compensation: all of it, whatever fails. */
  function Compensation(renamed: bool): seq<Command> {
    [RemoveForce(Candidate)] + Naming(renamed)
  }

  function Naming(renamed: bool): seq<Command> {
    if renamed then [Rename(Previous, Main), Start(Main)] else [Start(Main)]
  }

  predicate EndsIn(commands: seq<Command>, last: seq<Command>) {
    |last| <= |commands| && commands[|commands| - |last|..] == last
  }

  lemma EndsHere(a: seq<Command>, last: seq<Command>)
    ensures EndsIn(a + last, last)
  {
  }

  /** What an upgrade asks for. */
  predicate Upgradable(w: Host, previousImage: Image) {
    w.main.Some? && w.main.value.image == previousImage && Switchable(w)
  }

  /** What the GPU switch asks for. */
  predicate Switchable(w: Host) {
    Running(w.main) && w.candidate.None? && w.previous.None?
  }

  /** The candidate has the module's name, the original is retained, stopped. */
  predicate SwappedIn(w: Host, original: Container, candidate: Container) {
    && w.main.Some? && w.main.value == candidate.(running := w.main.value.running)
    && w.previous == Some(original.(running := false)) && w.candidate.None?
  }

  /** The cut-over as one step. */
  function Swap(w: Host): Host
    requires w.main.Some? && w.candidate.Some?
  {
    Host(Some(w.candidate.value.(running := true)), None, Some(w.main.value.(running := false)), w.nextId)
  }

  /** verifyUpgradePair. */
  predicate PairMatches(w: Host, image: Image, previousImage: Image) {
    && w.main.Some? && w.main.value.image == image
    && w.previous.Some? && w.previous.value.image == previousImage
  }

  /** Names a host so that `Lawful` is looked into there, and only there. */
  predicate Key(w: Host) {
    true
  }

  ghost predicate Lawful(t: seq<Host>, w: Host, leaked: bool, guarded: nat, since: nat) {
    forall v {:trigger Key(v)} :: Key(v) && v == w ==>
      && since < |t| && t[|t| - 1] == v && Shape(v)
      && (!leaked ==> AllSolo(t))
      && Kept(t, since, guarded)
  }

  /** Never two writers. */
  ghost predicate AllSolo(t: seq<Host>) {
    forall k :: 0 <= k < |t| ==> Solo(t[k])
  }

  /** From this state on, the container was never lost. */
  ghost predicate Kept(t: seq<Host>, since: int, id: nat) {
    forall k :: 0 <= k < |t| && since <= k ==> Holds(t[k], id)
  }

  class SwapHost {
    var w: Host
    const steady: bool           // nothing exits by itself
    const faithful: bool         // moreover, failing commands have no effect
    ghost var trace: seq<Host>
    ghost var leaked: bool
    ghost var issued: seq<Command>     // every command, in their order
    ghost var failures: seq<Command>   // those reported failed
    ghost var faults: nat        // how many of them could have been carried out, and how often containers exited
    ghost var downs: nat         // stops of the module's container that took effect and were reported failed
    ghost var guarded: nat
    ghost var since: nat

    ghost predicate Valid()
      reads this
    {
      Lawful(trace, w, leaked, guarded, since)
    }

    lemma Facts()
      requires Valid()
      ensures Shape(w) && Holds(w, guarded)
      ensures since < |trace| && Kept(trace, since, guarded) && (!leaked ==> AllSolo(trace))
    {
      assert Key(w);
    }

    constructor (w: Host, steady: bool, faithful: bool)
      requires Shape(w) && Solo(w) && w.main.Some?
      ensures Valid() && this.w == w && this.steady == steady && this.faithful == faithful && trace == [w]
      ensures !leaked && downs == 0
    {
      this.w, this.steady, this.faithful, this.trace, this.leaked := w, steady, faithful, [w], false;
      this.downs, this.failures, this.faults, this.issued := 0, [], 0, [];
      this.guarded, this.since := w.main.value.id, 0;
    }

    twostate predicate Onward()
      reads this
    {
      old(trace) <= trace && guarded == old(guarded) && since == old(since) && (old(leaked) ==> leaked)
      && old(faults) <= faults && old(issued) <= issued
    }

    twostate predicate Longer()
      reads this
    {
      old(trace) <= trace && (old(leaked) ==> leaked) && old(faults) <= faults && old(issued) <= issued
    }

    /** From here on, this container must not get lost. */
    ghost method Watch(id: nat)
      requires Valid() && Holds(w, id)
      modifies this`guarded, this`since
      ensures Valid() && guarded == id && since == |trace| - 1
    {
      assert Key(w);
      guarded := id;
      since := |trace| - 1;
    }

    method Exec(c: Command) returns (ok: bool, ghost pre: Host)
      requires Valid() && Permitted(c, w, guarded, leaked)
      modifies this`w, this`trace, this`leaked, this`failures, this`faults, this`issued
      ensures Valid() && Onward()
      ensures Drifts(old(w), pre)
      ensures ok ==> Possible(c, pre) && w == Apply(c, pre)
      ensures w == pre || (Possible(c, pre) && w == Apply(c, pre))
      ensures faithful || steady ==> pre == old(w)
      ensures faithful && !ok ==> w == old(w)
      ensures leaked == (old(leaked) || (c.RemoveForce? && Running(At(w, c.place))))
      ensures Permitted(c, pre, guarded, old(leaked))
      ensures failures == if ok then old(failures) else old(failures) + [c]
      ensures faults == old(faults) ==> pre == old(w) && (ok <==> Possible(c, pre)) && (!ok ==> w == pre)
      ensures issued == old(issued) + [c]
    {
      Drift(c);
      pre := w;
      ok := Strike(c);
      leaked := leaked || (c.RemoveForce? && Running(At(w, c.place)));
      failures := if ok then failures else failures + [c];
      issued := issued + [c];
    }

    /** What happens to the host before the command reaches it. */
    method Drift(ghost c: Command)
      requires Valid() && Permitted(c, w, guarded, leaked)
      modifies this`w, this`trace, this`faults
      ensures Valid() && Onward() && Permitted(c, w, guarded, leaked) && Drifts(old(w), w)
      ensures faithful || steady || faults == old(faults) ==> w == old(w)
    {
      var exits: set<Place> := *;
      var now := if faithful || steady then w else Disturbed(w, exits);
      faults := if now == w then faults else faults + 1;
      Advance(now, c);
    }

    /** The command itself, on the host as it finds it. */
    method Strike(c: Command) returns (ok: bool)
      requires Valid() && Permitted(c, w, guarded, leaked)
      modifies this`w, this`trace, this`faults
      ensures Valid() && Onward()
      ensures ok ==> Possible(c, old(w)) && w == Apply(c, old(w))
      ensures w == old(w) || (Possible(c, old(w)) && w == Apply(c, old(w)))
      ensures faithful && !ok ==> w == old(w)
      ensures faults == old(faults) ==> (ok <==> Possible(c, old(w))) && (!ok ==> w == old(w))
    {
      var done, said: bool := *, *;
      faults := if !Possible(c, w) || (done && (faithful || said)) then faults else faults + 1;
      done := done && Possible(c, w);
      if done {
        Advance(Apply(c, w), c);
      }
      ok := done && (faithful || said);
    }

    method Advance(next: Host, ghost c: Command)
      requires Valid() && Permitted(c, w, guarded, leaked)
      requires Drifts(w, next) || (Possible(c, w) && next == Apply(c, w))
      modifies this`w, this`trace
      ensures Valid() && w == next && trace == old(trace) + [next]
      ensures Drifts(old(w), next) ==> Permitted(c, w, guarded, leaked)
    {
      assert Key(w);
      if Drifts(w, next) {
        DriftKeeps(w, next, c, guarded, leaked);
      } else {
        ApplyKeeps(c, w, guarded, leaked);
      }
      w := next;
      trace := trace + [next];
    }

    /** docker stop of the container under the module's name. */
    method StopMain() returns (ok: bool, ghost pre: Host)
      requires Valid()
      modifies this`w, this`trace, this`leaked, this`failures, this`faults, this`issued, this`downs
      ensures Valid() && Onward() && leaked == old(leaked) && Drifts(old(w), pre)
      ensures ok ==> pre.main.Some? && w == Apply(Stop(Main), pre)
      ensures w == pre || (pre.main.Some? && w == Apply(Stop(Main), pre))
      ensures faithful || steady ==> pre == old(w)
      ensures faithful && !ok ==> w == old(w)
      ensures downs == if !ok && w != pre then old(downs) + 1 else old(downs)
      ensures failures == if ok then old(failures) else old(failures) + [Stop(Main)]
      ensures faults == old(faults) ==> pre == old(w) && (ok <==> pre.main.Some?) && (!ok ==> w == pre)
      ensures issued == old(issued) + [Stop(Main)]
    {
      ok, pre := Exec(Stop(Main));
      downs := if !ok && w != pre then downs + 1 else downs;
    }

    /** The compensation: the candidate goes by force, the original gets its name back and
        starts. Every failure is collected, none stops the rest. */
    method RecoverOld(ghost original: Container, renamed: bool) returns (failed: bool, ghost f: seq<Command>)
      requires Valid() && !Running(w.previous) && guarded == original.id
      modifies this`w, this`trace, this`leaked, this`failures, this`faults, this`issued
      ensures Valid() && Onward()
      ensures leaked && !old(leaked) ==> failed
      ensures failures == old(failures) + f && (failed <==> f != [])
      ensures faithful && old(Down(original, renamed)) ==> Compensated(old(w).candidate, w, original, renamed, f)
      ensures faults == old(faults) && old(Down(original, renamed)) ==> !failed
      ensures issued == old(issued) + Compensation(renamed)
    {
      failed, f := false, [];
      Facts();
      ghost var pre;
      var ok;
      ok, pre := Exec(RemoveForce(Candidate));
      ghost var first := if ok then [] else [RemoveForce(Candidate)];
      failed, f := NameAndStart(original, renamed);
      failed, f := failed || !ok, first + f;
    }

    /** Its second half: the name, if it was taken away, and the start. */
    method NameAndStart(ghost original: Container, renamed: bool) returns (failed: bool, ghost f: seq<Command>)
      requires Valid() && !Running(w.previous) && guarded == original.id && (leaked || !Running(w.candidate))
      modifies this`w, this`trace, this`leaked, this`failures, this`faults, this`issued
      ensures Valid() && Onward() && leaked == old(leaked)
      ensures failures == old(failures) + f && (failed <==> f != []) && RemoveForce(Candidate) !in f
      ensures faithful && old(Down(original, renamed)) ==>
        w.candidate == old(w).candidate && Renamed(w, original, renamed, f)
      ensures faults == old(faults) && old(Down(original, renamed)) ==> !failed
      ensures issued == old(issued) + Naming(renamed)
    {
      failed, f := false, [];
      ghost var pre;
      var ok;
      if renamed {
        ok, pre := Exec(Rename(Previous, Main));
        failed, f := !ok, if ok then [] else [Rename(Previous, Main)];
      }
      ok, pre := Exec(Start(Main));
      failed, f := failed || !ok, f + if ok then [] else [Start(Main)];
    }

    /** The original is stopped, under its own name or already set aside. */
    ghost predicate Down(original: Container, renamed: bool)
      reads this
    {
      original.running &&
      if renamed then
        w.main.None? && w.previous == Some(original.(running := false))
      else
        w.main == Some(original.(running := false)) && w.previous.None?
    }

    /** docker create of the candidate, while the original runs. */
    method Create(image: Image) returns (ok: bool)
      requires Valid() && w.candidate.None? && w.previous.None?
      modifies this`w, this`trace, this`leaked, this`failures, this`faults, this`issued
      ensures Valid() && Onward() && leaked == old(leaked)
      ensures Aged(old(w).main, w.main) && w.previous.None?
      ensures ok ==> w.candidate == Some(Container(old(w).nextId, image, false))
      ensures ok ==> w.nextId == old(w).nextId + 1
      ensures faithful || steady ==> w.main == old(w).main
      ensures faithful && !ok ==> w == old(w)
      ensures !Running(w.candidate)
      ensures failures == if ok then old(failures) else old(failures) + [CreateCandidate(image)]
      ensures faults == old(faults) ==> ok
      ensures faults == old(faults) ==> w.main == old(w).main
      ensures issued == old(issued) + [CreateCandidate(image)]
    {
      ghost var pre;
      ok, pre := Exec(CreateCandidate(image));
    }

    /** rm -f of a candidate that never started; its own failure is ignored. */
    method DropUnstarted() returns (ghost f: seq<Command>)
      requires Valid() && !Running(w.candidate)
      modifies this`w, this`trace, this`leaked, this`failures, this`faults, this`issued
      ensures Valid() && Onward() && leaked == old(leaked)
      ensures Aged(old(w).main, w.main) && Aged(old(w).previous, w.previous)
      ensures faithful || steady ==> w.main == old(w).main && w.previous == old(w).previous
      ensures !Running(w.candidate)
      ensures failures == old(failures) + f && f == if RemoveForce(Candidate) in f then [RemoveForce(Candidate)] else []
      ensures f == [] ==> w.candidate.None?
      ensures issued == old(issued) + [RemoveForce(Candidate)]
    {
      Facts();
      ghost var pre;
      var done;
      done, pre := Exec(RemoveForce(Candidate));
      f := if done then [] else [RemoveForce(Candidate)];
    }

    /** Stop the original, start the candidate, see it healthy, exchange the names. */
    method CutOver() returns (end: Ending, ghost f: seq<Command>)
      requires Valid() && w.main.Some? && w.previous.None? && guarded == w.main.value.id
      requires w.candidate.Some? && !Running(w.candidate) && (faithful ==> Running(w.main))
      modifies this`w, this`trace, this`leaked, this`failures, this`faults, this`issued, this`downs
      ensures Valid() && Onward()
      ensures leaked && !old(leaked) ==> end.Stranded?
      ensures failures == old(failures) + f && end == EndingBy(f)
      ensures end.Swapped? ==> SwappedIn(w, old(w).main.value, old(w).candidate.value)
      ensures end.Refused? ==> Aged(old(w).main, w.main) && w.previous.None? && !Running(w.candidate)
      ensures end.Refused? && |f| == 1 ==> w.candidate.None?
      ensures (faithful || steady) && end.Refused? ==> (w.main == old(w).main <==> downs == old(downs))
      ensures end.Refused? && downs != old(downs) ==> !Running(w.main)
      ensures faithful || !end.Refused? ==> downs == old(downs)
      ensures (faithful || steady || faults == old(faults)) && end.Swapped? && Running(old(w).main) ==>
        w == Swap(old(w))
      ensures faithful && end.Undone? ==> Intact(old(w), w)
      ensures faithful && end.Stranded? ==>
        LeftOver(w, old(w).main.value, old(w).candidate.value, f[1..])
      ensures faults == old(faults) ==> end.Swapped?
      ensures faithful && faults <= old(faults) + 1 ==> !end.Stranded?
      ensures end.Swapped? ==> issued == old(issued) + ([Stop(Main)] + EXCHANGE)
      ensures end.Undone? || end.Stranded? ==> exists renamed :: EndsIn(issued, Compensation(renamed))
      ensures end.Refused? ==> issued == old(issued) + [Stop(Main), RemoveForce(Candidate)]
    {
      ghost var original := w.main.value.(running := true);
      ghost var pre;
      var ok;
      f := [];
      ok, pre := StopMain();
      if !ok {
        f := DropUnstarted();
        f := [Stop(Main)] + f;
        return Refused, f;
      }
      end, f := Exchange(original);
    }

    /** The original is down: start, health, names, or the compensation. */
    method Exchange(ghost original: Container) returns (end: Ending, ghost f: seq<Command>)
      requires Valid() && w.main.Some? && !Running(w.main) && w.previous.None? && guarded == w.main.value.id
      requires w.candidate.Some? && !Running(w.candidate) && original == w.main.value.(running := true)
      modifies this`w, this`trace, this`leaked, this`failures, this`faults, this`issued
      ensures Valid() && Onward()
      ensures leaked && !old(leaked) ==> end.Stranded?
      ensures failures == old(failures) + f && end == EndingBy(f) && !end.Refused?
      ensures end.Swapped? ==> SwappedIn(w, original, old(w).candidate.value)
      ensures (faithful || steady || faults == old(faults)) && end.Swapped? ==>
        w == Host(Some(old(w).candidate.value.(running := true)), None, old(w).main, old(w).nextId)
      ensures faithful && end.Undone? ==> w.main == Some(original) && w.candidate.None? && w.previous.None?
      ensures faithful && end.Stranded? ==>
        LeftOver(w, original, old(w).candidate.value, f[1..])
      ensures faults == old(faults) ==> end.Swapped?
      ensures faithful && faults <= old(faults) + 1 ==> !end.Stranded?
      ensures end.Swapped? ==> issued == old(issued) + EXCHANGE
      ensures !end.Swapped? ==> exists renamed :: EndsIn(issued, Compensation(renamed))
    {
      var ok, renamed := true, false;
      ok, f := StartHealthy();
      if ok {
        ok, renamed, f := ExchangeNames();
        if ok { return Swapped, f; }
      }
      ghost var cause, before := f, w;
      var failed;
      failed, f := RecoverOld(original, renamed);
      end := if failed then Stranded else Undone;
      if faithful {
        assert Compensated(before.candidate, w, original, renamed, f);
        assert before.candidate == Some(old(w).candidate.value.(running := before.candidate.value.running));
      }
      assert (cause + f)[1..] == f;
      f := cause + f;
    }

    /** The old name for the original, the module's name for the candidate. */
    method ExchangeNames() returns (ok: bool, renamed: bool, ghost f: seq<Command>)
      requires Valid() && w.main.Some? && !Running(w.main) && w.previous.None? && w.candidate.Some?
      requires guarded == w.main.value.id
      modifies this`w, this`trace, this`leaked, this`failures, this`faults, this`issued
      ensures Valid() && Onward() && leaked == old(leaked) && !Running(w.previous)
      ensures failures == old(failures) + f && (ok <==> f == []) && |f| <= 1 && Stop(Main) !in f
      ensures ok ==>
        && w.main.Some? && w.main.value == old(w).candidate.value.(running := w.main.value.running)
        && w.previous == old(w).main && w.candidate.None?
      ensures (faithful || steady || faults == old(faults)) && ok ==>
        w == Host(old(w).candidate, None, old(w).main, old(w).nextId)
      ensures faithful && !ok ==> w == if renamed then old(w).(main := None, previous := old(w).main) else old(w)
      ensures faults == old(faults) ==> ok
      ensures ok ==> issued == old(issued) + [Rename(Main, Previous), Rename(Candidate, Main)]
    {
      renamed, f := false, [];
      ghost var pre;
      ok, pre := Exec(Rename(Main, Previous));
      if !ok { return false, false, [Rename(Main, Previous)]; }
      renamed := true;
      ok, pre := Exec(Rename(Candidate, Main));
      f := if ok then [] else [Rename(Candidate, Main)];
    }

    /** Start the candidate and wait for its health; the AI switch also looks for its devices. */
    method StartHealthy() returns (ok: bool, ghost f: seq<Command>)
      requires Valid() && !Running(w.main) && !Running(w.previous)
      modifies this`w, this`trace, this`leaked, this`failures, this`faults, this`issued
      ensures Valid() && Onward() && leaked == old(leaked)
      ensures w.main == old(w).main && w.previous == old(w).previous && w.nextId == old(w).nextId
      ensures old(w).candidate.Some? ==>
        w.candidate.Some? && w.candidate.value.(running := true) == old(w).candidate.value.(running := true)
      ensures (faithful || steady) && ok ==> w == Apply(Start(Candidate), old(w))
      ensures failures == old(failures) + f && (ok <==> f == []) && |f| <= 1 && Stop(Main) !in f
      ensures faults == old(faults) && old(w).candidate.Some? ==> ok && w == Apply(Start(Candidate), old(w))
      ensures ok ==> issued == old(issued) + [Start(Candidate), Probe(Candidate), Look]
    {
      ghost var pre;
      f := [];
      ok, pre := Exec(Start(Candidate));
      if !ok { return ok, [Start(Candidate)]; }
      ok, pre := Exec(Probe(Candidate));
      if !ok { return ok, [Probe(Candidate)]; }
      ok, pre := Exec(Look);
      f := if ok then [] else [Look];
    }

    /** ensureModuleUpgradeNamesFree and ensureAICandidateNamesFree. */
    method NamesFree() returns (ok: bool)
      requires Valid()
      modifies this`w, this`trace, this`leaked, this`failures, this`faults, this`issued
      ensures Valid() && Onward() && leaked == old(leaked) && Drifts(old(w), w) && (faithful || steady ==> w == old(w))
      ensures ok ==> w.candidate.None? && w.previous.None?
      ensures failures == old(failures) || (!ok && failures == old(failures) + [Look])
      ensures faults == old(faults) ==> failures == old(failures) && (ok <==> w.candidate.None? && w.previous.None?)
      ensures !ok && failures == old(failures) ==> w.candidate.Some? || w.previous.Some?
      ensures faults == old(faults) ==> w == old(w)
      ensures ok ==> issued == old(issued) + [Look, Look]
    {
      ghost var pre;
      ok, pre := Exec(Look);
      if !ok || w.candidate.Some? { return false; }
      ok, pre := Exec(Look);
      if !ok || w.previous.Some? { return false; }
    }

    method Check() returns (ok: bool)
      requires Valid()
      modifies this`w, this`trace, this`leaked, this`failures, this`faults, this`issued
      ensures Valid() && Onward() && leaked == old(leaked) && Drifts(old(w), w) && (faithful || steady ==> w == old(w))
      ensures failures == if ok then old(failures) else old(failures) + [Look]
      ensures faults == old(faults) ==> ok && w == old(w)
      ensures issued == old(issued) + [Look]
    {
      ghost var pre;
      ok, pre := Exec(Look);
    }

    /** docker.module.upgrade. */
    method Upgrade(image: Image, previousImage: Image) returns (end: Ending, ghost f: seq<Command>)
      requires Valid()
      modifies this
      ensures Valid() && Longer()
      ensures faithful ==> Atomic(old(w), w, image, end, f)
      ensures (faithful || steady) && end.Refused? ==> (w.main == old(w).main <==> downs == old(downs))
      ensures end.Refused? && downs != old(downs) ==> !Running(w.main)
      ensures faithful && end.Refused? ==> downs == old(downs)
      ensures leaked && !old(leaked) ==> end.Stranded?
      ensures !leaked ==> AllSolo(trace)
      ensures old(w).main.Some? ==> Kept(trace, |old(trace)| - 1, old(w).main.value.id)
      ensures end.Swapped? ==>
        old(w).main.Some? && old(w).main.value.image == previousImage && image != previousImage
        && SwappedIn(w, old(w).main.value, Container(old(w).nextId, image, true))
      ensures failures == old(failures) + f
      ensures faults == old(faults) ==>
        f == [] && end == (if old(w).main.Some? && image != previousImage && Upgradable(old(w), previousImage)
          then Swapped else Refused)
      ensures faithful && faults <= old(faults) + 1 ==> !end.Stranded?
      ensures (faithful || steady) && f == [] ==>
        end == (if old(w).main.Some? && image != previousImage && Upgradable(old(w), previousImage) then Swapped
          else Refused)
      ensures faithful && end.Undone? ==> |f| == 1
      ensures end.Swapped? ==> issued == old(issued) + UpgradeScript(image)
    {
      f := [];
      Facts();
      if w.main.Some? {
        Watch(w.main.value.id);
        end, f := UpgradeWatched(image, previousImage);
      } else {
        end := Refused;
      }
      Facts();
    }

    method UpgradeWatched(image: Image, previousImage: Image) returns (end: Ending, ghost f: seq<Command>)
      requires Valid() && w.main.Some? && guarded == w.main.value.id
      modifies this`w, this`trace, this`leaked, this`failures, this`faults, this`issued, this`downs
      ensures Valid() && Onward()
      ensures faithful ==> Atomic(old(w), w, image, end, f)
      ensures (faithful || steady) && end.Refused? ==> (w.main == old(w).main <==> downs == old(downs))
      ensures end.Refused? && downs != old(downs) ==> !Running(w.main)
      ensures faithful && end.Refused? ==> downs == old(downs)
      ensures leaked && !old(leaked) ==> end.Stranded?
      ensures end.Swapped? ==>
        old(w).main.value.image == previousImage && image != previousImage
        && SwappedIn(w, old(w).main.value, Container(old(w).nextId, image, true))
      ensures failures == old(failures) + f
      ensures faults == old(faults) ==>
        f == [] && end == (if old(w).main.Some? && image != previousImage && Upgradable(old(w), previousImage)
          then Swapped else Refused)
      ensures faithful && faults <= old(faults) + 1 ==> !end.Stranded?
      ensures (faithful || steady) && f == [] ==>
        end == (if old(w).main.Some? && image != previousImage && Upgradable(old(w), previousImage) then Swapped
          else Refused)
      ensures faithful && end.Undone? ==> |f| == 1
      ensures end.Swapped? ==> issued == old(issued) + UpgradeScript(image)
    {
      f := [];
      if image == previousImage { return Refused, f; }
      var ok := Check();
      if !ok { return Refused, [Look]; }
      if w.main.value.image != previousImage || !w.main.value.running { return Refused, f; }
      ok, f := StageCandidate(image);
      if !ok { return Refused, f; }
      end, f := SwapAndConfirm(image);
    }

    /** The cut-over, and the last look at it. */
    method SwapAndConfirm(ghost image: Image) returns (end: Ending, ghost f: seq<Command>)
      requires Valid() && w.main.Some? && w.previous.None? && guarded == w.main.value.id && w.nextId > 0
      requires w.candidate == Some(Container(w.nextId - 1, image, false)) && (faithful ==> Running(w.main))
      modifies this`w, this`trace, this`leaked, this`failures, this`faults, this`issued, this`downs
      ensures Valid() && Onward()
      ensures leaked && !old(leaked) ==> end.Stranded?
      ensures failures == old(failures) + f
      ensures end.Swapped? ==> SwappedIn(w, old(w).main.value, old(w).candidate.value)
      ensures faithful && end.Swapped? ==> w == Swap(old(w))
      ensures faithful && end.Undone? ==> Intact(old(w), w) && |f| == 1
      ensures faithful && end.Stranded? ==>
        && |f| >= 2
        && (LeftOver(w, old(w).main.value, Container(old(w).nextId - 1, image, false), f[1..])
            || w == HalfRolledBack(Swap(old(w)), f[1]))
      ensures end.Refused? ==> Aged(old(w).main, w.main) && w.previous.None? && !Running(w.candidate)
      ensures (faithful || steady) && end.Refused? ==> (w.main == old(w).main <==> downs == old(downs))
      ensures end.Refused? && downs != old(downs) ==> !Running(w.main)
      ensures faithful && end.Refused? ==> downs == old(downs)
      ensures faults == old(faults) && Running(old(w).main) ==> end.Swapped? && f == []
      ensures (faithful || steady) && Running(old(w).main) && f == [] ==> end.Swapped?
      ensures faithful && faults <= old(faults) + 1 ==> !end.Stranded?
      ensures end.Swapped? ==> issued == old(issued) + (([Stop(Main)] + EXCHANGE) + [Look])
    {
      end, f := CutOver();
      if end.Swapped? {
        end, f := Confirm();
      }
    }

    /** Staging names, disk space, and the candidate. */
    method StageCandidate(image: Image) returns (ok: bool, ghost f: seq<Command>)
      requires Valid() && w.main.Some?
      modifies this`w, this`trace, this`leaked, this`failures, this`faults, this`issued
      ensures Valid() && Onward() && leaked == old(leaked)
      ensures Aged(old(w).main, w.main) && (faithful || steady ==> w.main == old(w).main)
      ensures faithful || steady ==>
        w.previous == old(w).previous && (w.candidate == old(w).candidate || !Running(w.candidate))
      ensures ok ==> w.previous.None? && w.candidate == Some(Container(old(w).nextId, image, false))
      ensures ok ==> w.nextId == old(w).nextId + 1 && old(w).candidate.None? && old(w).previous.None?
      ensures failures == old(failures) + f && (ok ==> f == [])
      ensures !ok && f == [] ==> old(w).candidate.Some? || old(w).previous.Some?
      ensures faults == old(faults) ==>
        f == [] && w.main == old(w).main && (ok <==> old(w).candidate.None? && old(w).previous.None?)
      ensures ok ==> issued == old(issued) + [Look, Look, Look, CreateCandidate(image), Look]
    {
      f := [];
      ghost var before := failures;
      ok := NamesFree();
      if !ok {
        f := if failures == before then [] else [Look];
        return;
      }
      ok := Check();
      if !ok { return ok, [Look]; }
      ok, f := CreateChecked(image);
    }

    /** The candidate, with its data mount checked, or none that ever ran. */
    method CreateChecked(image: Image) returns (ok: bool, ghost f: seq<Command>)
      requires Valid() && w.candidate.None? && w.previous.None?
      modifies this`w, this`trace, this`leaked, this`failures, this`faults, this`issued
      ensures Valid() && Onward() && leaked == old(leaked)
      ensures Aged(old(w).main, w.main) && w.previous.None? && (faithful || steady ==> w.main == old(w).main)
      ensures ok ==> w.candidate == Some(Container(old(w).nextId, image, false)) && w.nextId == old(w).nextId + 1
      ensures !Running(w.candidate)
      ensures failures == old(failures) + f && (ok <==> f == [])
      ensures f == [Look] ==> w.candidate.None?
      ensures faults == old(faults) ==> ok
      ensures faithful || steady ==> w.previous == old(w).previous
      ensures faults == old(faults) ==> w.main == old(w).main
      ensures ok ==> issued == old(issued) + [CreateCandidate(image), Look]
    {
      f := [];
      ok := Create(image);
      if !ok { return ok, [CreateCandidate(image)]; }
      ok := Check();
      if !ok {
        f := DropUnstarted();
        f := [Look] + f;
      }
    }

    /** The last look after the exchange of names; a container that is down goes back. */
    method Confirm() returns (end: Ending, ghost f: seq<Command>)
      requires Valid() && w.main.Some? && w.previous.Some? && guarded == w.previous.value.id
      modifies this`w, this`trace, this`leaked, this`failures, this`faults, this`issued, this`downs
      ensures Valid() && Onward() && leaked == old(leaked)
      ensures end.Swapped? ==> Drifts(old(w), w) && (faithful ==> w == old(w))
      ensures end.Swapped? || end.Undone? || end.Stranded?
      ensures faithful && end.Undone? ==> w == RolledBack(old(w))
      ensures failures == old(failures) + f
      ensures faults == old(faults) && Running(old(w).main) ==> end.Swapped? && f == []
      ensures faithful && Running(old(w).main) ==>
        end == (if f == [] then Swapped else if |f| == 1 then Undone else Stranded)
      ensures faithful && Running(old(w).main) && end.Stranded? ==> |f| >= 2 && w == HalfRolledBack(old(w), f[1])
      ensures faithful && Running(old(w).main) && faults <= old(faults) + 1 ==> !end.Stranded?
      ensures (faithful || steady) && Running(old(w).main) && f == [] ==> end.Swapped?
      ensures end.Swapped? ==> issued == old(issued) + [Look]
      ensures end.Undone? ==> issued == old(issued) + ([Look] + ROLLBACK)
    {
      var ok := Check();
      f := if ok then [] else [Look];
      if ok && w.main.value.running { return Swapped, f; }
      ghost var cause, seen := f, w;
      ok, f := RollBackPair();
      end := if ok then Undone else Stranded;
      f := cause + f;
    }

    /** rollbackModuleUpgrade: the new container goes, the retained one takes its place. */
    method RollBackPair() returns (ok: bool, ghost f: seq<Command>)
      requires Valid() && w.main.Some? && w.previous.Some? && guarded == w.previous.value.id
      modifies this`w, this`trace, this`leaked, this`failures, this`faults, this`issued, this`downs
      ensures Valid() && Onward() && leaked == old(leaked)
      ensures ok ==> w.main.Some? && w.main.value.(running := true) == old(w).previous.value.(running := true)
      ensures ok ==> w.candidate.None? && w.previous.None?
      ensures faithful && ok ==> w == RolledBack(old(w))
      ensures failures == old(failures) + f && (ok <==> f == []) && |f| <= 1
      ensures faults == old(faults) ==> ok
      ensures faithful && !ok ==> w == HalfRolledBack(old(w), f[0])
      ensures ok ==> issued == old(issued) + ROLLBACK
    {
      f := [];
      Facts();
      ghost var pre;
      ok, pre := StopMain();
      if !ok { return ok, [Stop(Main)]; }
      ok, pre := Exec(Remove(Main));
      if !ok { return ok, [Remove(Main)]; }
      ok, f := TakeBack();
    }

    /** Its second half: the name is free, and goes to the retained container. */
    method TakeBack() returns (ok: bool, ghost f: seq<Command>)
      requires Valid() && w.main.None? && w.previous.Some? && !Running(w.candidate)
      modifies this`w, this`trace, this`leaked, this`failures, this`faults, this`issued
      ensures Valid() && Onward() && leaked == old(leaked)
      ensures ok ==> w.main.Some? && w.main.value.(running := true) == old(w).previous.value.(running := true)
      ensures ok ==> w.candidate == old(w).candidate && w.previous.None?
      ensures faithful && ok ==> w == RolledBack(old(w))
      ensures failures == old(failures) + f && (ok <==> f == []) && |f| <= 1
      ensures faults == old(faults) ==> ok
      ensures !ok ==> !f[0].Stop? && !f[0].Remove?
      ensures faithful && !ok ==> w == HalfTaken(old(w), f[0])
      ensures ok ==> issued == old(issued) + TAKEBACK
    {
      f := [];
      ghost var pre;
      ok, pre := Exec(Rename(Previous, Main));
      if !ok { return ok, [Rename(Previous, Main)]; }
      ok, pre := Exec(Start(Main));
      if !ok { return ok, [Start(Main)]; }
      ok, pre := Exec(Probe(Main));
      if !ok { return ok, [Probe(Main)]; }
      ok := Check();
      f := if ok then [] else [Look];
    }

    /** docker.module.upgrade.commit and docker.module.upgrade.rollback. */
    method FinishUpgrade(commit: bool, image: Image, previousImage: Image) returns (ok: bool, ghost f: seq<Command>)
      requires Valid()
      modifies this
      ensures Valid() && Longer() && leaked == old(leaked) && (!leaked ==> AllSolo(trace))
      ensures !PairMatches(old(w), image, previousImage) ==> !ok && Drifts(old(w), w)
      ensures ok && faithful ==> w == if commit then old(w).(previous := None) else RolledBack(old(w))
      ensures PairMatches(old(w), image, previousImage) ==>
        Kept(trace, |old(trace)| - 1, if commit then old(w).main.value.id else old(w).previous.value.id)
      ensures failures == old(failures) + f && (ok <==> PairMatches(old(w), image, previousImage) && f == [])
      ensures faults == old(faults) ==>
        (ok <==> PairMatches(old(w), image, previousImage) && (commit ==> !old(w).previous.value.running))
      ensures faithful && !ok && PairMatches(old(w), image, previousImage) ==>
        |f| == 1 && (w == old(w) || w == if commit then old(w).(previous := None) else HalfRolledBack(old(w), f[0]))
      ensures ok ==> issued == old(issued) + ([Look] + if commit then [Remove(Previous), Look] else ROLLBACK)
    {
      f := [];
      Facts();
      if w.main.Some? && w.previous.Some? {
        Watch(if commit then w.main.value.id else w.previous.value.id);
      }
      ok := Check();
      f := if ok then [] else [Look];
      if ok && PairMatches(w, image, previousImage) {
        if commit {
          ok, f := RetirePrevious();
        } else {
          ok, f := RollBackPair();
        }
      } else {
        ok := false;
      }
      Facts();
    }

    /** commitModuleUpgrade: the retained container goes, without force. */
    method RetirePrevious() returns (ok: bool, ghost f: seq<Command>)
      requires Valid() && w.main.Some? && w.previous.Some? && guarded == w.main.value.id
      modifies this`w, this`trace, this`leaked, this`failures, this`faults, this`issued
      ensures Valid() && Onward() && leaked == old(leaked)
      ensures failures == old(failures) + f && (ok <==> f == []) && |f| <= 1
      ensures faults == old(faults) ==> (ok <==> !old(w).previous.value.running)
      ensures faithful && ok ==> w == old(w).(previous := None)
      ensures faithful && !ok ==> w == old(w) || w == old(w).(previous := None)
      ensures ok ==> issued == old(issued) + [Remove(Previous), Look]
    {
      Facts();
      ghost var pre;
      ok, pre := Exec(Remove(Previous));
      if !ok { return ok, [Remove(Previous)]; }
      ok := Check();
      f := if ok then [] else [Look];
    }

    /** applyAIGPUSelection, from the image check on: the same cut-over; the retained
        container is then removed, and a failure to do so is ignored. */
    method SwitchDevices(image: Image) returns (end: Ending, ghost f: seq<Command>)
      requires Valid()
      modifies this
      ensures Valid() && Longer()
      ensures faithful && !end.Swapped? ==> Atomic(old(w), w, image, end, f)
      ensures faithful && end.Swapped? ==>
        old(w).main.Some? &&
        w == if f == [] then Replaced(old(w), image).(previous := None) else Replaced(old(w), image)
      ensures (faithful || steady) && end.Refused? ==> (w.main == old(w).main <==> downs == old(downs))
      ensures end.Refused? && downs != old(downs) ==> !Running(w.main)
      ensures faithful && end.Refused? ==> downs == old(downs)
      ensures leaked && !old(leaked) ==> end.Stranded?
      ensures !leaked ==> AllSolo(trace)
      ensures old(w).main.Some? && !end.Swapped? ==> Kept(trace, |old(trace)| - 1, old(w).main.value.id)
      ensures failures == old(failures) + f
      ensures faults == old(faults) ==>
        f == [] && end == (if old(w).main.Some? && Switchable(old(w)) then Swapped else Refused)
      ensures faithful && faults <= old(faults) + 1 ==> !end.Stranded?
      ensures end.Swapped? ==> issued == old(issued) + (SwitchScript(image) + [Remove(Previous)])
    {
      f := [];
      Facts();
      if w.main.None? { return Refused, f; }
      Watch(w.main.value.id);
      end, f := SwitchWatched(image);
      Facts();
      if end.Swapped? {
        Watch(w.main.value.id);
        f := DropPrevious();
      }
      Facts();
    }

    /** The removal of the retained container, whose failure is ignored. */
    method DropPrevious() returns (ghost f: seq<Command>)
      requires Valid() && w.main.Some? && w.previous.Some? && guarded == w.main.value.id
      modifies this`w, this`trace, this`leaked, this`failures, this`faults, this`issued
      ensures Valid() && Onward() && leaked == old(leaked)
      ensures failures == old(failures) + f && (f == [] || f == [Remove(Previous)])
      ensures faithful ==> w == if f == [] then old(w).(previous := None) else old(w)
      ensures faults == old(faults) && !old(w).previous.value.running ==> f == []
      ensures issued == old(issued) + [Remove(Previous)]
    {
      Facts();
      ghost var pre;
      var ok;
      ok, pre := Exec(Remove(Previous));
      f := if ok then [] else [Remove(Previous)];
    }

    method SwitchWatched(image: Image) returns (end: Ending, ghost f: seq<Command>)
      requires Valid() && w.main.Some? && guarded == w.main.value.id
      modifies this`w, this`trace, this`leaked, this`failures, this`faults, this`issued, this`downs
      ensures Valid() && Onward()
      ensures faithful ==> Atomic(old(w), w, image, end, f)
      ensures (faithful || steady) && end.Refused? ==> (w.main == old(w).main <==> downs == old(downs))
      ensures end.Refused? && downs != old(downs) ==> !Running(w.main)
      ensures faithful && end.Refused? ==> downs == old(downs)
      ensures leaked && !old(leaked) ==> end.Stranded?
      ensures end.Swapped? ==> SwappedIn(w, old(w).main.value, Container(old(w).nextId, image, true))
      ensures failures == old(failures) + f
      ensures faults == old(faults) ==>
        f == [] && end == (if old(w).main.Some? && Switchable(old(w)) then Swapped else Refused)
      ensures faithful && faults <= old(faults) + 1 ==> !end.Stranded?
      ensures (faithful || steady) && f == [] ==>
        end == (if old(w).main.Some? && Switchable(old(w)) then Swapped else Refused)
      ensures faithful && end.Undone? ==> |f| == 1
      ensures end.Swapped? ==> f == [] && (faithful ==> w == Replaced(old(w), image))
      ensures end.Swapped? ==> issued == old(issued) + SwitchScript(image)
    {
      f := [];
      var ok := Check();
      if !ok { return Refused, [Look]; }
      if !w.main.value.running { return Refused, f; }
      ghost var before := failures;
      ok := NamesFree();
      if !ok { return Refused, if failures == before then [] else [Look]; }
      ok := Check();
      if !ok { return Refused, [Look]; }
      ok := Create(image);
      if !ok { return Refused, [CreateCandidate(image)]; }
      end, f := CutOver();
    }
  }
}

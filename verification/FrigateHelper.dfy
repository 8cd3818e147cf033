/** The privileged helper's Frigate operations, step by step as they are issued
    against the host. Every effect goes through `Exec`. */
module FrigateHelper {
  import opened Faults
  import opened FrigateWorld
  import opened FrigateRuns

  /** How the next command ends, and which containers exit just before it. */
  datatype Event = Event(outcome: Outcome, exited: set<Place>)

  /** Names a world so that `Lawful` is looked into there, and only there: the
      operations below mostly need to know that it holds, not what it says. */
  predicate Key(w: World) {
    true
  }

  /** The run so far follows the protocol and has led to `w`. */
  ghost predicate Lawful(t: seq<World>, w: World, disciplined: bool) {
    forall v {:trigger Key(v)} :: Key(v) && v == w ==>
      && IsRun(t) && t[|t| - 1] == v
      && Inv(v)
      && (disciplined ==> forall i :: 0 <= i < |t| ==> Agree(t[i]))
  }

  lemma RunAdvances(t: seq<World>, w: World, next: World, c: Command, disciplined: bool)
    requires Lawful(t, w, disciplined) && Permitted(c, w) && (disciplined ==> KeepsAgreement(c, w))
    requires Disturbs(w, next) || (Possible(c, w) && next == Apply(c, w))
    ensures Lawful(t + [next], next, disciplined) && WayBack(next)
  {
    assert Key(w);
    RunGrows(t, next);
    StepKeepsInv(w, next);
    if disciplined {
      assert Agree(t[|t| - 1]);
      if Disturbs(w, next) {
        DisturbanceKeepsAgreement(c, w, next);
      } else {
        CommandKeepsAgreement(c, w);
      }
    }
  }

  lemma PermissionStays(t: seq<World>, w: World, next: World, c: Command, disciplined: bool)
    requires Lawful(t, w, disciplined) && Permitted(c, w) && (disciplined ==> KeepsAgreement(c, w))
    ensures Disturbs(w, next) ==> Permitted(c, next) && (disciplined ==> KeepsAgreement(c, next))
  {
    assert Key(w);
    if Disturbs(w, next) {
      DisturbanceKeepsPermission(c, w, next);
      if disciplined {
        assert Agree(t[|t| - 1]);
        DisturbanceKeepsAgreement(c, w, next);
      }
    }
  }

  /** The configuration directory of a first installation. */
  function FirstConfig(): Content {
    map["config.yml" := "mqtt:\n  enabled: false\ncameras: {}\ndetect:\n  enabled: false\n"]
  }

  // ----------------------------------------- the commands of each operation, in order

  datatype History = Nothing | Then(before: History, last: Command)

  /** A backup loses its files before it goes: that is no command of its own. */
  function Noted(h: History, c: Command): History {
    if c.SpoilBackup? then h else Then(h, c)
  }

  function Looked(h: History): History {
    Then(h, Command.Look)
  }

  function Twice(h: History): History {
    Looked(Looked(h))
  }

  /** The old tree goes aside before the new one takes its place. */
  function Replacing(h: History, tree: Tree): History {
    Looked(Then(Then(h, SetAside), Adopt(tree)))
  }

  /** The backup goes before the journal. */
  function Dismissing(h: History, backup: bool): History {
    Looked(Then(if backup then Then(h, DropBackup) else h, DropJournal))
  }

  /** The transaction is cleared only after the old container has proved healthy. */
  function Reviving(h: History, backup: bool): History {
    Looked(Dismissing(Then(Then(h, Start(Main)), Probe(Main)), backup))
  }

  /** The old container goes before the journal says "committed". */
  function Committing(h: History, retained: bool, txn: Journal): History {
    var retired := if retained then Then(Looked(Looked(h)), Remove(Previous, false)) else Looked(h);
    Looked(Then(retired, Command.WriteJournal(txn.(phase := Committed))))
  }

  /** The old container is down, and the snapshot complete, before the journal speaks of it. */
  function Freezing(h: History, next: Journal): History {
    Then(Then(Then(Looked(Then(h, Stop(Main))), MakeBackup), FillBackup), Command.WriteJournal(next))
  }

  function Swapping(h: History, next: Journal): History {
    Looked(Then(Then(Then(h, Rename(Main, Previous)), Rename(Candidate, Main)), Command.WriteJournal(next)))
  }

  /** `last`: the journal at the end. The candidate proves healthy before it gets the name. */
  function CuttingOver(h: History, last: Journal): History {
    var frozen := Freezing(Looked(h), last.(phase := Snapshotted));
    Swapping(Then(Then(frozen, Start(Candidate)), Probe(Candidate)), last)
  }

  /** The candidate exists before the journal speaks of it. */
  function Preparing(h: History, image: Image, txn: Journal): History {
    Then(Looked(Then(h, Create(Candidate, image))), Command.WriteJournal(txn))
  }

  function Upgrading(h: History, previousImage: Image, image: Image, last: Journal): History {
    CuttingOver(Preparing(Twice(Twice(h)), image, Journal(previousImage, image, Prepared, None)), last)
  }

  function Starting(h: History): History {
    Then(Then(h, Start(Main)), Probe(Main))
  }

  function Creating(h: History, image: Image): History {
    Looked(Starting(Looked(Then(h, Create(Main, image)))))
  }

  function Installing(h: History, first: bool, image: Image): History {
    Creating(Looked(if first then Then(Looked(h), MakeStorage(FirstConfig())) else Looked(h)), image)
  }

  function Controlling(h: History, stop: bool, start: bool): History {
    var stopped := if stop then Then(h, Stop(Main)) else h;
    if start then Starting(stopped) else stopped
  }

  class FrigateHost {
    var w: World
    var events: seq<Event>          // what is still going to go wrong; nothing once it is empty
    ghost var trace: seq<World>     // every state of the host so far
    ghost var done: History         // every command that was reported carried out, in their order
    ghost var faults: nat           // how often something went wrong by itself: a command that could have
                                    // been carried out was not, or not reported so, or containers exited
    ghost const disciplined: bool   // requests come from Core's registry only
    const steady: bool              // containers do not exit by themselves

    ghost predicate Valid()
      reads this
    {
      Lawful(trace, w, disciplined) && WayBack(w)
    }

    /** What a lawful host promises about its present state. */
    lemma Facts()
      requires Valid()
      ensures Inv(w) && (disciplined ==> Agree(w))
      ensures |trace| > 0 && trace[|trace| - 1] == w
    {
      assert Key(w);
      if disciplined { assert Agree(trace[|trace| - 1]); }
    }

    lemma Ended()
      requires Valid()
      ensures |trace| > 0 && trace[|trace| - 1] == w
    {
      assert Key(w);
    }

    /** Every state the host has passed through was safe. */
    lemma AlwaysSafe()
      requires Valid()
      ensures forall i :: 0 <= i < |trace| ==> Safe(trace[i]) && (disciplined ==> Agree(trace[i]))
    {
      assert Key(w);
      forall i | 0 <= i < |trace| ensures Safe(trace[i]) {
        RunIsSafe(trace, i);
      }
    }

    /** Every state of a disciplined run: a crash there can be reconciled, or it is stuck. */
    lemma AlwaysReconcilable()
      requires Valid() && disciplined
      ensures forall i :: 0 <= i < |trace| && Interrupted(trace[i]) ==>
        Recoverable(trace[i], trace[i].row.value.image) || Stuck(trace[i], trace[i].row.value)
    {
      assert Key(w);
      forall i | 0 <= i < |trace| && Interrupted(trace[i])
        ensures Recoverable(trace[i], trace[i].row.value.image) || Stuck(trace[i], trace[i].row.value)
      {
        RunIsSafe(trace, i);
        RecoverableExactly(trace[i]);
      }
    }

    constructor (w: World, events: seq<Event>, disciplined: bool, steady: bool)
      requires Inv(w) && (disciplined ==> Agree(w))
      ensures Valid() && this.w == w && this.events == events
      ensures trace == [w] && this.disciplined == disciplined && this.steady == steady
    {
      this.w := w;
      this.events := events;
      this.trace := [w];
      this.disciplined := disciplined;
      this.steady := steady;
      this.faults := 0;
      this.done := Nothing;
    }

    /** Progress of one command or operation: the run goes on, disturbances are used up. */
    twostate predicate Progress()
      reads this
    {
      && old(trace) <= trace
      && |events| <= |old(events)|
      && old(faults) <= faults
      && (old(events) == [] ==> faults == old(faults))
    }

    /** After step `k`, with nothing running, a container was started under the module's name. */
    twostate predicate StartedAfter(k: nat)
      reads this
    {
      |old(trace)| <= k < |trace| - 1 && !AnyRunning(trace[k]) && trace[k + 1] == Apply(Start(Main), trace[k])
    }

    /** The rollback of `txn` has started the old container after step `k`: past "prepared" on the
        snapshot, and at "prepared" on a configuration that nobody has moved or mounted. */
    twostate predicate StartedFor(txn: Journal, k: nat)
      reads this
    {
      && StartedAfter(k) && trace[k].config.Some?
      && if txn.phase.Prepared? then trace[k].touched == old(w).touched
         else txn.snapshot == Some(trace[k].config.value.content)
    }

    /** Progress of a helper operation, which never touches Core's registry. */
    twostate predicate Onward()
      reads this
    {
      Progress() && w.row == old(w).row
    }

    /** The module's container has passed its health check, and runs unless it exited by itself. */
    predicate Alive()
      reads this
    {
      HealthyMain(w) && (steady ==> Running(w.main))
    }

    ghost predicate Registered(image: Image)
      reads this
    {
      disciplined ==> w.row == Some(Row(image, true))
    }

    method Exec(c: Command) returns (r: Reply, ghost pre: World)
      requires Valid() && Permitted(c, w)
      requires disciplined ==> KeepsAgreement(c, w)
      modifies this
      ensures Valid() && Progress() && (!c.SetRow? ==> Onward())
      ensures old(events) != [] ==> |events| < |old(events)|
      ensures r.Success? ==> |trace| == |old(trace)| + 2 && trace[|trace| - 2] == pre && trace[|trace| - 1] == w
      ensures Disturbs(old(w), pre)
      ensures r.Success? ==> Possible(c, pre) && w == Apply(c, pre)
      ensures !r.Success? ==> w == pre || (Possible(c, pre) && w == Apply(c, pre))
      ensures r.Error? && Possible(c, pre) ==>
                old(events) != [] && (old(events)[0].outcome.FailedAfter?
                  || (old(events)[0].outcome.FailedBefore? && w == pre))
      ensures faults == old(faults) || steady ==> SameContainers(old(w), pre)
      ensures faults == old(faults) ==>
                && (r.Success? <==> Possible(c, pre)) && !r.Crash?
                && (!r.Success? ==> w == pre)
      ensures done == if r.Success? then Noted(old(done), c) else old(done)
    {
      var e := Event(Done, {});
      if events != [] {
        e, events := events[0], events[1..];
      }
      Drift(c, e.exited);
      pre := w;
      r := Strike(c, e.outcome);
      done := if r.Success? then Noted(done, c) else done;
    }

    /** What happens to the host before the command reaches it. */
    method Drift(ghost c: Command, exited: set<Place>)
      requires Valid() && Permitted(c, w)
      requires disciplined ==> KeepsAgreement(c, w)
      modifies this`w, this`trace, this`faults
      ensures Valid() && Permitted(c, w) && (disciplined ==> KeepsAgreement(c, w))
      ensures Disturbs(old(w), w) && trace == old(trace) + [w]
      ensures old(faults) <= faults && (exited == {} ==> faults == old(faults))
      ensures faults == old(faults) || steady ==> SameContainers(old(w), w)
    {
      var written: Content := *;
      var now := Disturbed(w, if steady then {} else exited, written);
      faults := if SameContainers(w, now) then faults else faults + 1;
      Advance(now, c);
    }

    /** The command itself, on the host as it finds it. */
    method Strike(c: Command, outcome: Outcome) returns (r: Reply)
      requires Valid() && Permitted(c, w)
      requires disciplined ==> KeepsAgreement(c, w)
      modifies this`w, this`trace, this`faults
      ensures Valid() && (!c.SetRow? ==> w.row == old(w).row)
      ensures faults == if outcome.Done? then old(faults) else old(faults) + 1
      ensures if Possible(c, old(w)) && TakesEffect(outcome) then w == Apply(c, old(w)) && trace == old(trace) + [w]
              else w == old(w) && trace == old(trace)
      ensures r == if Possible(c, old(w)) then ReplyOf(outcome) else if ReplyOf(outcome).Crash? then Crash else Error
    {
      r := ReplyOf(outcome);
      if !Possible(c, w) {
        r := if r.Crash? then Crash else Error;
      } else if TakesEffect(outcome) {
        Advance(Apply(c, w), c);
      }
      faults := if outcome.Done? then faults else faults + 1;
    }

    /** Record the next state of the host: a disturbance, or the effect of `c`. */
    method Advance(next: World, ghost c: Command)
      requires Valid() && Permitted(c, w)
      requires disciplined ==> KeepsAgreement(c, w)
      requires Disturbs(w, next) || (Possible(c, w) && next == Apply(c, w))
      modifies this`w, this`trace
      ensures Valid() && w == next && trace == old(trace) + [next]
      ensures Disturbs(old(w), next) ==> Permitted(c, w) && (disciplined ==> KeepsAgreement(c, w))
    {
      RunAdvances(trace, w, next, c, disciplined);
      PermissionStays(trace, w, next, c, disciplined);
      w := next;
      trace := trace + [next];
    }

    // -------------------------------------------------- one external command each

    /** A command that only reads. */
    method Look() returns (r: Reply)
      requires Valid()
      modifies this
      ensures Valid() && Onward() && Disturbs(old(w), w)
      ensures old(events) != [] ==> |events| < |old(events)|
      ensures faults == old(faults) ==> r.Success?
      ensures faults == old(faults) || steady ==> SameContainers(old(w), w)
      ensures r.Success? ==> done == Looked(old(done))
    {
      ghost var pre;
      r, pre := Exec(Command.Look);
    }

    /** docker create: a stopped container with a new identity. */
    method CreateContainer(p: Place, image: Image) returns (r: Reply, ghost pre: World)
      requires Valid() && !p.Previous?
      requires w.journal.None? || (p.Main? && w.journal.value.phase.Committed? && image == w.journal.value.newImage)
      requires disciplined && p.Main? ==> w.row.Some? && w.row.value.image == image
      modifies this
      ensures Valid() && Onward() && Disturbs(old(w), pre)
      ensures r.Success? ==> At(old(w), p).None? && w == Created(pre, p, image)
      ensures !r.Success? ==> w == pre || (At(old(w), p).None? && w == Created(pre, p, image))
      ensures faults == old(faults) ==> r == (if At(old(w), p).None? then Success else Error)
      ensures faults == old(faults) || steady ==> SameContainers(old(w), pre)
      ensures r.Success? ==> done == Then(old(done), Create(p, image))
    {
      r, pre := Exec(Create(p, image));
    }

    /** docker start: refused by Docker without a container or without its config directory. */
    method StartContainer(p: Place) returns (r: Reply, ghost pre: World)
      requires Valid() && OursAt(w, p) && OthersStopped(w, p)
      requires if Pending(w) then MayStartPending(w, p) else p.Main?
      modifies this
      ensures Valid() && Onward() && Disturbs(old(w), pre)
      ensures r.Success? ==> pre.config.Some? && w == Started(pre, p)
      ensures !r.Success? ==> w == pre || (pre.config.Some? && w == Started(pre, p))
      ensures faults == old(faults) ==> r == (if old(w).config.Some? then Success else Error)
      ensures faults == old(faults) || steady ==> SameContainers(old(w), pre)
      ensures r.Success? ==> |trace| == |old(trace)| + 2 && trace[|trace| - 2] == pre && trace[|trace| - 1] == w
      ensures r.Success? ==> done == Then(old(done), Start(p))
    {
      assert Permitted(Start(p), w);
      r, pre := Exec(Start(p));
    }

    /** docker stop. */
    method StopContainer(p: Place) returns (r: Reply)
      requires Valid() && OursAt(w, p)
      modifies this
      ensures Valid() && Onward() && Disturbs(old(w), w)
      ensures r.Success? ==> !At(w, p).value.running
      ensures faults == old(faults) ==> r.Success?
      ensures r.Success? ==> |old(trace)| < |trace|
      ensures r.Success? ==> done == Then(old(done), Stop(p))
    {
      ghost var pre;
      r, pre := Exec(Stop(p));
    }

    /** docker rm, with or without -f; without it Docker refuses a running container. */
    method RemoveContainer(p: Place, force: bool) returns (r: Reply, ghost pre: World)
      requires Valid() && OursAt(w, p)
      requires Pending(w) && p.Main? ==> Has(w.main, w.journal.value.newImage) && w.previous.Some?
      requires Pending(w) && p.Previous? ==> Has(w.main, w.journal.value.newImage)
      requires disciplined ==> KeepsAgreement(Remove(p, force), w)
      modifies this
      ensures Valid() && Onward() && Disturbs(old(w), pre)
      ensures r.Success? ==> w == Put(pre, p, None)
      ensures !r.Success? ==> w == pre || w == Put(pre, p, None)
      ensures faults == old(faults) ==>
                r == (if force || !At(old(w), p).value.running then Success else Error)
      ensures faults == old(faults) || steady ==> SameContainers(old(w), pre)
      ensures r.Success? ==> done == Then(old(done), Remove(p, force))
    {
      r, pre := Exec(Remove(p, force));
    }

    /** docker rename; the target name must be free. */
    method RenameContainer(p: Place, q: Place) returns (r: Reply, ghost pre: World)
      requires Valid() && OursAt(w, p) && Pending(w)
      requires (p.Main? && q.Previous? && Has(w.main, w.journal.value.oldImage) && !w.journal.value.phase.Prepared?
        && w.candidate.Some?)
            || (p.Candidate? && q.Main? && w.previous.Some?) || (p.Previous? && q.Main?)
      modifies this
      ensures Valid() && Onward() && Disturbs(old(w), pre)
      ensures r.Success? ==> At(old(w), q).None? && w == Put(Put(pre, p, None), q, At(pre, p))
      ensures !r.Success? ==> w == pre || (At(old(w), q).None? && w == Put(Put(pre, p, None), q, At(pre, p)))
      ensures faults == old(faults) ==> r == (if At(old(w), q).None? then Success else Error)
      ensures faults == old(faults) || steady ==> SameContainers(old(w), pre)
      ensures r.Success? ==> done == Then(old(done), Rename(p, q))
    {
      r, pre := Exec(Rename(p, q));
    }

    /** rename config -> failed-config-N, while nothing runs. */
    method SetConfigAside() returns (r: Reply)
      requires Valid() && Pending(w) && Idle(w)
      requires w.journal.value.phase.Prepared? || BackupIntact(w, w.journal.value.snapshot)
      modifies this
      ensures Valid() && Onward()
      ensures r.Success? ==> old(w).config.Some? && w == Aside(old(w))
      ensures !r.Success? ==> w == old(w) || (old(w).config.Some? && w == Aside(old(w)))
      ensures faults == old(faults) ==> r == (if old(w).config.Some? then Success else Error)
      ensures r.Success? ==> done == Then(old(done), SetAside)
    {
      ghost var pre;
      r, pre := Exec(SetAside);
      IdleStays(old(w), pre);
    }

    /** rename failed-config-N -> config, undoing the previous rename. */
    method PutConfigBack() returns (r: Reply)
      requires Valid() && Pending(w) && Idle(w) && |w.failed| > 0
      requires IdsBelow(w.failed[|w.failed| - 1].writers, w.nextId)
      requires w.journal.value.phase.Prepared? ==> w.stagedId !in w.failed[|w.failed| - 1].writers
      modifies this
      ensures Valid() && Onward()
      ensures w == old(w) || (old(w).config.None?
        && w == old(w).(config := w.config, failed := w.failed, window := Closed, touched := old(w).touched + 1)
                              && w.config == Some(old(w).failed[|old(w).failed| - 1])
                              && w.failed == old(w).failed[..|old(w).failed| - 1])
      ensures faults == old(faults) ==> !r.Crash? && (r.Success? <==> old(w).config.None?)
      ensures r.Success? ==> w.config == Some(old(w).failed[|old(w).failed| - 1])
      ensures r.Success? ==> done == Then(old(done), PutBack)
    {
      ghost var pre;
      r, pre := Exec(PutBack);
      IdleStays(old(w), pre);
    }

    /** rename .restore-N -> config, while nothing runs. */
    method AdoptTree(tree: Tree) returns (r: Reply)
      requires Valid() && Pending(w) && Idle(w) && Untainted(w, tree.writers)
      modifies this
      ensures Valid() && Onward()
      ensures r.Success? ==>
        old(w).config.None? && w == old(w).(config := Some(tree), window := Closed, touched := old(w).touched + 1)
      ensures !r.Success? ==>
        w == old(w) || (old(w).config.None?
          && w == old(w).(config := Some(tree), window := Closed, touched := old(w).touched + 1))
      ensures faults == old(faults) ==> r == (if old(w).config.None? then Success else Error)
      ensures r.Success? ==> done == Then(old(done), Adopt(tree))
    {
      ghost var pre;
      r, pre := Exec(Adopt(tree));
      IdleStays(old(w), pre);
    }

    /** writeFrigateTransaction: the journal is replaced by one rename. */
    method WriteTransaction(j: Journal) returns (r: Reply, ghost pre: World)
      requires Valid() && MayWriteJournal(j, w)
      requires disciplined ==> Agree(w.(journal := Some(j)))
      modifies this
      ensures Valid() && Onward() && Disturbs(old(w), pre)
      ensures r.Success? ==> w == pre.(journal := Some(j))
      ensures !r.Success? ==> w == pre || w == pre.(journal := Some(j))
      ensures faults == old(faults) ==> r.Success?
      ensures faults == old(faults) || steady ==> SameContainers(old(w), pre)
      ensures r.Success? ==> done == Then(old(done), Command.WriteJournal(j))
    {
      r, pre := Exec(Command.WriteJournal(j));
    }

    // ------------------------------------------------------------ inspections

    /** verifyFrigateContainer: identity, image and profile of one container. */
    method VerifyContainer(p: Place, image: Image) returns (r: Reply, info: Option<Container>)
      requires Valid()
      modifies this
      ensures Valid() && Onward() && Disturbs(old(w), w)
      ensures old(events) != [] ==> |events| < |old(events)|
      ensures r.Success? ==> Has(At(w, p), image) && info == At(w, p)
      ensures faults == old(faults) ==>
                r == (if Has(At(w, p), image) then Success else Error)
      ensures faults == old(faults) || steady ==> SameContainers(old(w), w)
      ensures r.Success? ==> done == Looked(old(done))
    {
      info := None;
      r := Look();
      if r.Success? {
        if Has(At(w, p), image) {
          info := At(w, p);
        } else {
          r := Error;
        }
      }
    }

    /** waitFrigateHealthy: the verdict "healthy" is only ever given for a running container. */
    method WaitHealthy(p: Place) returns (r: Reply)
      requires Valid()
      modifies this
      ensures Valid() && Onward()
      ensures Disturbs(old(w).(healthy := w.healthy), w) && old(w).healthy <= w.healthy
      ensures r.Success? ==> At(w, p).Some? && At(w, p).value.running && At(w, p).value.id in w.healthy
      ensures faults == old(faults) ==>
                r == (if At(w, p).Some? && At(w, p).value.running then Success else Error)
      ensures faults == old(faults) || steady ==> SameContainers(old(w), w)
      ensures r.Success? ==> done == Then(old(done), Probe(p))
    {
      ghost var pre;
      r, pre := Exec(Probe(p));
    }

    // ------------------------------------------------------------ rollback

    /** restoreFrigateConfig: the verified backup takes the place of config, and the
        replaced tree is kept aside. */
    method RestoreConfig(txn: Journal) returns (r: Reply)
      requires Valid() && Pending(w) && Mirrors(txn, w) && !txn.phase.Prepared? && Idle(w)
      modifies this
      ensures Valid() && Onward()
      ensures w == old(w).(config := w.config, failed := w.failed, window := w.window, touched := w.touched)
      ensures r.Success? ==> old(BackupIntact(w, txn.snapshot)) && old(w).config.Some?
      ensures r.Success? ==> w.config == old(w).backup && w.failed == old(w).failed + [old(w).config.value]
      ensures !r.Success? ==>
                || (w.config == old(w).config && w.failed == old(w).failed)
                || (old(w).config.Some? && w.failed == old(w).failed + [old(w).config.value]
                    && (w.config.None? || w.config == old(w).backup))
      ensures faults == old(faults) ==>
                r == (if old(BackupIntact(w, txn.snapshot)) && old(w).config.Some? then Success else Error)
      ensures r.Success? ==> done == Replacing(Twice(old(done)), old(w).backup.value)
    {
      Facts();
      r := Look();
      IdleStays(old(w), w);
      if !r.Success? { return; }
      if !BackupIntact(w, txn.snapshot) { return Error; }
      r := Look();
      IdleStays(old(w), w);
      if !r.Success? { return; }
      r := ReplaceConfig(w.backup.value);
    }

    /** The two renames of the restore, with the undo of the first one. */
    method ReplaceConfig(temporary: Tree) returns (r: Reply)
      requires Valid() && Pending(w) && Idle(w) && Untainted(w, temporary.writers)
      requires w.journal.value.phase.Prepared? || BackupIntact(w, w.journal.value.snapshot)
      modifies this
      ensures Valid() && Onward()
      ensures w == old(w).(config := w.config, failed := w.failed, window := w.window, touched := w.touched)
      ensures r.Success? ==>
                old(w).config.Some? && w.config == Some(temporary) && w.failed == old(w).failed + [old(w).config.value]
      ensures !r.Success? ==>
                || (w.config == old(w).config && w.failed == old(w).failed)
                || (old(w).config.Some? && w.failed == old(w).failed + [old(w).config.value]
                    && (w.config.None? || w.config == Some(temporary)))
      ensures faults == old(faults) ==> r == (if old(w).config.Some? then Success else Error)
      ensures r.Success? ==> done == Replacing(old(done), temporary)
    {
      Facts();
      r := SetConfigAside();
      if !r.Success? { return; }
      r := AdoptOrUndo(temporary);
      if !r.Success? { return; }
      label moved:
      r := Look();
      IdleStays(old@moved(w), w);
    }

    /** The second rename; when it fails, and nothing else does, the first one is undone. */
    method AdoptOrUndo(temporary: Tree) returns (r: Reply)
      requires Valid() && Pending(w) && Idle(w) && Untainted(w, temporary.writers) && w.config.None? && |w.failed| > 0
      requires IdsBelow(w.failed[|w.failed| - 1].writers, w.nextId)
      requires w.journal.value.phase.Prepared? ==> w.stagedId !in w.failed[|w.failed| - 1].writers
      modifies this
      ensures Valid() && Onward()
      ensures w == old(w).(config := w.config, failed := w.failed, window := w.window, touched := w.touched)
      ensures r.Success? ==> w.config == Some(temporary) && w.failed == old(w).failed
      ensures !r.Success? ==>
        || (w.failed == old(w).failed && (w.config.None? || w.config == Some(temporary)))
        || (w.failed == old(w).failed[..|old(w).failed| - 1] && w.config == Some(old(w).failed[|old(w).failed| - 1]))
      ensures faults == old(faults) ==> r.Success?
      ensures r.Error? && faults <= old(faults) + 1 ==>
        w.config == Some(temporary) || w.config == Some(old(w).failed[|old(w).failed| - 1])
      ensures r.Success? ==> done == Then(old(done), Adopt(temporary))
    {
      r := AdoptTree(temporary);
      if r.Error? {
        var undone := PutConfigBack();
        r := if undone.Crash? then Crash else Error;
      }
    }

    /** clearFrigateTransaction: first the backup, which may vanish piecemeal, then the journal. */
    method ClearTransaction() returns (r: Reply)
      requires Valid() && w.journal.Some? && w.candidate.None? && w.previous.None?
      requires Pending(w) ==> Returned(w, w.journal.value)
      modifies this
      ensures Valid() && Onward()
      ensures Disturbs(old(w).(journal := w.journal, backup := w.backup, window := w.window), w)
      ensures w.journal == old(w).journal || (w.journal.None? && w.backup.None?)
      ensures r.Success? ==> w.journal.None?
      ensures faults == old(faults) ==> r.Success?
      ensures faults == old(faults) || steady ==> w.main == old(w).main
      ensures r.Success? ==> done == Dismissing(old(done), old(w).backup.Some?)
    {
      r := RemoveBackup();
      if !r.Success? { return; }
      ghost var pre;
      r, pre := Exec(DropJournal);
      if !r.Success? { return; }
      r := Look();
    }

    /** os.RemoveAll of the backup. */
    method RemoveBackup() returns (r: Reply)
      requires Valid() && w.journal.Some? && w.candidate.None? && w.previous.None?
      requires Pending(w) ==> Returned(w, w.journal.value)
      modifies this
      ensures Valid() && Onward()
      ensures Disturbs(old(w).(backup := w.backup, window := w.window), w)
      ensures r.Success? ==> w.backup.None?
      ensures faults == old(faults) ==> r.Success?
      ensures faults == old(faults) || steady ==> SameContainers(old(w), w)
      ensures r.Success? ==> done == if old(w).backup.Some? then Then(old(done), DropBackup) else old(done)
    {
      r := Success;
      ghost var pre;
      if w.backup.Some? {
        var left: Content := *;
        r, pre := Exec(SpoilBackup(left));
        if !r.Success? { return; }
        r, pre := Exec(DropBackup);
      }
    }

    /** With a transaction on the host every name holds what it may hold, or nothing. */
    lemma NothingForeign(n: Place, txn: Journal)
      requires Valid() && Mirrors(txn, w)
      ensures At(w, n).Some? ==>
        && At(w, n).value.ours
        && (n.Candidate? ==> At(w, n).value.image == txn.newImage)
        && (n.Previous? ==> At(w, n).value.image == txn.oldImage)
        && (n.Main? ==> At(w, n).value.image == txn.oldImage || At(w, n).value.image == txn.newImage)
    {
      Facts();
      match n { case Main => case Candidate => case Previous => }
    }

    /** One name of the inspection pass of the recovery. */
    method Inspect(n: Place, txn: Journal) returns (r: Reply, info: Option<Container>)
      requires Valid() && Mirrors(txn, w)
      modifies this
      ensures Valid() && Onward() && Disturbs(old(w), w)
      ensures r.Success? ==> Aged(info, At(w, n))
      ensures faults == old(faults) ==> r.Success? && SameContainers(old(w), w)
      ensures r.Success? ==> done == if At(old(w), n).Some? then Looked(Twice(old(done))) else Looked(old(done))
    {
      info := None;
      r := Look();
      if !r.Success? || At(w, n).None? { return; }
      NothingForeign(n, txn);
      if !At(w, n).value.ours { return Error, None; }
      r, info := Examine(n, txn);
    }

    /** Its image, and then the container itself. */
    method Examine(n: Place, txn: Journal) returns (r: Reply, info: Option<Container>)
      requires Valid() && Mirrors(txn, w) && OursAt(w, n)
      modifies this
      ensures Valid() && Onward() && Disturbs(old(w), w)
      ensures r.Success? ==> Aged(info, At(w, n))
      ensures faults == old(faults) ==> r.Success? && SameContainers(old(w), w)
      ensures r.Success? ==> done == Twice(old(done))
    {
      info := None;
      r := Look();
      if !r.Success? { return; }
      NothingForeign(n, txn);
      DisturbedAt(old(w), w, n);
      var image := At(w, n).value.image;
      if (n.Candidate? && image != txn.newImage) || (n.Previous? && image != txn.oldImage)
         || (n.Main? && image != txn.oldImage && image != txn.newImage) {
        return Error, None;
      }
      ghost var before := w;
      r, info := VerifyContainer(n, image);
      DisturbedAt(before, w, n);
    }

    /** The inspection pass of the recovery: every container under the three names. */
    method Survey(txn: Journal) returns (r: Reply, found: map<Place, Container>)
      requires Valid() && Mirrors(txn, w)
      modifies this
      ensures Valid() && Onward() && Disturbs(old(w), w)
      ensures r.Success? ==> Surveyed(found, w, 3)
      ensures faults == old(faults) ==> r.Success? && SameContainers(old(w), w)
    {
      var names := [Main, Candidate, Previous];
      found := map[];
      r := Success;
      var i := 0;
      while i < |names|
        invariant 0 <= i <= |names|
        invariant Valid() && Onward() && Disturbs(old(w), w)
        invariant Mirrors(txn, w) && r.Success?
        invariant Surveyed(found, w, i)
        invariant faults == old(faults) ==> SameContainers(old(w), w)
      {
        var n := names[i];
        ghost var before := w;
        var info;
        r, info := Inspect(n, txn);
        DisturbsCompose(old(w), before, w);
        if !r.Success? { return; }
        SurveyStep(found, before, w, i, info);
        if info.Some? {
          found := found[n := info.value];
        }
        i := i + 1;
      }
    }

    /** The removal loop of the recovery: every container of the new image, in any order. */
    method RemoveCandidates(found: map<Place, Container>, txn: Journal) returns (r: Reply)
      requires Valid() && Pending(w) && Mirrors(txn, w)
      requires Surveyed(found, w, 3) && OldExists(w, txn)
      modifies this
      ensures Valid() && Onward()
      ensures Shrunk(old(w), w, txn.oldImage)
      ensures r.Success? ==> Purged(found, {}, w, txn.newImage)
      ensures faults == old(faults) ==> r.Success?
    {
      Facts();
      r := Success;
      var rest := found.Keys;
      while rest != {}
        invariant rest <= found.Keys
        invariant Valid() && Onward()
        invariant Shrunk(old(w), w, txn.oldImage)
        invariant Purged(found, rest, w, txn.newImage)
        invariant r.Success?
        decreases rest
      {
        var n :| n in rest;
        if found[n].image == txn.newImage {
          r := RemoveCandidate(n, found, rest, txn, old(w));
          if !r.Success? { return; }
        } else {
          PurgedSkip(found, rest, w, n, txn.newImage);
        }
        rest := rest - {n};
      }
    }

    /** One round of the removal loop. */
    method RemoveCandidate(n: Place, ghost found: map<Place, Container>, ghost rest: set<Place>, txn: Journal,
      ghost start: World)
      returns (r: Reply)
      requires Valid() && Pending(w) && Mirrors(txn, w) && OldExists(w, txn)
      requires Shrunk(start, w, txn.oldImage) && Purged(found, rest, w, txn.newImage)
      requires n in rest && n in found && found[n].image == txn.newImage
      modifies this
      ensures Valid() && Onward()
      ensures Shrunk(start, w, txn.oldImage)
      ensures r.Success? ==> Purged(found, rest - {n}, w, txn.newImage)
      ensures faults == old(faults) ==> r.Success?
    {
      Facts();
      ghost var pre;
      PurgedOurs(found, rest, w, n, txn);
      r, pre := RemoveContainer(n, true);
      ShrunkStep(start, old(w), pre, w, n, txn.oldImage);
      if r.Success? {
        PurgedStep(found, rest, old(w), pre, w, n, txn.newImage);
      }
    }

    /** Stop the old container and bring its data back. */
    method StopAndRestore(txn: Journal, p: Place, wasRunning: bool, ghost id: nat) returns (r: Reply)
      requires Valid() && Pending(w) && Mirrors(txn, w)
      requires !p.Candidate? && Lone(w, p, id, txn.oldImage)
      requires At(w, p).value.running ==> wasRunning
      modifies this
      ensures Valid() && Onward()
      ensures Lone(w, p, id, txn.oldImage) && w.journal == old(w).journal && w.backup == old(w).backup
      ensures r.Success? ==> Idle(w)
      ensures r.Success? && !txn.phase.Prepared? ==>
                old(w).config.Some? && old(BackupIntact(w, txn.snapshot)) && w.config == old(w).backup
      ensures r.Success? && txn.phase.Prepared? ==>
                (w.config.None? <==> old(w).config.None?)
                && (w.config.Some? ==> w.config.value.writers == old(w).config.value.writers)
      ensures faults == old(faults) ==>
                r == if !txn.phase.Prepared? ==> old(w).config.Some? && old(BackupIntact(w, txn.snapshot))
                     then Success else Error
      ensures r.Success? && txn.phase.Prepared? ==> w.touched == old(w).touched
      ensures r.Success? ==>
        var stopped := if wasRunning then Then(old(done), Stop(p)) else old(done);
        done == if txn.phase.Prepared? then stopped else Replacing(Twice(stopped), old(w).backup.value)
    {
      r := Success;
      if wasRunning {
        r := StopContainer(p);
        if !r.Success? { return; }
      }
      assert Idle(w) by { match p { case Main => case Previous => } }
      if !txn.phase.Prepared? {
        r := RestoreConfig(txn);
      }
    }

    /** Give the old container its name back, start it, and drop the transaction. */
    method Revive(p: Place, image: Image, ghost id: nat) returns (r: Reply, ghost back: nat)
      requires Valid() && Pending(w) && !p.Candidate? && Lone(w, p, id, image) && Idle(w)
      requires image == w.journal.value.oldImage
      requires w.config.Some? ==> w.stagedId !in w.config.value.writers
      modifies this
      ensures Valid() && Onward()
      ensures r.Success? ==> RolledBack(w, image) && w.main.value.id == id && Alive()
      ensures r.Success? ==> old(w).config.Some? && w.config.value.writers == old(w).config.value.writers + {id}
      ensures !r.Success? ==>
        (w.journal == old(w).journal && OldExists(w, w.journal.value))
        || (RolledBack(w, image) && w.main.value.id == id && Alive())
      ensures faults == old(faults) ==> r == (if old(w).config.Some? then Success else Error)
      ensures faults == old(faults) && r.Success? ==> Running(w.main)
      ensures w.journal.None? ==>
        old(w).config.Some? && StartedAfter(back) && trace[back].config == old(w).config
          && trace[back].touched == old(w).touched
      ensures r.Success? ==>
        done == Reviving(if p.Main? then old(done) else Then(old(done), Rename(p, Main)), old(w).backup.Some?)
    {
      back := 0;
      ghost var pre;
      Facts();
      if !p.Main? {
        r, pre := RenameContainer(p, Main);
        IdleStays(old(w), pre);
        if !r.Success? { return; }
      }
      r, back := ReviveNamed(image, id);
    }

    /** Under its name again. */
    method ReviveNamed(image: Image, ghost id: nat) returns (r: Reply, ghost back: nat)
      requires Valid() && Pending(w) && Lone(w, Main, id, image) && Idle(w)
      requires image == w.journal.value.oldImage
      requires w.config.Some? ==> w.stagedId !in w.config.value.writers
      modifies this
      ensures Valid() && Onward()
      ensures r.Success? ==> RolledBack(w, image) && w.main.value.id == id && Alive()
      ensures r.Success? ==> old(w).config.Some? && w.config.value.writers == old(w).config.value.writers + {id}
      ensures !r.Success? ==>
        (w.journal == old(w).journal && OldExists(w, w.journal.value))
        || (RolledBack(w, image) && w.main.value.id == id && Alive())
      ensures faults == old(faults) ==> r == (if old(w).config.Some? then Success else Error)
      ensures faults == old(faults) && r.Success? ==> Running(w.main)
      ensures w.journal.None? ==>
        old(w).config.Some? && StartedAfter(back) && trace[back].config == old(w).config
          && trace[back].touched == old(w).touched
      ensures r.Success? ==> done == Reviving(old(done), old(w).backup.Some?)
    {
      back := 0;
      Facts();
      ghost var pre;
      r, pre := StartContainer(Main);
      IdleStays(old(w), pre);
      if !r.Success? { return; }
      back := |trace| - 2;
      r := WaitHealthy(Main);
      if !r.Success? { return; }
      r := ClearTransaction();
      if !r.Success? { return; }
      QuietWithoutJournal();
      r := Look();
    }

    lemma QuietWithoutJournal()
      requires Valid()
      ensures w.journal.None? ==> w.backup.None?
    {
      Facts();
    }

    /** Which of the surveyed containers carries the old image; two are one too many. */
    static method FindOld(found: map<Place, Container>, oldImage: Image)
      returns (ambiguous: bool, oldName: Option<Place>)
      ensures !ambiguous && oldName.Some? ==> oldName.value in found && found[oldName.value].image == oldImage
      ensures !ambiguous ==> forall p :: p in found && found[p].image == oldImage ==> oldName == Some(p)
      ensures ambiguous ==> exists p, q :: p != q && p in found && q in found
                                           && found[p].image == oldImage && found[q].image == oldImage
    {
      oldName := None;
      ambiguous := false;
      var rest := found.Keys;
      while rest != {}
        invariant rest <= found.Keys
        invariant oldName.Some? ==>
                    oldName.value in found && oldName.value !in rest && found[oldName.value].image == oldImage
        invariant forall p :: p in found && p !in rest && found[p].image == oldImage ==> oldName == Some(p)
        decreases rest
      {
        var n :| n in rest;
        if found[n].image == oldImage {
          if oldName.Some? {
            assert oldName.value != n;
            return true, None;
          }
          oldName := Some(n);
        }
        rest := rest - {n};
      }
    }

    /** The data the old container is about to be started on was never the candidate's. */
    lemma UntaintedForOld(txn: Journal)
      requires Valid() && Pending(w) && Mirrors(txn, w)
      requires !txn.phase.Prepared? ==> w.config == w.backup
      ensures w.config.Some? ==> w.stagedId !in w.config.value.writers
    {
      Facts();
    }

    /** The destructive part of the recovery, once the old container was identified. */
    method RollBack(found: map<Place, Container>, p: Place, txn: Journal) returns (r: Reply, ghost back: nat)
      requires Valid() && Mirrors(txn, w) && Inv(w)
      requires Surveyed(found, w, 3) && p in found && found[p].image == txn.oldImage
      modifies this
      ensures Valid() && Onward()
      ensures r.Success? ==> old(Restorable(w, txn)) && RolledBack(w, txn.oldImage)
      ensures r.Success? ==> w.main.value.id == found[p].id
      ensures r.Success? ==> RevivedOn(old(w), w, txn) && Alive()
      ensures !r.Success? ==>
                (w.journal == old(w).journal && OldExists(w, txn))
                  || (RolledBack(w, txn.oldImage) && w.main.value.id == found[p].id && Alive())
      ensures faults == old(faults) ==>
                r == (if old(Restorable(w, txn)) then Success else Error)
      ensures faults == old(faults) && r.Success? ==> Running(w.main)
      ensures w.journal.None? ==> StartedFor(txn, back)
    {
      back := 0;
      SurveyedOld(found, w, txn, p);
      r := RemoveCandidates(found, txn);
      if !r.Success? {
        ShrunkKeepsOld(old(w), w, txn);
        return;
      }
      PurgedLone(found, old(w), w, txn, p);
      r := StopAndRestore(txn, p, found[p].running, found[p].id);
      if !r.Success? { return; }
      UntaintedForOld(txn);
      r, back := Revive(p, txn.oldImage, found[p].id);
    }

    /** frigate.VerifyConfig on the backup, for a transaction that has one. */
    method VerifyBackup(txn: Journal, ghost found: map<Place, Container>) returns (r: Reply)
      requires Valid() && Surveyed(found, w, 3)
      modifies this
      ensures Valid() && Onward() && Disturbs(old(w), w)
      ensures Surveyed(found, w, 3)
      ensures Restorable(w, txn) <==> old(Restorable(w, txn))
      ensures r.Success? && !txn.phase.Prepared? ==> BackupIntact(w, txn.snapshot)
      ensures faults == old(faults) ==>
        r == (if !txn.phase.Prepared? && !BackupIntact(w, txn.snapshot) then Error else Success)
      ensures r.Success? ==> done == if txn.phase.Prepared? then old(done) else Looked(old(done))
    {
      r := Success;
      if !txn.phase.Prepared? {
        r := Look();
        DisturbanceKeepsRestorable(old(w), w, txn);
        if r.Success? && !BackupIntact(w, txn.snapshot) { r := Error; }
      }
    }

    /** recoverFrigateTransaction: inspect everything, then remove the candidate, restore
        the data and bring the old container back. It succeeds, absent further
        disturbances, exactly when there is something to roll back to. */
    method RecoverTransaction(txn: Journal) returns (r: Reply, ghost back: nat)
      requires Valid() && Mirrors(txn, w)
      modifies this
      ensures Valid() && Onward()
      ensures r.Success? ==> old(Restorable(w, txn)) && RolledBack(w, txn.oldImage)
      ensures r.Success? ==> OldOf(old(w), txn).Some? && w.main.value.id == OldOf(old(w), txn).value.id
      ensures r.Success? ==> RevivedOn(old(w), w, txn) && Alive()
      ensures !r.Success? ==>
                || (w.journal == old(w).journal && (old(OldExists(w, txn)) ==> OldExists(w, txn)))
                || (RolledBack(w, txn.oldImage) && OldOf(old(w), txn).Some?
                  && w.main.value.id == OldOf(old(w), txn).value.id
                    && Alive())
      ensures faults == old(faults) ==>
                r == (if old(Restorable(w, txn)) then Success else Error)
      ensures faults == old(faults) && r.Success? ==> Running(w.main)
      ensures WayBack(w)
      ensures w.journal.None? ==> StartedFor(txn, back)
    {
      back := 0;
      var found;
      r, found := Survey(txn);
      DisturbanceKeepsRestorable(old(w), w, txn);
      if !r.Success? { return; }
      r, back := RecoverSurveyed(txn, found);
    }

    /** The recovery once every container is known. */
    method RecoverSurveyed(txn: Journal, found: map<Place, Container>) returns (r: Reply, ghost back: nat)
      requires Surveyed(found, w, 3)
      requires Valid() && Mirrors(txn, w)
      modifies this
      ensures Valid() && Onward()
      ensures r.Success? ==> old(Restorable(w, txn)) && RolledBack(w, txn.oldImage)
      ensures r.Success? ==> OldOf(old(w), txn).Some? && w.main.value.id == OldOf(old(w), txn).value.id
      ensures r.Success? ==> RevivedOn(old(w), w, txn) && Alive()
      ensures !r.Success? ==>
                || (w.journal == old(w).journal && (old(OldExists(w, txn)) ==> OldExists(w, txn)))
                || (RolledBack(w, txn.oldImage) && OldOf(old(w), txn).Some?
                  && w.main.value.id == OldOf(old(w), txn).value.id
                    && Alive())
      ensures faults == old(faults) ==>
                r == (if old(Restorable(w, txn)) then Success else Error)
      ensures faults == old(faults) && r.Success? ==> Running(w.main)
      ensures WayBack(w)
      ensures w.journal.None? ==> StartedFor(txn, back)
    {
      back := 0;
      var ambiguous, oldName := FindOld(found, txn.oldImage);
      Facts();
      FoundOld(found, w, txn);
      if ambiguous || oldName.None? {
        return Error, back;
      }
      r := VerifyBackup(txn, found);
      if !r.Success? {
        DisturbanceKeepsRestorable(old(w), w, txn);
        return;
      }
      r, back := RollBackVerified(txn, found, oldName.value, old(w));
    }

    method RollBackVerified(txn: Journal, found: map<Place, Container>, p: Place, ghost start: World)
      returns (r: Reply, ghost back: nat)
      requires Valid() && Mirrors(txn, w) && Surveyed(found, w, 3) && p in found && found[p].image == txn.oldImage
      requires Disturbs(start, w)
      modifies this
      ensures Valid() && Onward()
      ensures r.Success? ==> Restorable(start, txn) && RolledBack(w, txn.oldImage)
      ensures r.Success? ==> OldOf(start, txn).Some? && w.main.value.id == OldOf(start, txn).value.id
      ensures r.Success? ==> RevivedOn(start, w, txn) && Alive()
      ensures !r.Success? ==>
                || (w.journal == old(w).journal && (OldExists(start, txn) ==> OldExists(w, txn)))
                || (RolledBack(w, txn.oldImage) && OldOf(start, txn).Some?
                  && w.main.value.id == OldOf(start, txn).value.id
                    && Alive())
      ensures faults == old(faults) ==>
                r == (if Restorable(start, txn) then Success else Error)
      ensures faults == old(faults) && r.Success? ==> Running(w.main)
      ensures WayBack(w)
      ensures w.journal.None? ==> StartedFor(txn, back)
    {
      Facts();
      DisturbanceKeepsRestorable(start, w, txn);
      SurveyedOld(found, w, txn, p);
      r, back := RollBack(found, p, txn);
    }

    // -------------------------------------------------------------- commit

    /** commitFrigateUpgrade: the new container is verified and healthy, the old one is
        removed, and only then the journal says "committed". */
    method CommitUpgrade(txn: Journal) returns (r: Reply)
      requires Valid() && Mirrors(txn, w)
      requires disciplined ==> w.row.Some? && w.row.value.image == txn.newImage
      modifies this
      ensures Valid() && Onward()
      ensures w.backup == old(w).backup
      ensures r.Success? ==> CommittedWith(w, txn) && Aged(old(w).main, w.main)
      ensures r.Success? ==> Has(old(w).main, txn.newImage) && old(w).main.value.running && Alive()
      ensures !r.Success? ==> w.journal == old(w).journal || CommittedWith(w, txn)
      ensures faults == old(faults) ==>
                && r == (if Has(old(w).main, txn.newImage) && old(w).main.value.running then Success else Error)
                && w.main == old(w).main
      ensures WayBack(w)
      ensures r.Success? ==> done == Committing(Then(Looked(old(done)), Probe(Main)), old(w).previous.Some?, txn)
    {
      var info;
      r, info := VerifyContainer(Main, txn.newImage);
      if !r.Success? { return; }
      r := WaitHealthy(Main);
      if !r.Success? { return; }
      r := Finalize(txn);
    }

    /** The commit once the new container has proved healthy. */
    method Finalize(txn: Journal) returns (r: Reply)
      requires Valid() && Mirrors(txn, w) && Has(w.main, txn.newImage)
      requires w.main.value.running && w.main.value.id in w.healthy
      requires disciplined ==> w.row.Some? && w.row.value.image == txn.newImage
      modifies this
      ensures Valid() && Onward()
      ensures w.backup == old(w).backup && w.healthy == old(w).healthy
      ensures r.Success? ==> CommittedWith(w, txn)
      ensures Aged(old(w).main, w.main)
      ensures !r.Success? ==> w.journal == old(w).journal || CommittedWith(w, txn)
      ensures faults == old(faults) ==> r.Success?
      ensures faults == old(faults) || steady ==> w.main == old(w).main
      ensures r.Success? ==> done == Committing(old(done), old(w).previous.Some?, txn)
    {
      Facts();
      r := Look();
      if !r.Success? { return; }
      if w.previous.Some? {
        r := RetirePrevious(txn);
        if !r.Success? { return; }
      }
      ghost var pre;
      r, pre := WriteTransaction(txn.(phase := Committed));
      if !r.Success? { return; }
      r := Look();
    }

    /** The commit's removal of the stopped old container. */
    method RetirePrevious(txn: Journal) returns (r: Reply)
      requires Valid() && Mirrors(txn, w) && Pending(w)
      requires NewContainer(w, w.main, txn) && w.candidate.None? && OldContainer(w, w.previous, txn)
      requires disciplined ==> w.row.Some? && w.row.value.image == txn.newImage
      modifies this
      ensures Valid() && Onward()
      ensures Shrunk(old(w), w, txn.newImage)
      ensures r.Success? ==> w.previous.None?
      ensures faults == old(faults) && !old(w).previous.value.running ==> r.Success?
      ensures faults == old(faults) || steady ==> w.main == old(w).main
      ensures r.Success? ==> done == Then(Looked(old(done)), Remove(Previous, false))
    {
      if !w.previous.value.ours { return Error; }
      var info;
      r, info := VerifyContainer(Previous, txn.oldImage);
      if !r.Success? { return; }
      Facts();
      ghost var pre;
      r, pre := RemoveContainer(Previous, false);
    }

    // ------------------------------------------------------------- upgrade

    /** snapshotFrigateConfig: a complete verified copy, or an error after a best-effort cleanup. */
    method SnapshotConfig() returns (r: Reply, snapshot: Content)
      requires Valid() && Pending(w) && w.journal.value.phase.Prepared? && Idle(w)
      requires w.config.Some? ==> w.stagedId !in w.config.value.writers
      modifies this
      ensures Valid() && Onward()
      ensures w == old(w).(backup := w.backup)
      ensures r.Success? ==> w.backup.Some? && w.backup == w.config && snapshot == w.backup.value.content
      ensures faults == old(faults) ==> r == (if old(w).backup.None? && old(w).config.Some? then Success else Error)
      ensures r.Success? ==> done == Then(Then(Looked(old(done)), MakeBackup), FillBackup)
    {
      snapshot := map[];
      r := Look();
      IdleStays(old(w), w);
      if !r.Success? { return; }
      if w.config.None? { return Error, map[]; }
      r := ChangeBackup(MakeBackup);
      if !r.Success? { return; }
      r := FillOrDrop();
      if !r.Success? { return; }
      snapshot := w.backup.value.content;
    }

    /** The copy; when it fails, and nothing else does, the directory is removed again. */
    method FillOrDrop() returns (r: Reply)
      requires Valid() && Pending(w) && w.journal.value.phase.Prepared? && Idle(w)
      requires w.config.Some? && w.stagedId !in w.config.value.writers && w.backup.Some?
      modifies this
      ensures Valid() && Onward()
      ensures w == old(w).(backup := w.backup)
      ensures r.Success? ==> w.backup == w.config
      ensures faults == old(faults) ==> r.Success?
      ensures r.Error? && faults <= old(faults) + 1 ==> w.backup.None?
      ensures r.Success? ==> done == Then(old(done), FillBackup)
    {
      r := ChangeBackup(FillBackup);
      if r.Error? {
        var cleanup := ChangeBackup(DropBackup);
        r := if cleanup.Crash? then Crash else Error;
      }
    }

    /** mkdir, complete copy and removal of the backup directory, while nothing runs. */
    method ChangeBackup(c: Command) returns (r: Reply)
      requires Valid() && Pending(w) && w.journal.value.phase.Prepared? && Idle(w)
      requires c.MakeBackup? || c.DropBackup?
        || (c.FillBackup? && w.config.Some? && w.stagedId !in w.config.value.writers)
      modifies this
      ensures Valid() && Onward()
      ensures w == old(w).(backup := w.backup)
      ensures r.Success? ==> w.backup == BackupAfter(c, old(w)) && (c.MakeBackup? ==> old(w).backup.None?)
      ensures faults == old(faults) ==>
                r == (if (c.MakeBackup? && old(w).backup.Some?) || (c.FillBackup? && old(w).backup.None?)
                      then Error else Success)
      ensures r.Success? ==> done == Then(old(done), c)
    {
      ghost var pre;
      r, pre := Exec(c);
      IdleStays(old(w), pre);
    }

    /** At step `k` nothing ran on the configuration, and the snapshot is its content. */
    twostate predicate FrozenAt(snapshot: Option<Content>, k: nat)
      reads this
    {
      && |old(trace)| <= k < |trace| && !AnyRunning(trace[k]) && trace[k].touched == old(w).touched
      && trace[k].config.Some? && snapshot == Some(trace[k].config.value.content)
    }

    /** First part of the cut-over: stop the old container and journal a snapshot of its data.
        `next` is the in-memory transaction afterwards. */
    method Freeze(txn: Journal, ghost oldId: nat) returns (r: Reply, next: Journal, ghost down: nat)
      requires Valid() && txn.phase.Prepared? && w.journal == Some(txn) && w.backup.None?
      requires Pair(w, Main, Candidate, txn, oldId)
      requires Registered(txn.oldImage)
      modifies this
      ensures Valid() && Onward()
      ensures Mirrors(next, w) && !next.phase.Committed? && next.oldImage == txn.oldImage
        && next.newImage == txn.newImage
      ensures Pair(w, Main, Candidate, txn, oldId)
      ensures r.Success? ==> next.phase.Snapshotted? && w.journal == Some(next) && BackupIntact(w, next.snapshot)
      ensures r.Success? ==> Idle(w) && w.config.Some? && w.config == w.backup
      ensures r.Success? ==> old(w).config.Some? && w.config.value.writers == old(w).config.value.writers
      ensures faults == old(faults) ==> r == (if old(w).config.Some? then Success else Error)
      ensures w.touched == old(w).touched && (w.config.None? <==> old(w).config.None?)
      ensures next.phase.Prepared?
        || (next.phase.Snapshotted? && BackupIntact(w, next.snapshot) && FrozenAt(next.snapshot, down))
      ensures r.Success? ==> done == Freezing(old(done), next)
    {
      next, down := txn, 0;
      Facts();
      r := StopContainer(Main);
      if !r.Success? { return; }
      var snapshot;
      r, snapshot := SnapshotConfig();
      if !r.Success? { return; }
      next := txn.(snapshot := Some(snapshot), phase := Snapshotted);
      Facts();
      down := |trace| - 1;
      label frozen:
      ghost var pre;
      r, pre := WriteTransaction(next);
      IdleStays(old@frozen(w), pre);
    }

    /** Second part of the cut-over: the candidate runs on the live data, and takes the name. */
    method Swap(txn: Journal, ghost oldId: nat) returns (r: Reply, next: Journal)
      requires Valid() && txn.phase.Snapshotted? && txn.snapshot.Some? && w.journal == Some(txn)
      requires Pair(w, Main, Candidate, txn, oldId) && Idle(w) && w.config.Some? && txn.oldImage != txn.newImage
      requires Registered(txn.oldImage)
      modifies this
      ensures Valid() && Onward() && w.backup == old(w).backup
      ensures Mirrors(next, w) && !next.phase.Committed? && next.(phase := Snapshotted) == txn
      ensures Pair(w, Main, Candidate, txn, oldId) || Pair(w, Previous, Candidate, txn, oldId)
        || Pair(w, Previous, Main, txn, oldId)
      ensures r.Success? ==> next.phase.Swapped? && w.journal == Some(next) && Pair(w, Previous, Main, txn, oldId)
      ensures r.Success? ==> w.config.Some? && w.config.value.writers == old(w).config.value.writers + {w.stagedId}
      ensures r.Success? ==> w.stagedId in w.healthy
      ensures faults == old(faults) ==> r.Success? && Running(w.main)
      ensures w.config.Some?
      ensures !next.phase.Prepared?
      ensures r.Success? ==> done == Swapping(Then(Then(old(done), Start(Candidate)), Probe(Candidate)), next)
      ensures r.Success? ==> Running(w.main)
    {
      next := txn;
      ghost var pre;
      r, pre := StartContainer(Candidate);
      IdleStays(old(w), pre);
      if !r.Success? { return; }
      r := WaitHealthy(Candidate);
      if !r.Success? { return; }
      r, next := SwapNames(txn, oldId);
    }

    /** The two renames, and the journal. */
    method SwapNames(txn: Journal, ghost oldId: nat) returns (r: Reply, next: Journal)
      requires Valid() && txn.phase.Snapshotted? && txn.snapshot.Some? && w.journal == Some(txn)
      requires Pair(w, Main, Candidate, txn, oldId) && w.config.Some? && txn.oldImage != txn.newImage
      requires w.stagedId in w.healthy
      requires Registered(txn.oldImage)
      modifies this
      ensures Valid() && Onward() && w.backup == old(w).backup
      ensures w.stagedId == old(w).stagedId && w.healthy == old(w).healthy
      ensures Mirrors(next, w) && !next.phase.Committed? && !next.phase.Prepared? && next.(phase := Snapshotted) == txn
      ensures Pair(w, Main, Candidate, txn, oldId) || Pair(w, Previous, Candidate, txn, oldId)
        || Pair(w, Previous, Main, txn, oldId)
      ensures r.Success? ==> next.phase.Swapped? && w.journal == Some(next) && Pair(w, Previous, Main, txn, oldId)
      ensures w.config.Some? && w.config.value.writers == old(w).config.value.writers
      ensures faults == old(faults) && Running(old(w).candidate) ==> r.Success? && Running(w.main)
      ensures r.Success? ==> done == Swapping(old(done), next)
      ensures r.Success? ==> Running(w.main)
    {
      next := txn;
      ghost var pre;
      r, pre := RenameContainer(Main, Previous);
      if !r.Success? { return; }
      r, pre := RenameContainer(Candidate, Main);
      if !r.Success? { return; }
      r, next := Conclude(txn, oldId);
    }

    /** The end of the cut-over: journal the swap and look at the result once more. */
    method Conclude(txn: Journal, ghost oldId: nat) returns (r: Reply, next: Journal)
      requires Valid() && txn.phase.Snapshotted? && txn.snapshot.Some? && w.journal == Some(txn)
      requires Pair(w, Previous, Main, txn, oldId) && w.stagedId in w.healthy
      requires Registered(txn.oldImage)
      modifies this
      ensures Valid() && Onward() && w.backup == old(w).backup
      ensures w.stagedId == old(w).stagedId && w.healthy == old(w).healthy
      ensures Mirrors(next, w) && next == txn.(phase := Swapped)
      ensures Pair(w, Previous, Main, txn, oldId)
      ensures old(w).config.Some? ==> w.config.Some? && w.config.value.writers == old(w).config.value.writers
      ensures r.Success? ==> w.journal == Some(next)
      ensures faults == old(faults) && Running(old(w).main) ==> r.Success? && Running(w.main)
      ensures r.Success? ==> done == Looked(Then(old(done), Command.WriteJournal(next)))
      ensures r.Success? ==> Running(w.main)
    {
      Facts();
      next := txn.(phase := Swapped);
      ghost var pre;
      r, pre := WriteTransaction(next);
      if !r.Success? { return; }
      r := Look();
      if r.Success? && !w.main.value.running {
        r := Error;
      }
    }

    /** The critical section of the upgrade with its `fail` closure: any error rolls back
        with the in-memory transaction reached so far. */
    method CutOver(txn: Journal, ghost oldId: nat) returns (r: Reply, ghost back: nat)
      requires Valid() && txn.phase.Prepared? && w.journal == Some(txn) && w.backup.None?
      requires Pair(w, Main, Candidate, txn, oldId) && txn.oldImage != txn.newImage
      requires Registered(txn.oldImage)
      modifies this
      ensures Valid() && Onward()
      ensures r.Success? ==> SwappedWith(w, txn.oldImage, txn.newImage, oldId)
      ensures r.Success? ==> old(w).config.Some? && w.config.value.writers == old(w).config.value.writers + {w.stagedId}
      ensures !r.Success? ==>
                || (RolledBack(w, txn.oldImage) && w.main.value.id == oldId)
                || (w.journal.Some? && SameUpgrade(w.journal.value, txn) && OldExists(w, txn))
      ensures WayBack(w)
      ensures faults == old(faults) ==> r == (if old(w).config.Some? then Success else Error)
      ensures r.Error? && faults <= old(faults) + 1 && old(w).config.Some? ==>
        RolledBack(w, txn.oldImage) && w.main.value.id == oldId && Alive()
      ensures w.journal.None? ==>
        |old(trace)| > 0 && StartedAfter(back) && AsWhenStopped(trace, |old(trace)| - 1, back)
      ensures r.Success? ==> Running(w.main)
      ensures r.Success? ==> done == CuttingOver(old(done), w.journal.value)
    {
      back := 0;
      Facts();
      ghost var from := |trace| - 1;
      var next;
      ghost var down;
      r, next, down := Attempt(txn, oldId);
      if r.Error? {
        r, back := RecoverTransaction(next);
        if w.journal.None? {
          BackAsStopped(next, from, down, back);
        }
        r := if r.Crash? then Crash else Error;
      }
    }

    /** The cut-over without its compensation, and what a failure leaves for it. */
    method Attempt(txn: Journal, ghost oldId: nat) returns (r: Reply, next: Journal, ghost down: nat)
      requires Valid() && txn.phase.Prepared? && w.journal == Some(txn) && w.backup.None?
      requires Pair(w, Main, Candidate, txn, oldId) && txn.oldImage != txn.newImage
      requires Registered(txn.oldImage)
      modifies this
      ensures Valid() && Onward()
      ensures r.Success? ==> SwappedWith(w, txn.oldImage, txn.newImage, oldId)
      ensures r.Success? ==> old(w).config.Some? && w.config.value.writers == old(w).config.value.writers + {w.stagedId}
      ensures !r.Success? ==> w.journal.Some? && SameUpgrade(w.journal.value, txn) && Mirrors(next, w)
      ensures !r.Success? ==> OldExists(w, next) && OldOf(w, next).value.id == oldId && next.oldImage == txn.oldImage
      ensures !r.Success? && !next.phase.Prepared? ==> BackupIntact(w, next.snapshot)
      ensures !r.Success? ==> (w.config.None? <==> old(w).config.None?)
      ensures if next.phase.Prepared? then w.touched == old(w).touched else FrozenAt(next.snapshot, down)
      ensures faults == old(faults) ==> r == (if old(w).config.Some? then Success else Error)
      ensures r.Success? ==> Running(w.main)
      ensures r.Success? ==> done == CuttingOver(old(done), w.journal.value)
    {
      next, down := txn, 0;
      r := Look();
      if !r.Success? { return; }
      r, next, down := Freeze(txn, oldId);
      if !r.Success? { return; }
      r, next := Swap(next, oldId);
      BackupFacts();
    }

    /** The rollback started the old container on what it was stopped on. */
    lemma BackAsStopped(next: Journal, from: nat, down: nat, back: nat)
      requires Valid() && from <= back < |trace| && !AnyRunning(trace[back]) && trace[back].config.Some?
      requires next.phase.Prepared? ==> trace[back].touched == trace[from].touched
      requires !next.phase.Prepared? ==>
        && from <= down < |trace| && !AnyRunning(trace[down]) && trace[down].touched == trace[from].touched
        && trace[down].config.Some? && trace[down].config.value.content == trace[back].config.value.content
      ensures AsWhenStopped(trace, from, back)
    {
      assert Key(w);
      ghost var kept := if next.phase.Prepared? then back else down;
      UntouchedBetween(trace, from, kept);
      forall s: nat | s <= back && FirstDown(trace, from, s)
        ensures trace[s].config.Some? && trace[s].config.value.content == trace[back].config.value.content
      {
        assert s <= kept && KeepsConfig(trace[s], trace[kept]);
      }
    }

    lemma BackupFacts()
      requires Valid()
      ensures Pending(w) && w.backup.Some? ==> w.stagedId !in w.backup.value.writers
      ensures Pending(w) && w.window.Closed? && !w.journal.value.phase.Prepared? ==>
        BackupIntact(w, w.journal.value.snapshot)
    {
      Facts();
    }

    /** Create the candidate next to the running container and journal the intent. */
    method StageCandidate(image: Image, previousImage: Image) returns (r: Reply)
      requires Valid() && w.journal.None? && image != previousImage
      requires Registered(previousImage)
      modifies this
      ensures Valid() && Onward()
      ensures Aged(old(w).main, w.main)
      ensures r.Success? ==> w.journal == Some(Journal(previousImage, image, Prepared, None)) && w.backup.None?
      ensures r.Success? ==>
        w.main.Some? && Pair(w, Main, Candidate, w.journal.value, w.main.value.id) && w.config.Some?
      ensures r.Success? ==> old(w).config.Some? && w.config.value.writers == old(w).config.value.writers
      ensures r.Success? ==> old(w).candidate.None? && old(w).previous.None?
      ensures !r.Success? ==> w.journal.None? || w.journal == Some(Journal(previousImage, image, Prepared, None))
      ensures faults == old(faults) ==>
                r == (if Has(old(w).main, previousImage) && old(w).main.value.running
                         && old(w).candidate.None? && old(w).previous.None? then Success else Error)
      ensures w.touched == old(w).touched && (steady ==> w.main == old(w).main)
      ensures r.Success? ==> done == Preparing(Twice(Twice(old(done))), image, w.journal.value)
    {
      Facts();
      var info;
      r, info := VerifyContainer(Main, previousImage);
      if !r.Success? { return; }
      if !info.value.running { return Error; }
      r := Look();
      if !r.Success? { return; }
      if w.candidate.Some? { return Error; }
      r := Look();
      if !r.Success? { return; }
      if w.previous.Some? { return Error; }
      r := Look();
      if !r.Success? { return; }
      r := CreateAndJournal(image, previousImage);
    }

    method CreateAndJournal(image: Image, previousImage: Image) returns (r: Reply)
      requires Valid() && w.journal.None? && image != previousImage
      requires Has(w.main, previousImage) && w.previous.None? && w.config.Some?
      requires Registered(previousImage)
      modifies this
      ensures Valid() && Onward()
      ensures Aged(old(w).main, w.main)
      ensures r.Success? ==> w.journal == Some(Journal(previousImage, image, Prepared, None)) && w.backup.None?
      ensures r.Success? ==> Pair(w, Main, Candidate, w.journal.value, w.main.value.id) && w.config.Some?
      ensures r.Success? ==> w.config.value.writers == old(w).config.value.writers
      ensures !r.Success? ==> w.journal.None? || w.journal == Some(Journal(previousImage, image, Prepared, None))
      ensures faults == old(faults) ==> r == (if old(w).candidate.None? then Success else Error)
      ensures w.touched == old(w).touched && (steady ==> w.main == old(w).main)
      ensures r.Success? ==> done == Preparing(old(done), image, w.journal.value)
    {
      ghost var pre;
      Facts();
      r, pre := CreateContainer(Candidate, image);
      if !r.Success? { return; }
      r := JournalOrDrop(image, previousImage);
    }

    /** The new candidate is inspected and journaled; when that fails, and nothing else does, it is removed again. */
    method JournalOrDrop(image: Image, previousImage: Image) returns (r: Reply)
      requires Valid() && w.journal.None? && image != previousImage && OursAt(w, Candidate) && Has(w.candidate, image)
      requires MayWriteJournal(Journal(previousImage, image, Prepared, None), w) && w.backup.None?
      requires Pair(w, Main, Candidate, Journal(previousImage, image, Prepared, None), w.main.value.id)
      requires Registered(previousImage)
      modifies this
      ensures Valid() && Onward()
      ensures Aged(old(w).main, w.main) && w.touched == old(w).touched && (steady ==> w.main == old(w).main)
      ensures r.Success? ==> w.journal == Some(Journal(previousImage, image, Prepared, None)) && w.backup.None?
      ensures r.Success? ==> Pair(w, Main, Candidate, w.journal.value, w.main.value.id) && w.config.Some?
      ensures r.Success? ==> w.config.value.writers == old(w).config.value.writers
      ensures !r.Success? ==> w.journal.None? || w.journal == Some(Journal(previousImage, image, Prepared, None))
      ensures faults == old(faults) ==> r.Success?
      ensures r.Error? && faults <= old(faults) + 1 ==> w.candidate.None?
      ensures r.Success? ==> done == Then(Looked(old(done)), Command.WriteJournal(w.journal.value))
    {
      r := TryJournal(image, previousImage);
      if r.Error? {
        ghost var pre;
        r, pre := RemoveContainer(Candidate, true);
        r := if r.Crash? then Crash else Error;
      }
    }

    method TryJournal(image: Image, previousImage: Image) returns (r: Reply)
      requires Valid() && w.journal.None? && image != previousImage && OursAt(w, Candidate) && Has(w.candidate, image)
      requires MayWriteJournal(Journal(previousImage, image, Prepared, None), w) && w.backup.None?
      requires Pair(w, Main, Candidate, Journal(previousImage, image, Prepared, None), w.main.value.id)
      requires Registered(previousImage)
      modifies this
      ensures Valid() && Onward()
      ensures Aged(old(w).main, w.main) && w.touched == old(w).touched && (steady ==> w.main == old(w).main)
      ensures r.Success? ==> w.journal == Some(Journal(previousImage, image, Prepared, None)) && w.backup.None?
      ensures r.Success? ==> Pair(w, Main, Candidate, w.journal.value, w.main.value.id) && w.config.Some?
      ensures r.Success? ==> w.config.value.writers == old(w).config.value.writers
      ensures !r.Success? ==> w.journal.None? || w.journal == Some(Journal(previousImage, image, Prepared, None))
      ensures faults == old(faults) ==> r.Success?
      ensures OursAt(w, Candidate) && Has(w.candidate, image)
        && (disciplined ==> KeepsAgreement(Remove(Candidate, true), w))
      ensures r.Success? ==> done == Then(Looked(old(done)), Command.WriteJournal(w.journal.value))
    {
      ghost var pre;
      var info, j := None, Journal(previousImage, image, Prepared, None);
      r, info := VerifyContainer(Candidate, image);
      if !r.Success? { return; }
      DisturbanceKeepsPermission(Command.WriteJournal(j), old(w), w);
      r, pre := WriteTransaction(j);
    }

    /** upgradeFrigate, operation "docker.module.upgrade". */
    method Upgrade(image: Image, previousImage: Image) returns (r: Reply, ghost back: nat)
      requires Valid() && Registered(previousImage)
      modifies this
      ensures Valid() && Onward()
      ensures r.Success? ==>
        w.main.Some? && w.previous.Some? && SwappedWith(w, previousImage, image, w.previous.value.id)
      ensures r.Success? ==> old(w).main.Some? && w.previous.value.id == old(w).main.value.id
      ensures r.Success? && old(w).journal.None? ==> old(w).candidate.None? && old(w).previous.None?
      ensures !r.Success? && old(w).journal.None? && w.journal.None? ==> SameIdentity(old(w).main, w.main)
      ensures WayBack(w)
      ensures faults == old(faults) && old(w).journal.None? ==>
                r == (if image != previousImage && Has(old(w).main, previousImage) && old(w).main.value.running
                         && old(w).candidate.None? && old(w).previous.None? then Success else Error)
      ensures old(w).journal.None? && w.journal.None? && w.touched != old(w).touched ==>
        |old(trace)| > 0 && StartedAfter(back) && AsWhenStopped(trace, |old(trace)| - 1, back)
      ensures steady && old(w).journal.None? && Running(old(w).main) && r.Error? && faults <= old(faults) + 1 ==>
        Running(w.main) && SameIdentity(old(w).main, w.main)
      ensures faults == old(faults) && image != previousImage && old(w).journal.Some? ==>
        CommitEnabled(previousImage, old(w).journal.value) ==>
          r == (if Has(old(w).main, previousImage) && old(w).main.value.running then Success else Error)
      ensures image != previousImage && faults == old(faults) && old(TakesBack(w, previousImage)) ==>
        r.Error? && RolledBack(w, previousImage) && StartedFor(old(w).journal.value, back)
      ensures old(w).journal.Some? && Disagrees(old(w).journal.value, previousImage) ==>
        !r.Success? && Disturbs(old(w), w)
      ensures r.Success? ==> Running(w.main)
      ensures r.Success? && old(w).journal.None? ==>
        done == Upgrading(Looked(old(done)), previousImage, image, w.journal.value)
      ensures image == previousImage ==> !r.Success? && (faults == old(faults) ==> r.Error?)
      ensures old(w).journal.Some? && !CommitEnabled(previousImage, old(w).journal.value) ==>
        !r.Success? && (faults == old(faults) ==> r.Error?)
    {
      back := 0;
      Ended();
      ghost var from := |trace| - 1;
      r := Look();
      if !r.Success? { return; }
      if image == previousImage { return Error, back; }
      if w.journal.Some? {
        DisturbanceKeepsRestorable(old(w), w, w.journal.value);
        r, back := UpgradePending(image, previousImage);
        return;
      }
      r, back := StageAndCutOver(image, previousImage, from);
    }

    /** An upgrade over the transaction of an earlier one. */
    method UpgradePending(image: Image, previousImage: Image) returns (r: Reply, ghost back: nat)
      requires Valid() && Registered(previousImage) && w.journal.Some? && image != previousImage
      modifies this
      ensures Valid() && Onward()
      ensures r.Success? ==>
        w.main.Some? && w.previous.Some? && SwappedWith(w, previousImage, image, w.previous.value.id)
      ensures r.Success? ==> old(w).main.Some? && w.previous.value.id == old(w).main.value.id
      ensures faults == old(faults) && old(TakesBack(w, previousImage)) ==>
        r.Error? && RolledBack(w, previousImage) && StartedFor(old(w).journal.value, back)
      ensures Disagrees(old(w).journal.value, previousImage) ==> !r.Success? && w == old(w)
      ensures r.Success? ==> Running(w.main)
      ensures faults == old(faults) && CommitEnabled(previousImage, old(w).journal.value) ==>
        r == (if Has(old(w).main, previousImage) && old(w).main.value.running then Success else Error)
      ensures !CommitEnabled(previousImage, old(w).journal.value) ==>
        !r.Success? && (faults == old(faults) ==> r.Error?)
    {
      r, back := ResolvePending(previousImage);
      if !r.Success? { return; }
      Facts();
      r, back := StageAndCutOver(image, previousImage, |trace| - 1);
    }

    /** An upgrade from `image` rolls the pending transaction back, and does nothing else. */
    predicate TakesBack(w: World, image: Image) {
      && w.journal.Some? && image == w.journal.value.oldImage && !CommitEnabled(image, w.journal.value)
      && Restorable(w, w.journal.value)
    }

    /** An upgrade from `image` refuses this transaction. */
    predicate Disagrees(j: Journal, image: Image) {
      image != j.oldImage && !CommitEnabled(image, j)
    }

    /** The upgrade itself, with no transaction pending. */
    method StageAndCutOver(image: Image, previousImage: Image, ghost from: nat)
      returns (r: Reply, ghost back: nat)
      requires Valid() && Registered(previousImage) && w.journal.None? && image != previousImage
      requires from < |trace| && trace[from].touched == w.touched
      modifies this
      ensures Valid() && Onward()
      ensures r.Success? ==>
        w.main.Some? && w.previous.Some? && SwappedWith(w, previousImage, image, w.previous.value.id)
      ensures r.Success? ==> old(w).main.Some? && w.previous.value.id == old(w).main.value.id
      ensures r.Success? ==> old(w).candidate.None? && old(w).previous.None?
      ensures !r.Success? && w.journal.None? ==> SameIdentity(old(w).main, w.main)
      ensures WayBack(w)
      ensures faults == old(faults) ==>
                r == (if Has(old(w).main, previousImage) && old(w).main.value.running
                         && old(w).candidate.None? && old(w).previous.None? then Success else Error)
      ensures w.journal.None? && w.touched != old(w).touched ==>
        StartedAfter(back) && AsWhenStopped(trace, from, back)
      ensures steady && Running(old(w).main) && r.Error? && faults <= old(faults) + 1 ==>
        Running(w.main) && SameIdentity(old(w).main, w.main)
      ensures r.Success? ==> Running(w.main)
      ensures r.Success? ==> done == Upgrading(old(done), previousImage, image, w.journal.value)
    {
      back := 0;
      r := StageCandidate(image, previousImage);
      if !r.Success? { return; }
      Facts();
      ghost var cut := |trace| - 1;
      r, back := CutOver(w.journal.value, w.main.value.id);
      if w.journal.None? {
        StoppedEarlier(from, cut, back);
      }
    }

    lemma StoppedEarlier(from: nat, cut: nat, back: nat)
      requires Valid() && from <= cut <= back < |trace| && trace[from].touched == trace[cut].touched
      requires AsWhenStopped(trace, cut, back)
      ensures AsWhenStopped(trace, from, back)
    {
      assert Key(w);
      UntouchedBetween(trace, from, cut);
      forall s: nat | s <= back && FirstDown(trace, from, s)
        ensures trace[back].config.Some? && trace[s].config.Some?
        ensures trace[back].config.value.content == trace[s].config.value.content
      {
        if s < cut {
          assert KeepsConfig(trace[s], trace[cut]) && FirstDown(trace, cut, cut);
        } else {
          assert FirstDown(trace, cut, s);
        }
      }
    }

    /** What an upgrade does about the transaction of an earlier one: finalize it, or roll
        it back and stop there, or refuse. */
    method ResolvePending(previousImage: Image) returns (r: Reply, ghost back: nat)
      requires Valid() && Registered(previousImage) && w.journal.Some?
      modifies this
      ensures Valid() && Onward()
      ensures r.Success? ==> w.journal.None? && old(w).journal.value.newImage == previousImage
      ensures r.Success? ==> SameIdentity(old(w).main, w.main)
      ensures faults == old(faults) && CommitEnabled(previousImage, old(w).journal.value) ==>
        r == (if Has(old(w).main, previousImage) && old(w).main.value.running then Success else Error)
      ensures faults == old(faults) && old(TakesBack(w, previousImage)) ==>
        r.Error? && RolledBack(w, previousImage) && StartedFor(old(w).journal.value, back)
      ensures Disagrees(old(w).journal.value, previousImage) ==> r.Error? && w == old(w)
      ensures r.Success? ==> w.candidate.None? && w.previous.None? && (faults == old(faults) ==> w.main == old(w).main)
      ensures !CommitEnabled(previousImage, old(w).journal.value) ==>
        !r.Success? && (faults == old(faults) ==> r.Error?)
    {
      back := 0;
      var txn := w.journal.value;
      JournalMirrors();
      if (txn.phase.Committed? || txn.phase.Swapped?) && previousImage == txn.newImage {
        r := CommitUpgrade(txn);
        if !r.Success? { return; }
        r := ClearTransaction();
      } else if previousImage == txn.oldImage {
        r, back := RecoverTransaction(txn);
        r := if r.Crash? then Crash else Error;
      } else {
        r := Error;
      }
    }

    lemma JournalMirrors()
      requires Valid() && w.journal.Some?
      ensures Mirrors(w.journal.value, w)
    {
      Facts();
    }

    // ------------------------------------- commit and rollback as requested by Core

    /** upgradeFrigate, operations "...upgrade.commit" and "...upgrade.rollback". */
    method FinishUpgrade(image: Image, previousImage: Image, commit: bool) returns (r: Reply, ghost back: nat)
      requires Valid()
      requires disciplined && commit ==> w.row.Some? && w.row.value.image == image
      modifies this
      ensures Valid() && Onward()
      ensures !Names(old(w), image, previousImage) ==> !r.Success? && Disturbs(old(w), w)
      ensures r.Success? && commit ==> CommittedWith(w, old(w).journal.value)
      ensures r.Success? && !commit ==>
        !old(w).journal.value.phase.Committed? && RolledBack(w, previousImage) && Alive()
      ensures faults == old(faults) ==>
        r == (if old(Finishable(w, image, previousImage, commit)) then Success else Error)
      ensures !commit && old(w).journal.Some? && w.journal.None? ==> StartedFor(old(w).journal.value, back)
      ensures r.Success? && commit ==>
        done == Committing(Then(Twice(old(done)), Probe(Main)), old(w).previous.Some?, old(w).journal.value)
    {
      back := 0;
      r := Look();
      if !r.Success? { return; }
      if w.journal.None? || w.journal.value.newImage != image || w.journal.value.oldImage != previousImage {
        return Error, back;
      }
      JournalMirrors();
      DisturbanceKeepsRestorable(old(w), w, w.journal.value);
      if commit {
        r := CommitUpgrade(w.journal.value);
      } else if w.journal.value.phase.Committed? {
        r := Error;
      } else {
        r, back := RecoverTransaction(w.journal.value);
      }
    }

    /** recoverFrigateRegistered: the journal is reconciled with the registered image. */
    method RecoverRegistered(image: Image) returns (r: Reply)
      requires Valid()
      requires disciplined ==> w.row.Some? && w.row.value.image == image
      modifies this
      ensures Valid() && Onward()
      ensures old(events) != [] ==> |events| < |old(events)|
      ensures r.Success? ==> Has(w.main, image)
      ensures r.Success? && old(w).journal.Some? ==> Alive()
      ensures old(w).journal.None? && steady ==> SameContainers(old(w), w)
      ensures r.Success? && old(w).journal.Some? ==> old(Recoverable(w, image)) && Settled(w, image)
      ensures old(w).journal.None? ==> Disturbs(old(w), w)
      ensures old(w).journal.Some? && !r.Success? ==> w.journal.Some? || (Settled(w, image) && Alive())
      ensures faults == old(faults) && old(w).journal.Some? ==>
                r == (if old(Recoverable(w, image)) then Success else Error)
      ensures faults == old(faults) && r.Success? && old(w).journal.Some? ==> Running(w.main)
      ensures WayBack(w)
      ensures faults == old(faults) && old(w).journal.None? ==>
        r == (if Has(old(w).main, image) then Success else Error)
      ensures r.Success? && old(w).journal.None? ==> done == Looked(Twice(old(done)))
      ensures r.Success? && old(w).journal.Some? && CommitEnabled(image, old(w).journal.value) ==>
        done == Committing(Then(Twice(old(done)), Probe(Main)), old(w).previous.Some?, old(w).journal.value)
    {
      r := Look();
      if !r.Success? { return; }
      if w.journal.None? {
        r := Confirm(image);
        return;
      }
      DisturbanceKeepsRecoverable(old(w), w, image);
      r := Reconcile(image);
    }

    /** With no transaction the registered container has to be there, and that is all. */
    method Confirm(image: Image) returns (r: Reply)
      requires Valid()
      modifies this
      ensures Valid() && Onward() && Disturbs(old(w), w)
      ensures old(events) != [] ==> |events| < |old(events)|
      ensures r.Success? ==> Has(w.main, image)
      ensures faults == old(faults) || steady ==> SameContainers(old(w), w)
      ensures faults == old(faults) ==> r == (if Has(old(w).main, image) then Success else Error)
      ensures r.Success? ==> done == Twice(old(done))
    {
      var info;
      r, info := VerifyContainer(Main, image);
      if !r.Success? { return; }
      r := Look();
    }

    /** The choice between commit and rollback. */
    method Reconcile(image: Image) returns (r: Reply)
      requires Valid() && w.journal.Some?
      requires disciplined ==> w.row.Some? && w.row.value.image == image
      modifies this
      ensures Valid() && Onward()
      ensures r.Success? ==> Has(w.main, image) && Alive() && old(Recoverable(w, image)) && Settled(w, image)
      ensures !r.Success? ==> w.journal.Some? || (Settled(w, image) && Alive())
      ensures faults == old(faults) ==>
                r == (if old(Recoverable(w, image)) then Success else Error) && (r.Success? ==> Running(w.main))
      ensures r.Success? && CommitEnabled(image, old(w).journal.value) ==>
        done == Committing(Then(Looked(old(done)), Probe(Main)), old(w).previous.Some?, old(w).journal.value)
    {
      var txn := w.journal.value;
      JournalMirrors();
      if CommitEnabled(image, txn) {
        r := CommitUpgrade(txn);
      } else if RollbackEnabled(image, txn) {
        ghost var back;
        r, back := RecoverTransaction(txn);
      } else {
        r := Error;
      }
    }

    /** Recovery converges. Repeated over any schedule of failures, crashes and exits it ends
        settled, with a healthy container that runs unless it exited by itself; or the schedule
        interrupted it inside one of the two windows; or the container to be committed is down;
        or the row is the mere intent to install another image than the committed one. */
    method RecoverUntilSettled(image: Image) returns (settled: bool)
      requires Valid() && disciplined && w.journal.Some? && w.row.Some? && w.row.value.image == image
      modifies this
      ensures Valid() && Onward()
      ensures settled ==> Settled(w, image) && Alive()
      ensures !settled ==> Stuck(w, old(w).row.value)
      ensures faults == old(faults) ==> (settled <==> old(Recoverable(w, image))) && (settled ==> Running(w.main))
      ensures faults == old(faults) && !settled ==> w == old(w)
    {
      settled := false;
      while !settled
        invariant Valid() && Onward()
        invariant w.journal.Some? || (Settled(w, image) && Alive())
        invariant settled ==> Settled(w, image) && Alive()
        invariant faults == old(faults) && !settled ==> w == old(w)
        invariant faults == old(faults) && settled ==> old(Recoverable(w, image)) && Running(w.main)
        decreases |events|, if settled then 0 else 1
      {
        if w.journal.Some? && !Recoverable(w, image) {
          StuckOtherwise(image);
          return false;
        }
        var r := RecoverRegistered(image);
        settled := r.Success?;
      }
    }

    lemma StuckOtherwise(image: Image)
      requires Valid() && disciplined && w.journal.Some? && w.row.Some? && w.row.value.image == image
      ensures Recoverable(w, image) || Stuck(w, w.row.value)
    {
      Facts();
      RecoverableExactly(w);
    }

    // ------------------------------------------------ installation and lifecycle

    /** The guards of validateFrigateRequest on the journal. */
    predicate InstallAllowed(image: Image)
      reads this
    {
      w.journal.None? || (w.journal.value.phase.Committed? && w.journal.value.newImage == image)
    }

    predicate LifecycleAllowed()
      reads this
    {
      w.journal.None? || w.journal.value.phase.Committed?
    }

    /** installFrigate, behind its guard. */
    method Install(image: Image) returns (r: Reply, ghost first: nat)
      requires Valid()
      requires disciplined ==> w.row.Some? && w.row.value.image == image
      modifies this
      ensures Valid() && Onward()
      ensures w.journal == old(w).journal && w.backup == old(w).backup && w.failed == old(w).failed
      ensures r.Success? ==> Has(w.main, image) && HealthyMain(w)
      ensures r.Success? ==> old(InstallAllowed(image))
      ensures !old(InstallAllowed(image)) ==> Disturbs(old(w), w)
      ensures old(w).main.Some? ==> SameIdentity(old(w).main, w.main)
      ensures r.Success? && old(w).main.None? && old(w).config.None? ==> FreshAt(first)
      ensures r.Success? && old(w).config.Some? ==>
        w.config.Some? && w.config.value.writers == old(w).config.value.writers + {w.main.value.id}
      ensures faults == old(faults) ==>
        r == (if old(InstallAllowed(image)) && (old(w).main.None? || (Has(old(w).main, image) && old(w).config.Some?))
              then Success else Error)
      ensures faults == old(faults) && r.Success? ==> Running(w.main)
      ensures r.Success? && old(w).main.Some? ==> done == Looked(Starting(Looked(Twice(old(done)))))
      ensures r.Success? && old(w).main.None? ==> done == Installing(Twice(old(done)), old(w).config.None?, image)
    {
      first := 0;
      r := Look();
      if !r.Success? { return; }
      if !InstallAllowed(image) { return Error, first; }
      r := Look();
      if !r.Success? { return; }
      if w.main.Some? {
        r := Resume(image);
      } else {
        r, first := InstallFresh(image);
      }
    }

    /** At step `k` the configuration directory is the initial one, and nothing has run on it. */
    twostate predicate FreshAt(k: nat)
      reads this
    {
      |old(trace)| <= k < |trace| && trace[k].config == Some(Tree(FirstConfig(), {})) && trace[k].main.None?
    }

    /** An install over an existing container: it must be the same image, and is started. */
    method Resume(image: Image) returns (r: Reply)
      requires Valid() && InstallAllowed(image) && w.main.Some?
      modifies this
      ensures Valid() && Onward()
      ensures w.journal == old(w).journal && w.backup == old(w).backup && w.failed == old(w).failed
      ensures SameIdentity(old(w).main, w.main)
      ensures r.Success? ==> Has(w.main, image) && HealthyMain(w)
      ensures r.Success? ==>
        && old(w).config.Some? && w.config.Some?
        && w.config.value.writers == old(w).config.value.writers + {w.main.value.id}
      ensures faults == old(faults) ==>
        r == (if Has(old(w).main, image) && old(w).config.Some? then Success else Error)
      ensures faults == old(faults) && r.Success? ==> Running(w.main)
      ensures r.Success? ==> done == Looked(Starting(Looked(old(done))))
    {
      if !w.main.value.ours { return Error; }
      var info;
      r, info := VerifyContainer(Main, image);
      if !r.Success? { return; }
      r := StartAndCheck();
      if !r.Success? { return; }
      r := Look();
    }

    /** docker start of the module's container while no upgrade is pending. */
    method StartMain() returns (r: Reply)
      requires Valid() && LifecycleAllowed() && OursAt(w, Main)
      modifies this
      ensures Valid() && Onward()
      ensures w.journal == old(w).journal && w.backup == old(w).backup && w.failed == old(w).failed
      ensures SameIdentity(old(w).main, w.main) && OursAt(w, Main)
      ensures r.Success? ==>
        && old(w).config.Some? && w.config.Some?
        && w.config.value.writers == old(w).config.value.writers + {w.main.value.id}
      ensures faults == old(faults) ==> r == (if old(w).config.Some? then Success else Error)
      ensures faults == old(faults) && r.Success? ==> Running(w.main)
      ensures r.Success? ==> done == Then(old(done), Start(Main))
    {
      Facts();
      ghost var pre;
      r, pre := StartContainer(Main);
    }

    /** The starting half of start and restart. */
    method StartAndCheck() returns (r: Reply)
      requires Valid() && LifecycleAllowed() && OursAt(w, Main)
      modifies this
      ensures Valid() && Onward()
      ensures w.journal == old(w).journal && w.backup == old(w).backup && w.failed == old(w).failed
      ensures SameIdentity(old(w).main, w.main) && OursAt(w, Main)
      ensures r.Success? ==> HealthyMain(w)
      ensures r.Success? ==>
        && old(w).config.Some? && w.config.Some?
        && w.config.value.writers == old(w).config.value.writers + {w.main.value.id}
      ensures faults == old(faults) ==> r == (if old(w).config.Some? then Success else Error)
      ensures faults == old(faults) && r.Success? ==> Running(w.main)
      ensures r.Success? ==> done == Starting(old(done))
    {
      r := StartMain();
      if !r.Success? { return; }
      r := WaitHealthy(Main);
    }

    /** First installation: storage, container, start, health. */
    method InstallFresh(image: Image) returns (r: Reply, ghost first: nat)
      requires Valid() && InstallAllowed(image) && w.main.None?
      requires disciplined ==> w.row.Some? && w.row.value.image == image
      modifies this
      ensures Valid() && Onward()
      ensures w.journal == old(w).journal && w.backup == old(w).backup && w.failed == old(w).failed
      ensures r.Success? ==> Has(w.main, image) && HealthyMain(w)
      ensures r.Success? && old(w).config.None? ==> FreshAt(first)
      ensures r.Success? && old(w).config.Some? ==>
        w.config.Some? && w.config.value.writers == old(w).config.value.writers + {w.main.value.id}
      ensures faults == old(faults) ==> r.Success? && Running(w.main)
      ensures r.Success? ==> done == Installing(old(done), old(w).config.None?, image)
    {
      r, first := ProvideStorage();
      if !r.Success? { return; }
      r := Look();
      if !r.Success? { return; }
      r := CreateAndStart(image);
    }

    /** An existing configuration directory is left alone. */
    method ProvideStorage() returns (r: Reply, ghost first: nat)
      requires Valid() && w.main.None? && !Pending(w)
      modifies this
      ensures Valid() && Onward() && w.main.None?
      ensures w.journal == old(w).journal && w.backup == old(w).backup && w.failed == old(w).failed
      ensures r.Success? ==> w.config.Some?
      ensures r.Success? && old(w).config.None? ==>
        FreshAt(first) && w.config == Some(Tree(FirstConfig(), {}))
      ensures old(w).config.Some? ==> w.config.Some? && w.config.value.writers == old(w).config.value.writers
      ensures faults == old(faults) ==> r.Success?
      ensures r.Success? ==>
        done == if old(w).config.None? then Then(Looked(old(done)), MakeStorage(FirstConfig())) else Looked(old(done))
    {
      first := 0;
      ghost var pre;
      r := Look();
      if !r.Success? { return; }
      if w.config.None? {
        r, pre := Exec(MakeStorage(FirstConfig()));
        if !r.Success? { return; }
        first := |trace| - 1;
      }
    }

    method CreateAndStart(image: Image) returns (r: Reply)
      requires Valid() && InstallAllowed(image) && w.config.Some?
      requires disciplined ==> w.row.Some? && w.row.value.image == image
      modifies this
      ensures Valid() && Onward()
      ensures w.journal == old(w).journal && w.backup == old(w).backup && w.failed == old(w).failed
      ensures r.Success? ==> Has(w.main, image) && HealthyMain(w)
      ensures r.Success? ==>
        w.config.Some? && w.config.value.writers == old(w).config.value.writers + {w.main.value.id}
      ensures faults == old(faults) && old(w).main.None? ==> r.Success? && Running(w.main)
      ensures r.Success? ==> done == Creating(old(done), image)
    {
      ghost var pre;
      r, pre := CreateContainer(Main, image);
      if !r.Success? { return; }
      r := ProveOrDrop(image);
      if !r.Success? { return; }
      r := Look();
    }

    /** The new container is started and checked; when that fails, and nothing else does, it is removed again. */
    method ProveOrDrop(image: Image) returns (r: Reply)
      requires Valid() && InstallAllowed(image) && Has(w.main, image) && w.config.Some?
      requires disciplined ==> w.row.Some? && w.row.value.image == image
      modifies this
      ensures Valid() && Onward()
      ensures w.journal == old(w).journal && w.backup == old(w).backup && w.failed == old(w).failed
      ensures r.Success? ==> Has(w.main, image) && HealthyMain(w)
      ensures r.Success? ==>
        w.config.Some? && w.config.value.writers == old(w).config.value.writers + {w.main.value.id}
      ensures r.Error? && faults <= old(faults) + 1 ==> w.main.None?
      ensures faults == old(faults) ==> r.Success? && Running(w.main)
      ensures r.Success? ==> done == Starting(Looked(old(done)))
    {
      r := TryMain(image);
      if r.Error? {
        ghost var pre;
        r, pre := RemoveContainer(Main, true);
        r := if r.Crash? then Crash else Error;
      }
    }

    /** The new container is inspected, started and checked. */
    method TryMain(image: Image) returns (r: Reply)
      requires Valid() && LifecycleAllowed() && Has(w.main, image) && w.config.Some?
      modifies this
      ensures Valid() && Onward()
      ensures w.journal == old(w).journal && w.backup == old(w).backup && w.failed == old(w).failed
      ensures Has(w.main, image) && (r.Success? ==> HealthyMain(w))
      ensures r.Success? ==>
        w.config.Some? && w.config.value.writers == old(w).config.value.writers + {w.main.value.id}
      ensures faults == old(faults) ==> r.Success? && Running(w.main)
      ensures r.Success? ==> done == Starting(Looked(old(done)))
    {
      var info;
      r, info := VerifyContainer(Main, image);
      if !r.Success? { return; }
      r := StartAndCheck();
    }

    /** controlDockerModule for "start", "stop" and "restart"; stop is never refused. `down`: where
        a stop has stopped the container. */
    method Control(stop: bool, start: bool) returns (r: Reply, ghost down: nat)
      requires Valid()
      modifies this
      ensures Valid() && Onward()
      ensures w.journal == old(w).journal && w.backup == old(w).backup && w.failed == old(w).failed
      ensures SameIdentity(old(w).main, w.main)
      ensures r.Success? ==> OursAt(w, Main) && (start ==> old(LifecycleAllowed()) && HealthyMain(w))
      ensures r.Success? && stop ==> DownAt(down) && (!start ==> !w.main.value.running)
      ensures start && !old(LifecycleAllowed()) ==> Disturbs(old(w), w)
      ensures faults == old(faults) ==>
        r == (if OursAt(old(w), Main) && (start ==> old(LifecycleAllowed()) && old(w).config.Some?)
              then Success else Error)
      ensures faults == old(faults) && r.Success? && start ==> Running(w.main)
      ensures r.Success? ==> done == Looked(Controlling(Twice(old(done)), stop, start))
    {
      down := 0;
      r := Look();
      if !r.Success? { return; }
      if start && !LifecycleAllowed() { return Error, down; }
      r := Look();
      if !r.Success? { return; }
      if w.main.None? || !w.main.value.ours { return Error, down; }
      r, down := ControlOurs(stop, start);
    }

    /** The container is the module's own. */
    method ControlOurs(stop: bool, start: bool) returns (r: Reply, ghost down: nat)
      requires Valid() && OursAt(w, Main) && (start ==> LifecycleAllowed())
      modifies this
      ensures Valid() && Onward()
      ensures w.journal == old(w).journal && w.backup == old(w).backup && w.failed == old(w).failed
      ensures SameIdentity(old(w).main, w.main) && OursAt(w, Main)
      ensures r.Success? && start ==> HealthyMain(w)
      ensures r.Success? && stop ==> DownAt(down) && (!start ==> !w.main.value.running)
      ensures faults == old(faults) ==> r == (if start ==> old(w).config.Some? then Success else Error)
      ensures faults == old(faults) && r.Success? && start ==> Running(w.main)
      ensures r.Success? ==> done == Looked(Controlling(old(done), stop, start))
    {
      r, down := StopAndStart(stop, start);
      if !r.Success? { return; }
      r := Look();
    }

    /** At step `k` the module's container does not run. */
    twostate predicate DownAt(k: nat)
      reads this
    {
      |old(trace)| <= k < |trace| && trace[k].main.Some? && !trace[k].main.value.running
    }

    method StopAndStart(stop: bool, start: bool) returns (r: Reply, ghost down: nat)
      requires Valid() && OursAt(w, Main) && (start ==> LifecycleAllowed())
      modifies this
      ensures Valid() && Onward()
      ensures w.journal == old(w).journal && w.backup == old(w).backup && w.failed == old(w).failed
      ensures SameIdentity(old(w).main, w.main) && OursAt(w, Main)
      ensures r.Success? && start ==> HealthyMain(w)
      ensures r.Success? && stop ==> DownAt(down) && (!start ==> !w.main.value.running)
      ensures faults == old(faults) ==> r == (if start ==> old(w).config.Some? then Success else Error)
      ensures faults == old(faults) && r.Success? && start ==> Running(w.main)
      ensures r.Success? ==> done == Controlling(old(done), stop, start)
    {
      down := 0;
      r := Success;
      if stop {
        r := StopContainer(Main);
        if !r.Success? { return; }
        Facts();
        down := |trace| - 1;
      }
      if start {
        r := StartAndCheck();
      }
    }

    /** removeDockerModule: the container goes, its data stays. */
    method RemoveModule() returns (r: Reply)
      requires Valid()
      modifies this
      ensures Valid() && Onward()
      ensures w.journal == old(w).journal && w.backup == old(w).backup
      ensures r.Success? ==> w.main.None? && old(LifecycleAllowed())
      ensures !old(LifecycleAllowed()) ==> Disturbs(old(w), w)
      ensures faults == old(faults) ==>
        r == (if old(LifecycleAllowed()) && (old(w).main.None? || OursAt(old(w), Main)) then Success else Error)
      ensures r.Success? ==>
        done == if old(w).main.None? then Twice(old(done)) else Then(Twice(old(done)), Remove(Main, true))
    {
      r := Look();
      if !r.Success? { return; }
      if !LifecycleAllowed() { return Error; }
      r := Look();
      if !r.Success? || w.main.None? { return; }
      if !w.main.value.ours { return Error; }
      ghost var pre;
      r, pre := RemoveContainer(Main, true);
    }
  }
}

/** Runs of the Frigate protocol, and what they say about Core's registry and
    about which interrupted upgrades can still be finished. */
module FrigateRuns {
  import opened Faults
  import opened FrigateWorld

  /** One step of a run: the outside world moves, or one permitted command takes effect. */
  ghost predicate Step(a: World, b: World) {
    Disturbs(a, b) || exists c :: Permitted(c, a) && Possible(c, a) && b == Apply(c, a)
  }

  ghost predicate IsRun(t: seq<World>) {
    && |t| > 0
    && Inv(t[0])
    && forall i :: 0 < i < |t| ==> Step(t[i - 1], t[i])
  }

  lemma StepKeepsInv(a: World, b: World)
    requires Inv(a) && Step(a, b)
    ensures Inv(b)
  {
    if Disturbs(a, b) {
      DisturbanceKeepsInv(a, b);
    } else {
      var c :| Permitted(c, a) && Possible(c, a) && b == Apply(c, a);
      CommandKeepsInv(c, a);
    }
  }

  lemma RunGrows(t: seq<World>, b: World)
    requires IsRun(t) && Step(t[|t| - 1], b)
    ensures IsRun(t + [b])
  {
    var u := t + [b];
    forall i | 0 < i < |u| ensures Step(u[i - 1], u[i]) {
      if i < |t| {
        assert u[i - 1] == t[i - 1] && u[i] == t[i];
      }
    }
  }

  /** Safety over whole runs: whatever is requested, whatever fails, wherever the
      helper crashes, every state the host passes through is safe. */
  lemma {:induction false} RunIsSafe(t: seq<World>, k: nat)
    requires IsRun(t) && k < |t|
    ensures Inv(t[k]) && Safe(t[k])
  {
    if k > 0 {
      RunIsSafe(t, k - 1);
      StepKeepsInv(t[k - 1], t[k]);
    }
    InvIsSafe(t[k]);
  }

  // -------------------------------------------------- the configuration along a run

  /** A configuration nobody runs on stays as it is, and nobody starts on it. */
  predicate KeepsConfig(a: World, b: World) {
    && b.failed == a.failed
    && (!AnyRunning(a) ==> !AnyRunning(b) && b.config == a.config)
  }

  lemma RenameStartsNothing(p: Place, q: Place, w: World)
    requires Possible(Rename(p, q), w) && !AnyRunning(w)
    ensures !AnyRunning(Apply(Rename(p, q), w))
  {
    match p { case Main => case Candidate => case Previous => }
    match q { case Main => case Candidate => case Previous => }
  }

  lemma CommandKeepsConfig(c: Command, w: World)
    requires Possible(c, w)
    ensures w.touched <= Apply(c, w).touched
    ensures w.touched == Apply(c, w).touched ==> KeepsConfig(w, Apply(c, w))
  {
    if c.Rename? {
      if !AnyRunning(w) { RenameStartsNothing(c.source, c.target, w); }
    } else if c.Create? || c.Start? || c.Stop? || c.Remove? || c.Probe? {
      match c.place { case Main => case Candidate => case Previous => }
    }
  }

  /** Each step counts up, or keeps the configuration. */
  ghost predicate Counted(t: seq<World>) {
    forall i :: 0 < i < |t| ==>
      t[i - 1].touched <= t[i].touched && (t[i - 1].touched == t[i].touched ==> KeepsConfig(t[i - 1], t[i]))
  }

  lemma RunIsCounted(t: seq<World>)
    requires IsRun(t)
    ensures Counted(t)
  {
    forall i | 0 < i < |t|
      ensures t[i - 1].touched <= t[i].touched && (t[i - 1].touched == t[i].touched ==> KeepsConfig(t[i - 1], t[i]))
    {
      StepIsCounted(t[i - 1], t[i]);
    }
  }

  lemma StepIsCounted(a: World, b: World)
    requires Step(a, b)
    ensures a.touched <= b.touched && (a.touched == b.touched ==> KeepsConfig(a, b))
  {
    if !Disturbs(a, b) {
      var c :| Permitted(c, a) && Possible(c, a) && b == Apply(c, a);
      CommandKeepsConfig(c, a);
    }
  }

  lemma {:induction false} TouchedGrows(t: seq<World>, i: nat, j: nat)
    requires Counted(t) && i <= j < |t|
    ensures t[i].touched <= t[j].touched
    ensures t[i].touched == t[j].touched ==> KeepsConfig(t[i], t[j])
    decreases j
  {
    if i < j {
      TouchedGrows(t, i, j - 1);
      KeepsTwice(t[i], t[j - 1], t[j]);
    }
  }

  lemma KeepsTwice(a: World, b: World, c: World)
    ensures KeepsConfig(a, b) && KeepsConfig(b, c) ==> KeepsConfig(a, c)
  {
  }

  /** From one moment to another: as soon as no container runs none does any more, and the
      configuration stays what it is; what was set aside stays anyway. */
  ghost predicate Untouched(t: seq<World>, from: nat, to: nat) {
    forall i, j :: from <= i <= j <= to < |t| ==> KeepsConfig(t[i], t[j])
  }

  lemma UntouchedBetween(t: seq<World>, from: nat, to: nat)
    requires IsRun(t) && from <= to < |t| && t[from].touched == t[to].touched
    ensures Untouched(t, from, to)
  {
    RunIsCounted(t);
    forall i, j | from <= i <= j <= to ensures KeepsConfig(t[i], t[j]) {
      TouchedGrows(t, from, i);
      TouchedGrows(t, i, j);
      TouchedGrows(t, j, to);
    }
  }

  /** The first moment from `from` on at which no container runs. */
  ghost predicate FirstDown(t: seq<World>, from: nat, s: nat) {
    from <= s < |t| && !AnyRunning(t[s]) && forall i :: from <= i < s ==> AnyRunning(t[i])
  }

  /** At `k` the configuration has the content that it had when the containers first were down. */
  ghost predicate AsWhenStopped(t: seq<World>, from: nat, k: nat) {
    forall s: nat :: s <= k && FirstDown(t, from, s) ==>
      k < |t| && t[k].config.Some? && t[s].config.Some? && t[k].config.value.content == t[s].config.value.content
  }

  // ------------------------------------------------- registry and journal

  function OldOf(w: World, j: Journal): Option<Container> {
    if Has(w.main, j.oldImage) then w.main else w.previous
  }

  predicate OldExists(w: World, j: Journal) {
    Has(w.main, j.oldImage) || w.previous.Some?
  }

  /** The two decisions of recoverFrigateRegistered, as guards. */
  predicate CommitEnabled(image: Image, j: Journal) {
    image == j.newImage && (j.phase.Swapped? || j.phase.Committed?)
  }

  predicate RollbackEnabled(image: Image, j: Journal) {
    image == j.oldImage && !j.phase.Committed?
  }

  /** What Core's registry row and the host have in common as long as Core records an intent
      before it asks for a container, removes the row after the container, and moves the row
      only after an upgrade replied success. */
  predicate Agree(w: World) {
    && (w.row.None? ==> !OursAt(w, Main))
    && (w.journal.Some? ==>
      var j := w.journal.value;
      match w.row
      case None => j.phase.Committed? && w.main.None?
      case Some(r) =>
        if r.confirmed then CommitEnabled(r.image, j) || (RollbackEnabled(r.image, j) && OldExists(w, j))
        else j.phase.Committed? && (r.image != j.newImage ==> w.main.None?))
  }

  /** Exactly one of commit and rollback is enabled for a confirmed row, so the
      refusing branch of the reconciliation is dead. For an unconfirmed row it is
      alive exactly when a different image than the committed one was requested. */
  lemma AgreementDecides(w: World)
    requires Inv(w) && Agree(w) && w.journal.Some? && w.row.Some?
    ensures !(CommitEnabled(w.row.value.image, w.journal.value) && RollbackEnabled(w.row.value.image, w.journal.value))
    ensures w.row.value.confirmed ==>
              CommitEnabled(w.row.value.image, w.journal.value) || RollbackEnabled(w.row.value.image, w.journal.value)
    ensures !w.row.value.confirmed ==>
              (CommitEnabled(w.row.value.image, w.journal.value) || RollbackEnabled(w.row.value.image, w.journal.value)
               <==> w.row.value.image == w.journal.value.newImage)
  {
  }

  /** The part of the protocol that Core adds by asking only for what its registry says. */
  predicate KeepsAgreement(c: Command, w: World) {
    match c
    case Create(p, _) =>
      p.Main? ==>
        w.row.Some? && (w.journal.Some? ==> w.row.value.confirmed || w.row.value.image == w.journal.value.newImage)
    case Remove(p, _) =>
      Pending(w) && Has(At(w, p), w.journal.value.oldImage) ==>
        w.row.Some? && w.row.value.confirmed && CommitEnabled(w.row.value.image, w.journal.value)
    case WriteJournal(j) => Agree(w.(journal := Some(j)))
    case SetRow(r) => Agree(w.(row := r))
    case _ => true
  }

  lemma DisturbanceKeepsAgreement(c: Command, w: World, v: World)
    requires Inv(w) && Disturbs(w, v) && Agree(w)
    ensures Agree(v)
    ensures KeepsAgreement(c, w) ==> KeepsAgreement(c, v)
  {
    match c {
      case Remove(p, _) => match p { case Main => case Candidate => case Previous => }
      case _ =>
    }
  }

  lemma CommandKeepsAgreement(c: Command, w: World)
    requires Inv(w) && Agree(w) && Permitted(c, w) && Possible(c, w) && KeepsAgreement(c, w)
    ensures Agree(Apply(c, w))
  {
    match c {
      case Remove(p, _) => match p { case Main => case Candidate => case Previous => }
      case Start(p) => match p { case Main => case Candidate => case Previous => }
      case Stop(p) => match p { case Main => case Candidate => case Previous => }
      case Rename(p, q) =>
        assert (p == Main && q == Previous) || (p == Candidate && q == Main) || (p == Previous && q == Main);
      case Create(p, image) => assert p.Main? || p.Candidate?;
      case _ =>
    }
  }

  // ------------------------------------------------------------ recovery

  function Lookup(found: map<Place, Container>, p: Place): Option<Container> {
    if p in found then Some(found[p]) else None
  }

  /** `found` holds what stands under the first `n` names. */
  predicate Surveyed(found: map<Place, Container>, w: World, n: int) {
    && (if n > 0 then Aged(Lookup(found, Main), w.main) else Main !in found)
    && (if n > 1 then Aged(Lookup(found, Candidate), w.candidate) else Candidate !in found)
    && (if n > 2 then Aged(Lookup(found, Previous), w.previous) else Previous !in found)
  }

  function NameAt(i: nat): Place {
    if i == 0 then Main else if i == 1 then Candidate else Previous
  }

  lemma SurveyStep(found: map<Place, Container>, w: World, v: World, i: nat, info: Option<Container>)
    requires i < 3 && Surveyed(found, w, i) && Disturbs(w, v) && Aged(info, At(v, NameAt(i)))
    ensures Surveyed(if info.Some? then found[NameAt(i) := info.value] else found, v, i + 1)
  {
  }

  /** `v` is `w` after some containers aged or were removed, none of the old image among the removed. */
  predicate Shrunk(w: World, v: World, oldImage: Image) {
    && v == w.(main := v.main, candidate := v.candidate, previous := v.previous, config := v.config)
    && (v.main.Some? || Has(w.main, oldImage) ==> Aged(w.main, v.main))
    && (v.candidate.Some? || Has(w.candidate, oldImage) ==> Aged(w.candidate, v.candidate))
    && (v.previous.Some? || Has(w.previous, oldImage) ==> Aged(w.previous, v.previous))
    && (w.config.None? <==> v.config.None?)
    && (w.config.Some? ==> v.config.value.writers == w.config.value.writers)
  }

  lemma ShrunkStep(u: World, w: World, pre: World, v: World, n: Place, oldImage: Image)
    requires Shrunk(u, w, oldImage) && Disturbs(w, pre) && (v == pre || v == Put(pre, n, None))
    requires !Has(At(w, n), oldImage)
    ensures Shrunk(u, v, oldImage)
  {
    match n { case Main => case Candidate => case Previous => }
  }

  predicate PurgedAt(found: map<Place, Container>, rest: set<Place>, w: World, newImage: Image, p: Place) {
    if p in found && p !in rest && found[p].image == newImage then At(w, p).None?
    else Aged(Lookup(found, p), At(w, p))
  }

  predicate Purged(found: map<Place, Container>, rest: set<Place>, w: World, newImage: Image) {
    && PurgedAt(found, rest, w, newImage, Main)
    && PurgedAt(found, rest, w, newImage, Candidate)
    && PurgedAt(found, rest, w, newImage, Previous)
  }

  lemma PurgedStep(found: map<Place, Container>, rest: set<Place>, w: World, pre: World, v: World, n: Place,
    newImage: Image)
    requires Purged(found, rest, w, newImage) && n in rest && n in found && found[n].image == newImage
    requires Disturbs(w, pre) && v == Put(pre, n, None)
    ensures Purged(found, rest - {n}, v, newImage)
  {
    match n { case Main => case Candidate => case Previous => }
  }

  /** What is still to be removed is ours, and the old container survives its removal. */
  lemma PurgedOurs(found: map<Place, Container>, rest: set<Place>, w: World, n: Place, txn: Journal)
    requires Inv(w) && Pending(w) && Mirrors(txn, w) && OldExists(w, txn)
    requires Purged(found, rest, w, txn.newImage) && n in rest && n in found && found[n].image == txn.newImage
    ensures OursAt(w, n) && Has(At(w, n), txn.newImage) && !Has(At(w, n), txn.oldImage)
    ensures !n.Previous? && (n.Main? ==> w.previous.Some?)
  {
    match n { case Main => case Candidate => case Previous => }
  }

  /** One container of `image` under `p`, and none under the other names. */
  predicate Lone(w: World, p: Place, id: nat, image: Image) {
    && Has(At(w, p), image) && At(w, p).value.id == id
    && (!p.Main? ==> w.main.None?)
    && (!p.Candidate? ==> w.candidate.None?)
    && (!p.Previous? ==> w.previous.None?)
  }

  lemma FoundOld(found: map<Place, Container>, w: World, txn: Journal)
    requires Inv(w) && Mirrors(txn, w) && Surveyed(found, w, 3)
    ensures OldExists(w, txn) && Pending(w) ==> exists p :: p in found && found[p].image == txn.oldImage
    ensures forall p, q ::
      p in found && q in found && found[p].image == txn.oldImage && found[q].image == txn.oldImage ==> p == q
    ensures !Pending(w) ==> forall p :: p in found ==> found[p].image != txn.oldImage
  {
  }

  lemma SurveyedOld(found: map<Place, Container>, w: World, txn: Journal, p: Place)
    requires Inv(w) && Mirrors(txn, w) && Surveyed(found, w, 3) && p in found && found[p].image == txn.oldImage
    ensures Pending(w) && OldExists(w, txn) && !p.Candidate?
    ensures OldOf(w, txn).Some? && OldOf(w, txn).value.id == found[p].id
    ensures OldOf(w, txn).value.running ==> found[p].running
  {
  }

  lemma PurgedLone(found: map<Place, Container>, u: World, w: World, txn: Journal, p: Place)
    requires Inv(u) && Pending(u) && Mirrors(txn, u) && Surveyed(found, u, 3)
    requires Purged(found, {}, w, txn.newImage) && p in found && found[p].image == txn.oldImage
    ensures Lone(w, p, found[p].id, txn.oldImage) && (At(w, p).value.running ==> found[p].running)
  {
  }

  /** Exactly the old container and the candidate of this upgrade, under these two names. */
  predicate Pair(w: World, oldAt: Place, newAt: Place, txn: Journal, oldId: nat) {
    && oldAt != newAt
    && Has(At(w, oldAt), txn.oldImage) && At(w, oldAt).value.id == oldId && oldId != w.stagedId
    && NewContainer(w, At(w, newAt), txn)
    && (!oldAt.Main? && !newAt.Main? ==> w.main.None?)
    && (!oldAt.Candidate? && !newAt.Candidate? ==> w.candidate.None?)
    && (!oldAt.Previous? && !newAt.Previous? ==> w.previous.None?)
  }

  predicate HealthyMain(w: World) {
    w.main.Some? && w.main.value.id in w.healthy
  }

  predicate SameUpgrade(j: Journal, txn: Journal) {
    j.oldImage == txn.oldImage && j.newImage == txn.newImage && !j.phase.Committed?
  }

  predicate SameIdentity(a: Option<Container>, b: Option<Container>) {
    (a.None? <==> b.None?) && (a.Some? ==> a.value.id == b.value.id && a.value.image == b.value.image)
  }

  /** What a successful upgrade leaves: the new container under the module's name, the
      stopped old one retained, and the journal holding the hash of an intact backup
      the new container has never run on. */
  predicate SwappedWith(w: World, oldImage: Image, newImage: Image, oldId: nat) {
    && w.journal.Some? && w.journal.value.phase.Swapped?
    && w.journal.value.oldImage == oldImage && w.journal.value.newImage == newImage
    && Pair(w, Previous, Main, w.journal.value, oldId)
    && BackupIntact(w, w.journal.value.snapshot)
    && w.stagedId !in w.backup.value.writers
    && w.stagedId in w.healthy
    && w.config.Some?
    && w.config.value.writers == w.backup.value.writers + {w.stagedId}
    && w.window.Closed?
  }

  lemma PurgedSkip(found: map<Place, Container>, rest: set<Place>, w: World, n: Place, newImage: Image)
    requires Purged(found, rest, w, newImage) && n in found && found[n].image != newImage
    ensures Purged(found, rest - {n}, w, newImage)
  {
  }

  /** What rolling back with the transaction `txn` needs to find on the host. */
  predicate Restorable(w: World, txn: Journal) {
    && w.config.Some?
    && OldExists(w, txn)
    && (!txn.phase.Prepared? ==> BackupIntact(w, txn.snapshot))
  }

  /** The data the revived container runs on descends from the backup alone, or, when
      nothing had been migrated yet, from the data it was stopped on. */
  predicate RevivedOn(w: World, v: World, txn: Journal) {
    && v.main.Some? && v.config.Some?
    && (if txn.phase.Prepared? then
          w.config.Some? && v.config.value.writers == w.config.value.writers + {v.main.value.id}
        else
          w.backup.Some? && v.config.value.writers == w.backup.value.writers + {v.main.value.id})
  }

  lemma DisturbanceKeepsRestorable(w: World, v: World, txn: Journal)
    requires Disturbs(w, v)
    ensures Restorable(w, txn) <==> Restorable(v, txn)
    ensures OldExists(w, txn) <==> OldExists(v, txn)
    ensures OldOf(w, txn).Some? <==> OldOf(v, txn).Some?
    ensures OldOf(w, txn).Some? ==> OldOf(w, txn).value.id == OldOf(v, txn).value.id
    ensures forall u :: RevivedOn(v, u, txn) ==> RevivedOn(w, u, txn)
  {
  }

  lemma ShrunkKeepsOld(w: World, v: World, txn: Journal)
    requires Inv(w) && Pending(w) && Mirrors(txn, w) && Shrunk(w, v, txn.oldImage) && OldExists(w, txn)
    ensures OldExists(v, txn)
  {
  }

  /** The old container is back under its name, and nothing of the attempt is left. */
  predicate RolledBack(w: World, image: Image) {
    && w.journal.None? && w.backup.None? && w.config.Some?
    && Has(w.main, image) && w.candidate.None? && w.previous.None?
  }

  /** The new container alone, with the journal retained as committed. */
  predicate CommittedWith(w: World, txn: Journal) {
    && w.journal == Some(txn.(phase := Committed))
    && Has(w.main, txn.newImage) && w.candidate.None? && w.previous.None?
  }

  /** The transaction is the one between the two images. */
  predicate Names(w: World, image: Image, previousImage: Image) {
    w.journal.Some? && w.journal.value.newImage == image && w.journal.value.oldImage == previousImage
  }

  /** When a commit or a rollback that names both images can succeed at all. */
  predicate Finishable(w: World, image: Image, previousImage: Image, commit: bool) {
    && Names(w, image, previousImage)
    && (if commit then Has(w.main, image) && w.main.value.running
        else !w.journal.value.phase.Committed? && Restorable(w, w.journal.value))
  }

  /** When reconciling the registered image can succeed at all. */
  predicate Recoverable(w: World, image: Image) {
    && w.journal.Some?
    && (if CommitEnabled(image, w.journal.value) then Has(w.main, image) && Running(w.main)
        else RollbackEnabled(image, w.journal.value) && Restorable(w, w.journal.value))
  }

  lemma DisturbanceKeepsRecoverable(w: World, v: World, image: Image)
    requires Disturbs(w, v)
    ensures Recoverable(v, image) ==> Recoverable(w, image)
    ensures SameContainers(w, v) ==> (Recoverable(v, image) <==> Recoverable(w, image))
  {
    if w.journal.Some? { DisturbanceKeepsRestorable(w, v, w.journal.value); }
  }

  /** Which interruptions of an upgrade can be reconciled with the registry's row, exactly: before
      the row has moved, all of them outside of the two windows, and within the second one those
      that left the backup whole; after it has moved, those whose new container runs; and none
      with the intent to install another image over a committed journal. */
  lemma RecoverableExactly(w: World)
    requires Inv(w) && Agree(w) && Interrupted(w)
    ensures Recoverable(w, w.row.value.image) <==>
              if CommitEnabled(w.row.value.image, w.journal.value)
                then Running(w.main) && Has(w.main, w.row.value.image)
              else w.row.value.confirmed
                   && (w.window.Closed? || (w.window.BackupGoing? && BackupIntact(w, w.journal.value.snapshot)))
  {
  }

  /** A transaction is on the host, and the module is registered. */
  predicate Interrupted(w: World) {
    w.journal.Some? && w.row.Some?
  }

  /** An upgrade that cannot be reconciled stopped inside a window, or after the row had moved
      its new container went down, or another image was asked for after its commit. */
  predicate Stuck(w: World, row: Row) {
    && w.journal.Some?
    && (if CommitEnabled(row.image, w.journal.value) then !(Running(w.main) && Has(w.main, row.image))
        else !row.confirmed || w.window.ConfigAside?
             || (w.window.BackupGoing? && !BackupIntact(w, w.journal.value.snapshot)))
  }

  /** One container of the registered image runs under the module's name, staging
      names are free, and the journal is gone or committed. */
  predicate Settled(w: World, image: Image) {
    && Has(w.main, image) && w.candidate.None? && w.previous.None?
    && (w.journal.None? || w.journal.value.phase.Committed?)
  }

  /** The in-memory transaction of a running operation against the journal on disk:
      the phase on disk may lag behind when writing it failed. */
  predicate Mirrors(txn: Journal, w: World) {
    && w.journal.Some?
    && (var j := w.journal.value;
        && txn.oldImage == j.oldImage && txn.newImage == j.newImage
        && (txn.phase.Committed? <==> j.phase.Committed?)
        && (txn.phase.Prepared? ==> j.phase.Prepared?)
        && (!txn.phase.Prepared? ==> txn.snapshot.Some?)
        && (!j.phase.Prepared? ==> txn.snapshot == j.snapshot))
  }
}

/** Admission of module jobs and of native configuration writes: one submit lock, and a scan of
    the job table that is not atomic, against workers, cancellations and other tabs. */
module JobGate {
  import opened Faults

  datatype Status = Queued | Running | CancelRequested | Finished

  /** `install`: the one kind of module job that a restart of Core puts back into the queue. */
  datatype Job = Job(forModule: bool, install: bool, status: Status)

  type Jobs = map<nat, Job>

  function Rank(s: Status): nat {
    match s
    case Queued => 0
    case Running => 1
    case CancelRequested => 2
    case Finished => 3
  }

  /** The order in which the scan asks for the statuses. */
  const SCANNED: seq<Status> := [Queued, Running, CancelRequested]

  const LIMIT := 500

  predicate ActiveModule(jobs: Jobs, id: nat) {
    id in jobs && jobs[id].forModule && jobs[id].status != Finished
  }

  function WithStatus(jobs: Jobs, status: Status): set<nat> {
    set id | id in jobs && jobs[id].status == status
  }

  /** An answer of the job list: all records with the status, or some LIMIT of them. */
  predicate Page(jobs: Jobs, status: Status, page: set<nat>) {
    page <= WithStatus(jobs, status) && (|page| >= LIMIT || page == WithStatus(jobs, status))
  }

  /** What everybody else may do to the table while the lock is held: a status moves forward,
      a finished job disappears, a job of another kind appears. */
  predicate Forward(a: Jobs, b: Jobs) {
    && (forall id :: id in a && id in b ==>
          b[id].forModule == a[id].forModule && b[id].install == a[id].install
            && Rank(a[id].status) <= Rank(b[id].status))
    && (forall id :: id in a && id !in b ==> a[id].status == Finished)
    && (forall id :: id in b && id !in a ==> !b[id].forModule)
  }

  lemma ActiveBefore(a: Jobs, b: Jobs, id: nat)
    requires Forward(a, b) && ActiveModule(b, id)
    ensures ActiveModule(a, id) && Rank(a[id].status) <= Rank(b[id].status)
  {
    assert id in a && b[id].forModule == a[id].forModule;
  }

  /** Every module job that is active now was active before. */
  ghost predicate NoNewJob(before: Jobs, now: Jobs) {
    forall id :: ActiveModule(now, id) ==> ActiveModule(before, id)
  }

  ghost predicate NoModuleJob(jobs: Jobs) {
    forall id :: !ActiveModule(jobs, id)
  }

  // ----------------------------------------------------- the interleaved machine

  /** What a client takes the lock for. */
  datatype Ask = Submission(install: bool) | ConfigWrite

  datatype Client =
    | Idle
    | Scanning(stage: nat, ask: Ask, found: bool)      // holds the lock
    | Writing                                          // holds the lock: native config write

  datatype State = State(jobs: Jobs, clients: map<nat, Client>, holder: Option<nat>)

  datatype Event =
    | TryLock(client: nat, ask: Ask)
    | List(client: nat, page: set<nat>)
    | Decide(client: nat, id: nat)                     // after the scan: refuse, submit or write
    | Leave(client: nat)                               // any error, and the end of a write
    | Move(jobs: Jobs)                                 // workers, cancellations, other jobs
    | Recover                                          // the jobs engine starts
    | Restart                                          // Core starts anew

  function ClientOf(s: State, c: nat): Client {
    if c in s.clients then s.clients[c] else Idle
  }

  predicate Possible(e: Event, s: State) {
    match e
    case TryLock(c, _) => ClientOf(s, c).Idle?
    case List(c, page) =>
      ClientOf(s, c).Scanning? && ClientOf(s, c).stage < |SCANNED| && Page(s.jobs, SCANNED[ClientOf(s, c).stage], page)
    case Decide(c, id) => ClientOf(s, c).Scanning? && ClientOf(s, c).stage == |SCANNED| && id !in s.jobs
    case Leave(c) => !ClientOf(s, c).Idle?
    case Move(jobs) => Forward(s.jobs, jobs)
    case Recover => true
    case Restart => true
  }

  function Left(s: State, c: nat): State {
    s.(clients := s.clients[c := Idle], holder := None)
  }

  function Recovered(j: Job): Job {
    match j.status
    case Running => j.(status := if j.install then Queued else Finished)
    case CancelRequested => j.(status := Finished)
    case _ => j
  }

  function Apply(e: Event, s: State): State
    requires Possible(e, s)
  {
    match e
    case TryLock(c, ask) =>
      if s.holder.Some? then s
      else s.(clients := s.clients[c := Scanning(0, ask, false)], holder := Some(c))
    case List(c, page) =>
      var k := ClientOf(s, c);
      if |page| >= LIMIT then Left(s, c)
      else s.(clients := s.clients[c := k.(stage := k.stage + 1,
                                          found := k.found || exists id :: id in page && s.jobs[id].forModule)])
    case Decide(c, id) =>
      var k := ClientOf(s, c);
      if k.found then Left(s, c)
      else if k.ask.ConfigWrite? then s.(clients := s.clients[c := Writing])
      else Left(s, c).(jobs := s.jobs[id := Job(true, k.ask.install, Queued)])
    case Leave(c) => Left(s, c)
    case Move(jobs) => s.(jobs := jobs)
    case Recover => s.(jobs := map id | id in s.jobs :: Recovered(s.jobs[id]))
    case Restart => s.(clients := map[], holder := None)
  }

  // ---------------------------------------------------------------- the theorem

  ghost predicate OneModuleJob(s: State) {
    forall a, b :: ActiveModule(s.jobs, a) && ActiveModule(s.jobs, b) ==> a == b
  }

  /** No native write overlaps a module job or another write; at most one module job is active. */
  ghost predicate Exclusive(s: State) {
    && OneModuleJob(s)
    && (forall c :: c in s.clients && s.clients[c].Writing? ==> forall id :: !ActiveModule(s.jobs, id))
    && (forall c, d :: c in s.clients && d in s.clients && s.clients[c].Writing? && s.clients[d].Writing? ==> c == d)
  }

  /** The scan has not missed anything: what it has not found is still ahead of it. */
  ghost predicate ScanSound(s: State, k: Client) {
    k.Scanning? && !k.found ==> forall id :: ActiveModule(s.jobs, id) ==> Rank(s.jobs[id].status) >= k.stage
  }

  ghost predicate Inv(s: State) {
    && Exclusive(s)
    && (forall c :: c in s.clients && !s.clients[c].Idle? ==> s.holder == Some(c))
    && (forall c :: c in s.clients ==> ScanSound(s, s.clients[c]))
  }

  /** No scan that has asked for the queue, and has found nothing yet, would have a running
      installation put back behind it. */
  predicate Harmless(s: State) {
    forall c :: c in s.clients && s.clients[c].Scanning? && !s.clients[c].found && s.clients[c].stage > 0 ==>
      forall id :: id in s.jobs && s.jobs[id].forModule && s.jobs[id].install ==> s.jobs[id].status != Running
  }

  lemma ListKeepsInv(s: State, c: nat, page: set<nat>)
    requires Inv(s) && Possible(List(c, page), s)
    ensures Inv(Apply(List(c, page), s))
  {
    var k := ClientOf(s, c);
    var t := Apply(List(c, page), s);
    if |page| < LIMIT {
      var k' := t.clients[c];
      if !k'.found {
        forall id | ActiveModule(t.jobs, id) ensures Rank(t.jobs[id].status) >= k'.stage {
          if Rank(s.jobs[id].status) == k.stage {
            assert false;
          }
        }
      }
    }
  }

  lemma RecoveryActivates(s: State, id: nat)
    ensures ActiveModule(Apply(Recover, s).jobs, id) <==>
            ActiveModule(s.jobs, id)
              && (s.jobs[id].status.Queued? || (s.jobs[id].status.Running? && s.jobs[id].install))
    ensures ActiveModule(Apply(Recover, s).jobs, id) ==> Apply(Recover, s).jobs[id].status.Queued?
  {
  }

  lemma HarmlessKeepsInv(s: State)
    requires Inv(s) && Harmless(s)
    ensures Inv(Apply(Recover, s))
  {
    var t := Apply(Recover, s);
    forall id | ActiveModule(t.jobs, id)
      ensures ActiveModule(s.jobs, id)
        && (t.jobs[id] == s.jobs[id] || (s.jobs[id].status.Running? && s.jobs[id].install))
    {
      RecoveryActivates(s, id);
    }
  }

  /** A recovery keeps the invariant exactly when it is harmless. */
  lemma RecoverKeepsInvExactly(s: State)
    requires Inv(s)
    ensures Inv(Apply(Recover, s)) <==> Harmless(s)
  {
    if Harmless(s) {
      HarmlessKeepsInv(s);
    } else {
      var c, id := Harm(s);
      RecoveryActivates(s, id);
      assert !ScanSound(Apply(Recover, s), s.clients[c]);
    }
  }

  /** The one way to be harmed: an installation runs while a scan is between its first and its second question. */
  lemma Harm(s: State) returns (c: nat, id: nat)
    requires Inv(s) && !Harmless(s)
    ensures c in s.clients && s.clients[c].Scanning? && s.clients[c].stage == 1 && !s.clients[c].found
    ensures id in s.jobs && s.jobs[id] == Job(true, true, Running)
  {
    c :| c in s.clients && s.clients[c].Scanning? && !s.clients[c].found && s.clients[c].stage > 0
         && exists id :: id in s.jobs && s.jobs[id].forModule && s.jobs[id].install && s.jobs[id].status == Running;
    id :| id in s.jobs && s.jobs[id].forModule && s.jobs[id].install && s.jobs[id].status == Running;
    assert ActiveModule(s.jobs, id) && ScanSound(s, s.clients[c]);
  }

  lemma MoveKeepsInv(s: State, jobs: Jobs)
    requires Inv(s) && Possible(Move(jobs), s)
    ensures Inv(Apply(Move(jobs), s))
  {
    forall id | ActiveModule(jobs, id)
      ensures ActiveModule(s.jobs, id) && Rank(s.jobs[id].status) <= Rank(jobs[id].status)
    {
      ActiveBefore(s.jobs, jobs, id);
    }
  }

  lemma EventKeepsInv(s: State, e: Event)
    requires Inv(s) && Possible(e, s) && (e.Recover? ==> Harmless(s))
    ensures Inv(Apply(e, s))
  {
    match e {
      case List(c, page) => ListKeepsInv(s, c, page);
      case Recover => HarmlessKeepsInv(s);
      case Move(jobs) => MoveKeepsInv(s, jobs);
      case Decide(c, id) =>
        if !ClientOf(s, c).found {
          forall j | ActiveModule(s.jobs, j) ensures false {
            assert false;
          }
        }
      case _ =>
    }
  }

  /** The states that a sequence of events leads through. */
  ghost predicate IsRun(states: seq<State>, events: seq<Event>) {
    && |states| == |events| + 1
    && forall i :: 0 <= i < |events| ==> Possible(events[i], states[i]) && states[i + 1] == Apply(events[i], states[i])
  }

  /** Mutual exclusion in every interleaving of harmless events, however many tabs, workers and cancellations. */
  lemma {:induction false} EveryInterleavingIsExclusive(states: seq<State>, events: seq<Event>, n: nat)
    requires IsRun(states, events) && Inv(states[0]) && n < |states|
    requires forall i :: 0 <= i < |events| && events[i].Recover? ==> Harmless(states[i])
    ensures Inv(states[n]) && Exclusive(states[n])
  {
    if n > 0 {
      EveryInterleavingIsExclusive(states, events, n - 1);
      EventKeepsInv(states[n - 1], events[n - 1]);
    }
  }

  // ------------------------------------------------------- who gets what he asked for

  /** At the beginning nobody holds the lock. */
  predicate Unlocked(s: State) {
    forall c :: c in s.clients ==> s.clients[c].Idle?
  }

  /** From just after step `k` to step `n` the client has been scanning for what it asked at `k`. */
  ghost predicate AskedAt(states: seq<State>, events: seq<Event>, k: nat, n: nat, c: nat, ask: Ask) {
    && k < n < |states| && k < |events| && events[k] == TryLock(c, ask)
    && forall i :: k < i <= n ==> ClientOf(states[i], c).Scanning? && ClientOf(states[i], c).ask == ask
  }

  /** Nobody else changes what a client is doing, but for a restart of Core. */
  lemma ClientStep(s: State, e: Event, c: nat)
    requires Possible(e, s)
    ensures var t := Apply(e, s);
            && (ClientOf(t, c).Scanning? ==>
                  || (e == TryLock(c, ClientOf(t, c).ask) && ClientOf(t, c).stage == 0 && !ClientOf(t, c).found)
                  || (ClientOf(s, c).Scanning? && ClientOf(s, c).ask == ClientOf(t, c).ask))
            && (ClientOf(t, c).Writing? ==>
                  || ClientOf(s, c).Writing?
                  || (e.Decide? && e.client == c && ClientOf(s, c) == Scanning(|SCANNED|, ConfigWrite, false)))
  {
  }

  lemma {:induction false} ScannerAsked(states: seq<State>, events: seq<Event>, n: nat, c: nat) returns (k: nat)
    requires IsRun(states, events) && Unlocked(states[0]) && n < |states| && ClientOf(states[n], c).Scanning?
    ensures AskedAt(states, events, k, n, c, ClientOf(states[n], c).ask)
  {
    ClientStep(states[n - 1], events[n - 1], c);
    var ask := ClientOf(states[n], c).ask;
    if events[n - 1] == TryLock(c, ask) && ClientOf(states[n - 1], c).Idle? {
      k := n - 1;
    } else {
      k := ScannerAsked(states, events, n - 1, c);
    }
  }

  /** A client writes only if it took the lock for a write, and a complete scan found nothing. */
  lemma {:induction false} WriterAsked(states: seq<State>, events: seq<Event>, n: nat, c: nat) returns (k: nat, m: nat)
    requires IsRun(states, events) && Unlocked(states[0]) && n < |states| && ClientOf(states[n], c).Writing?
    ensures m < n && AskedAt(states, events, k, m, c, ConfigWrite)
    ensures events[m].Decide? && events[m].client == c
      && ClientOf(states[m], c) == Scanning(|SCANNED|, ConfigWrite, false)
  {
    ClientStep(states[n - 1], events[n - 1], c);
    if ClientOf(states[n - 1], c).Writing? {
      k, m := WriterAsked(states, events, n - 1, c);
    } else {
      m := n - 1;
      k := ScannerAsked(states, events, m, c);
    }
  }

  /** A new module job appears only by the decision of a client that took the lock to submit
      exactly that job, and whose complete scan found nothing. */
  lemma JobWasAsked(states: seq<State>, events: seq<Event>, n: nat, id: nat) returns (k: nat, c: nat)
    requires IsRun(states, events) && Unlocked(states[0]) && n < |events|
    requires id !in states[n].jobs && id in states[n + 1].jobs && states[n + 1].jobs[id].forModule
    ensures events[n] == Decide(c, id)
    ensures var job := states[n + 1].jobs[id];
            && job.status == Queued && AskedAt(states, events, k, n, c, Submission(job.install))
            && ClientOf(states[n], c) == Scanning(|SCANNED|, Submission(job.install), false)
  {
    c := events[n].client;
    k := ScannerAsked(states, events, n, c);
  }

  /** A decision on a complete scan: refused if it found anything, and granted if it did not. */
  lemma DecisionGrants(states: seq<State>, events: seq<Event>, n: nat, c: nat, id: nat)
    requires IsRun(states, events) && n < |events| && events[n] == Decide(c, id)
    ensures ClientOf(states[n], c).Scanning? && id !in states[n].jobs
    ensures var k := ClientOf(states[n], c); var t := states[n + 1];
            if k.found || k.ask.Submission? then
              && ClientOf(t, c).Idle? && t.holder.None?
              && t.jobs == if k.found then states[n].jobs else states[n].jobs[id := Job(true, k.ask.install, Queued)]
            else ClientOf(t, c).Writing? && t.holder == states[n].holder && t.jobs == states[n].jobs
  {
  }

  /** A scan has found something only if a module job was active at one of its questions. */
  lemma {:induction false} FindingHasReason(states: seq<State>, events: seq<Event>, n: nat, c: nat)
    returns (k: nat, m: nat, id: nat)
    requires IsRun(states, events) && Unlocked(states[0]) && n < |states|
    requires ClientOf(states[n], c).Scanning? && ClientOf(states[n], c).found
    ensures AskedAt(states, events, k, n, c, ClientOf(states[n], c).ask)
    ensures k < m < n && events[m].List? && events[m].client == c && ActiveModule(states[m].jobs, id)
  {
    var s, e := states[n - 1], events[n - 1];
    ClientStep(s, e, c);
    if ClientOf(s, c).Scanning? && ClientOf(s, c).found {
      k, m, id := FindingHasReason(states, events, n - 1, c);
    } else {
      k := ScannerAsked(states, events, n, c);
      m := n - 1;
      id :| id in e.page && s.jobs[id].forModule;
    }
  }

  // ------------------------------------------------- what a harmful recovery leads to

  /** Everything that is not for a module has ended. */
  function Quieted(jobs: Jobs): Jobs {
    map id | id in jobs :: if jobs[id].forModule then jobs[id] else jobs[id].(status := Finished)
  }

  lemma {:induction false} FreshId(ids: set<nat>) returns (n: nat)
    ensures forall id :: id in ids ==> id < n
  {
    if ids == {} {
      n := 0;
    } else {
      var id :| id in ids;
      var m := FreshId(ids - {id});
      n := if m <= id then id + 1 else m;
      forall i | i in ids ensures i < n {
        assert i == id || i in ids - {id};
      }
    }
  }

  /** After the recovery, and once other jobs have ended, the scan finds nothing more. */
  lemma NothingAhead(s: State, stage: nat)
    requires Inv(s) && 0 < stage < |SCANNED|
    ensures WithStatus(Quieted(Apply(Recover, s).jobs), SCANNED[stage]) == {}
  {
    var jobs := Quieted(Apply(Recover, s).jobs);
    forall id | id in WithStatus(jobs, SCANNED[stage]) ensures false {
      RecoveryActivates(s, id);
      assert false;
    }
  }

  lemma EmptyPage(s: State, c: nat, k: Client)
    requires c in s.clients && s.clients[c] == k && k.Scanning? && k.stage < |SCANNED|
    requires WithStatus(s.jobs, SCANNED[k.stage]) == {}
    ensures Possible(List(c, {}), s)
    ensures Apply(List(c, {}), s) == s.(clients := s.clients[c := k.(stage := k.stage + 1)])
  {
  }

  lemma Prepended(s: State, e: Event, states: seq<State>, events: seq<Event>)
    requires IsRun(states, events) && Possible(e, s) && states[0] == Apply(e, s)
    ensures IsRun([s] + states, [e] + events) && ([s] + states)[|events| + 1] == states[|events|]
  {
    forall i | 0 <= i < |events| + 1
      ensures Possible(([e] + events)[i], ([s] + states)[i])
      ensures ([s] + states)[i + 1] == Apply(([e] + events)[i], ([s] + states)[i])
    {
      if i > 0 {
        assert ([e] + events)[i] == events[i - 1] && ([s] + states)[i] == states[i - 1];
      }
    }
  }

  /** A scan that has one module job behind it, and none ahead, goes on to admit another or a write. */
  lemma ScanMissesJob(s: State, c: nat, k: Client, id: nat) returns (states: seq<State>, events: seq<Event>)
    requires c in s.clients && s.clients[c] == k && k.Scanning? && !k.found && 0 < k.stage <= |SCANNED|
    requires ActiveModule(s.jobs, id)
    requires forall stage :: 0 < stage < |SCANNED| ==> WithStatus(s.jobs, SCANNED[stage]) == {}
    ensures IsRun(states, events) && states[0] == s && !Exclusive(states[|events|])
    ensures forall i :: 0 <= i < |events| ==> !events[i].Recover?
    decreases |SCANNED| - k.stage
  {
    if k.stage == |SCANNED| {
      var next := FreshId(s.jobs.Keys);
      assert next !in s.jobs;
      Admitted(s, c, id, next);
      events := [Decide(c, next)];
      states := [s, Apply(Decide(c, next), s)];
    } else {
      EmptyPage(s, c, k);
      var t := Apply(List(c, {}), s);
      states, events := ScanMissesJob(t, c, k.(stage := k.stage + 1), id);
      Prepended(s, List(c, {}), states, events);
      states, events := [s] + states, [List(c, {})] + events;
    }
  }

  /** The installation is back in the queue, and every other kind of job has ended. */
  lemma Settled(s: State, id: nat) returns (u: State)
    requires Inv(s) && id in s.jobs && s.jobs[id] == Job(true, true, Running)
    ensures u == Apply(Recover, s).(jobs := u.jobs) && Possible(Move(u.jobs), Apply(Recover, s))
    ensures ActiveModule(u.jobs, id)
    ensures forall stage :: 0 < stage < |SCANNED| ==> WithStatus(u.jobs, SCANNED[stage]) == {}
  {
    RecoveryActivates(s, id);
    u := Apply(Recover, s).(jobs := Quieted(Apply(Recover, s).jobs));
    forall stage | 0 < stage < |SCANNED| ensures WithStatus(u.jobs, SCANNED[stage]) == {} {
      NothingAhead(s, stage);
    }
  }

  /** The condition is exact for the theorem as well: from every state in which a recovery is
      harmful it leads to a module job or a write beside the installation. */
  lemma HarmfulRecoveryBreaks(s: State) returns (states: seq<State>, events: seq<Event>)
    requires Inv(s) && !Harmless(s)
    ensures IsRun(states, events) && states[0] == s && !Exclusive(states[|events|])
    ensures |events| > 0 && events[0] == Recover && forall i :: 0 < i < |events| ==> !events[i].Recover?
  {
    var c, id := Harm(s);
    var t := Apply(Recover, s);
    var u := Settled(s, id);
    states, events := ScanMissesJob(u, c, s.clients[c], id);
    Prepended(t, Move(u.jobs), states, events);
    states, events := [t] + states, [Move(u.jobs)] + events;
    Prepended(s, Recover, states, events);
    states, events := [s] + states, [Recover] + events;
  }

  /** Whatever is admitted while a module job is active breaks the exclusion. */
  lemma Admitted(s: State, c: nat, id: nat, next: nat)
    requires Possible(Decide(c, next), s) && !ClientOf(s, c).found && ActiveModule(s.jobs, id)
    ensures !Exclusive(Apply(Decide(c, next), s))
  {
    var t := Apply(Decide(c, next), s);
    assert ActiveModule(t.jobs, id);
    if ClientOf(s, c).ask.ConfigWrite? {
      assert c in t.clients && t.clients[c].Writing?;
    } else {
      assert ActiveModule(t.jobs, next) && next != id;
    }
  }

  /** One installation that a stop of Core has interrupted, and a first request after the restart. */
  function Interrupted(stage: nat): State {
    State(map[0 := Job(true, true, Running)], map[7 := Scanning(stage, Submission(false), false)], Some(7))
  }

  lemma Unguarded()
    ensures !Harmless(Interrupted(1))
  {
    var s := Interrupted(1);
    assert 7 in s.clients && s.clients[7].stage == 1 && 0 in s.jobs && s.jobs[0].status == Running;
  }

  /** Such states are reached: a recovery between the first and the second question moves an
      interrupted installation behind the scan, and a second module job is admitted. */
  lemma RecoveryInsideScanAdmitsTwo() returns (states: seq<State>, events: seq<Event>)
    ensures IsRun(states, events) && Inv(states[0]) && !Exclusive(states[|events|])
    ensures states[0] == Interrupted(0)
  {
    var s, t := Interrupted(0), Interrupted(1);
    assert Inv(s);
    EmptyPage(s, 7, Scanning(0, Submission(false), false));
    assert s.clients[7 := Scanning(1, Submission(false), false)] == t.clients;
    ListKeepsInv(s, 7, {});
    Unguarded();
    states, events := HarmfulRecoveryBreaks(t);
    Prepended(s, List(7, {}), states, events);
    states, events := [s] + states, [List(7, {})] + events;
  }

  // -------------------------------------------------- the scan as the code runs it

  datatype Answer = Granted | InProgress | Failed

  class JobTable {
    var jobs: Jobs
    var locked: bool               // moduleSubmitMu
    var sent: nat                  // requests that went on to the module's own interface
    ghost var faults: nat          // what failed by itself: a list, a list that was too long, a store, a request

    constructor (jobs: Jobs)
      ensures this.jobs == jobs && !locked
    {
      this.jobs, locked, sent, faults := jobs, false, 0, 0;
    }

    /** Workers, cancellations, and submissions of other kinds, between two questions. While the
        lock is held nobody else submits a module job; without it there is no such promise. */
    method Others()
      requires locked
      modifies this`jobs
      ensures Forward(old(jobs), jobs) && NoNewJob(old(jobs), jobs)
    {
      var next: Jobs := *;
      if Forward(jobs, next) {
        forall id | ActiveModule(next, id) ensures ActiveModule(jobs, id) { ActiveBefore(jobs, next, id); }
        jobs := next;
      }
    }

    /** One question to the job list. */
    method ListJobs(status: Status) returns (ok: bool, page: set<nat>)
      modifies this`faults
      ensures ok ==> Page(jobs, status, page)
      ensures old(faults) <= faults && (faults == old(faults) ==> ok && |page| < LIMIT)
    {
      ok := *;
      page := WithStatus(jobs, status);
      faults := if ok && |page| < LIMIT then faults else faults + 1;
    }

    /** activeModuleJobs. Unless it answers with an error, it has found every module job that is
        active at the end, and only jobs that were active at the beginning, although the table
        kept changing in between; and it answers with an error only if a list did. */
    method ActiveModuleJobs() returns (ok: bool, found: set<nat>)
      requires locked
      modifies this`jobs, this`faults
      ensures ok ==> forall id :: ActiveModule(jobs, id) ==> id in found
      ensures ok ==> forall id :: id in found ==> ActiveModule(old(jobs), id)
      ensures NoNewJob(old(jobs), jobs)
      ensures old(faults) <= faults && (faults == old(faults) ==> ok)
    {
      found, ok := {}, true;
      for i := 0 to |SCANNED|
        invariant NoNewJob(old(jobs), jobs)
        invariant forall id :: ActiveModule(jobs, id) && Rank(jobs[id].status) < i ==> id in found
        invariant forall id :: id in found ==> ActiveModule(old(jobs), id)
        invariant ok && old(faults) <= faults
      {
        ghost var before := jobs;
        Others();
        forall id | ActiveModule(jobs, id)
          ensures ActiveModule(before, id) && Rank(before[id].status) <= Rank(jobs[id].status)
        {
          ActiveBefore(before, jobs, id);
        }
        var page;
        ok, page := ListJobs(SCANNED[i]);
        if !ok || |page| >= LIMIT { return false, found; }
        assert forall id :: ActiveModule(jobs, id) && Rank(jobs[id].status) == i ==> jobs[id].status == SCANNED[i];
        found := found + (set id | id in page && jobs[id].forModule);
      }
    }

    /** jobs.Submit: the store takes the new record, under an identity of its own choice, or does not. */
    method Store(job: Job) returns (ok: bool, id: nat)
      requires locked
      modifies this`jobs, this`faults
      ensures ok ==> id !in old(jobs) && jobs == old(jobs)[id := job]
      ensures !ok ==> jobs == old(jobs)
      ensures old(faults) <= faults && (faults == old(faults) ==> ok)
    {
      ok, id := *, 0;
      if ok {
        ghost var bound := FreshId(jobs.Keys);
        while id in jobs
          invariant id <= bound
          decreases bound - id
        {
          id := id + 1;
        }
        jobs := jobs[id := job];
      }
      faults := if ok then faults else faults + 1;
    }

    /** submitModuleJob. `seen`: the table when the decision fell. A granted submission has put
        exactly its job into the queue, at a moment without any active module job; every other
        answer has put nothing there. It is refused if the lock is taken, or if a module job was
        active from beginning to end; if none was active at the beginning, it is granted. */
    method SubmitModuleJob(install: bool) returns (answer: Answer, id: nat, ghost seen: Jobs)
      modifies this`jobs, this`locked, this`faults
      ensures locked == old(locked) && NoNewJob(old(jobs), seen) && old(faults) <= faults
      ensures old(locked) ==> answer.InProgress? && seen == old(jobs)
      ensures answer.Granted? ==> NoModuleJob(seen) && id !in seen && jobs == seen[id := Job(true, install, Queued)]
      ensures !answer.Granted? ==> jobs == seen
      ensures answer.InProgress? ==> old(locked) || !NoModuleJob(old(jobs))
      ensures !old(locked) && faults == old(faults) && NoModuleJob(old(jobs)) ==> answer.Granted?
      ensures !old(locked) && faults == old(faults) && !NoModuleJob(seen) ==> answer.InProgress?
    {
      id, seen := 0, jobs;
      if locked { return InProgress, id, seen; }
      locked := true;
      var ok, found;
      ok, found := ActiveModuleJobs();
      seen := jobs;
      if !ok {
        answer := Failed;
      } else if found != {} {
        answer := InProgress;
      } else {
        ok, id := Store(Job(true, install, Queued));
        answer := if ok then Granted else Failed;
      }
      locked := false;
    }

    /** The gateway to Frigate's own interface. `enabled`: the module is, and the body is in order.
        A configuration write goes on, under the lock, only at a moment without any active module
        job, and none becomes active before it is answered; it is refused exactly as a submission
        is. A read asks for no lock. */
    method Gateway(mutation: bool, enabled: bool) returns (answer: Answer, ghost seen: Jobs)
      modifies this`jobs, this`locked, this`sent, this`faults
      ensures locked == old(locked) && NoNewJob(old(jobs), seen) && NoNewJob(seen, jobs) && old(faults) <= faults
      ensures old(sent) <= sent <= old(sent) + 1 && (answer.Granted? ==> sent > old(sent))
      ensures sent > old(sent) ==> enabled && (mutation ==> !old(locked) && NoModuleJob(seen) && NoModuleJob(jobs))
      ensures sent == old(sent) ==> jobs == seen
      ensures mutation && old(locked) ==> answer.InProgress? && seen == old(jobs)
      ensures answer.InProgress? ==> mutation && sent == old(sent) && (old(locked) || !NoModuleJob(old(jobs)))
      ensures faults == old(faults) && (mutation ==> !old(locked) && NoModuleJob(old(jobs))) ==>
        answer == if enabled then Granted else Failed
      ensures mutation && !old(locked) && faults == old(faults) && !NoModuleJob(seen) ==> answer.InProgress?
    {
      seen := jobs;
      if mutation {
        if locked { return InProgress, seen; }
        locked := true;
        var ok, found;
        ok, found := ActiveModuleJobs();
        seen := jobs;
        if !ok || found != {} {
          locked := false;
          return if ok then InProgress else Failed, seen;
        }
      }
      if enabled {
        sent := sent + 1;
        if mutation { Others(); }
        var ok: bool := *;
        faults := if ok then faults else faults + 1;
        answer := if ok then Granted else Failed;
      } else {
        answer := Failed;
      }
      if mutation { locked := false; }
    }
  }
}

/** Admission of file writes under folder and per-user quotas. One lock serializes every
    mutation, so each request below is one atomic step. */
module FileQuota {
  import opened Faults

  const MAX_QUOTA: nat := 0x1F_FFFF_FFFF_FFFF      // 2^53 - 1
  const MAX_INT64: nat := 0x7FFF_FFFF_FFFF_FFFF
  const MAX_CHUNK: nat := 0x80_0000                // 8 MiB

  /** An upload session. It is listed, and its size reserved, only while the directory of its
      target exists. */
  datatype Upload = Upload(id: nat, total: nat, received: nat, listed: bool)

  /** `used` counts every file of the folder, the recycle bin with its own records included,
      but no upload parts. A quota of 0 is none. */
  datatype Folder = Folder(private: bool, owner: string, quota: nat, used: nat, uploads: seq<Upload>)

  function Reserved(uploads: seq<Upload>): nat {
    if uploads == [] then 0 else (if uploads[0].listed then uploads[0].total else 0) + Reserved(uploads[1..])
  }

  function Load(f: Folder): nat {
    f.used + Reserved(f.uploads)
  }

  function LoadFor(f: Folder, user: string): nat {
    if f.private && f.owner == user then Load(f) else 0
  }

  /** Everything in the private folders of one user. */
  function UserLoad(folders: seq<Folder>, user: string): nat {
    if folders == [] then 0 else LoadFor(folders[0], user) + UserLoad(folders[1..], user)
  }

  predicate Fits(load: int, quota: nat) {
    quota > 0 ==> load <= quota
  }

  function UserQuota(quotas: map<string, nat>, f: Folder): nat {
    if f.private && f.owner in quotas then quotas[f.owner] else 0
  }

  /** No set quota is exceeded by what is used and reserved. */
  predicate WithinQuotas(folders: seq<Folder>, quotas: map<string, nat>) {
    && (forall i :: 0 <= i < |folders| ==> Fits(Load(folders[i]), folders[i].quota))
    && (forall u :: u in quotas ==> Fits(UserLoad(folders, u), quotas[u]))
  }

  /** Room for so many more bytes in this folder, under its own quota and its owner's. */
  predicate RoomFor(folders: seq<Folder>, quotas: map<string, nat>, i: nat, more: int)
    requires i < |folders|
  {
    && Fits(Load(folders[i]) + more, folders[i].quota)
    && Fits(UserLoad(folders, folders[i].owner) + more, UserQuota(quotas, folders[i]))
  }

  predicate WellFormed(folders: seq<Folder>) {
    forall i, k :: 0 <= i < |folders| && 0 <= k < |folders[i].uploads| ==>
      folders[i].uploads[k].received <= folders[i].uploads[k].total
  }

  // ------------------------------------------------------------- sums under change

  lemma {:induction false} ReservedSplits(a: seq<Upload>, b: seq<Upload>)
    ensures Reserved(a + b) == Reserved(a) + Reserved(b)
  {
    if a == [] {
      assert a + b == b;
    } else {
      assert (a + b)[1..] == a[1..] + b;
      ReservedSplits(a[1..], b);
    }
  }

  lemma ReservedAt(uploads: seq<Upload>, k: nat)
    requires k < |uploads|
    ensures Reserved(uploads) ==
            Reserved(uploads[..k] + uploads[k + 1..]) + (if uploads[k].listed then uploads[k].total else 0)
  {
    AroundOne(uploads, k);
    ReservedBetween(uploads[..k], uploads[k], uploads[k + 1..]);
  }

  lemma AroundOne(uploads: seq<Upload>, k: nat)
    requires k < |uploads|
    ensures uploads == uploads[..k] + ([uploads[k]] + uploads[k + 1..])
  {
  }

  lemma ReservedBetween(a: seq<Upload>, u: Upload, b: seq<Upload>)
    ensures Reserved(a + ([u] + b)) == Reserved(a + b) + (if u.listed then u.total else 0)
  {
    ReservedSplits(a, [u] + b);
    ReservedSplits(a, b);
    assert ([u] + b)[1..] == b;
  }

  lemma {:induction false} UserLoadChanges(folders: seq<Folder>, i: nat, f: Folder, user: string)
    requires i < |folders|
    ensures UserLoad(folders[i := f], user) == UserLoad(folders, user) - LoadFor(folders[i], user) + LoadFor(f, user)
  {
    if i == 0 {
      assert folders[0 := f][1..] == folders[1..];
    } else {
      assert folders[i := f][1..] == folders[1..][i - 1 := f];
      UserLoadChanges(folders[1..], i - 1, f, user);
    }
  }

  lemma {:induction false} UserLoadSplits(a: seq<Folder>, b: seq<Folder>, user: string)
    ensures UserLoad(a + b, user) == UserLoad(a, user) + UserLoad(b, user)
  {
    if a == [] {
      assert a + b == b;
    } else {
      assert (a + b)[1..] == a[1..] + b;
      UserLoadSplits(a[1..], b, user);
    }
  }

  /** The same folder with another load. */
  predicate Reloaded(f: Folder, g: Folder) {
    g == f.(used := g.used, uploads := g.uploads)
  }

  /** A change of one folder's load keeps every quota exactly when there was room for it;
      a change that does not grow the load always does. */
  lemma ChangeKeepsQuotasExactly(folders: seq<Folder>, quotas: map<string, nat>, i: nat, f: Folder)
    requires i < |folders| && WithinQuotas(folders, quotas) && Reloaded(folders[i], f)
    ensures WithinQuotas(folders[i := f], quotas) <==> RoomFor(folders, quotas, i, Load(f) - Load(folders[i]))
    ensures Load(f) <= Load(folders[i]) ==> WithinQuotas(folders[i := f], quotas)
  {
    var after := folders[i := f];
    forall u ensures UserLoad(after, u) == UserLoad(folders, u) - LoadFor(folders[i], u) + LoadFor(f, u) {
      UserLoadChanges(folders, i, f, u);
    }
    assert Fits(Load(folders[i]), folders[i].quota);
    if WithinQuotas(after, quotas) {
      assert Fits(Load(after[i]), after[i].quota);
      if f.private && f.owner in quotas {
        assert Fits(UserLoad(after, f.owner), quotas[f.owner]);
      }
    }
  }

  /** Admission guarantees completion: whatever else happened, as long as the quotas hold, a
      listed session still has room for all the bytes it is waiting for, on its own credit. */
  lemma SessionAlwaysHasRoom(folders: seq<Folder>, quotas: map<string, nat>, i: nat, k: nat, n: nat)
    requires WithinQuotas(folders, quotas) && i < |folders| && k < |folders[i].uploads|
    requires n <= folders[i].uploads[k].total - folders[i].uploads[k].received
    ensures RoomFor(folders, quotas, i, n - (folders[i].uploads[k].total - folders[i].uploads[k].received))
  {
    assert Fits(Load(folders[i]), folders[i].quota);
    if folders[i].owner in quotas {
      assert Fits(UserLoad(folders, folders[i].owner), quotas[folders[i].owner]);
    }
  }

  lemma LoadIsBounded(folders: seq<Folder>, quotas: map<string, nat>, i: nat)
    requires WithinQuotas(folders, quotas) && i < |folders|
    ensures folders[i].quota > 0 ==> Load(folders[i]) <= folders[i].quota
    ensures UserQuota(quotas, folders[i]) > 0 ==>
      Load(folders[i]) <= UserLoad(folders, folders[i].owner) <= UserQuota(quotas, folders[i])
  {
    assert Fits(Load(folders[i]), folders[i].quota);
    if folders[i].owner in quotas {
      assert Fits(UserLoad(folders, folders[i].owner), quotas[folders[i].owner]);
    }
    assert folders == folders[..i] + ([folders[i]] + folders[i + 1..]);
    UserLoadSplits(folders[..i], [folders[i]] + folders[i + 1..], folders[i].owner);
    UserLoadSplits([folders[i]], folders[i + 1..], folders[i].owner);
    assert UserLoad([folders[i]], folders[i].owner) == LoadFor(folders[i], folders[i].owner);
  }

  /** The sums that a request at this folder needs stay within 64 bits. */
  predicate Countable(folders: seq<Folder>, i: nat)
    requires i < |folders|
  {
    Load(folders[i]) <= MAX_INT64 && UserLoad(folders, folders[i].owner) <= MAX_INT64
  }

  datatype Request =
    | AddFolder(private: bool, owner: string)
    | SetUserQuota(user: string, quota: int)
    | SetFolderQuota(i: nat, quota: int)
    | Put(i: nat, size: nat, replaced: nat, available: nat)
    | CreateUpload(i: nat, total: nat, available: nat)
    | AppendChunk(i: nat, k: nat, size: nat, available: nat)
    | CompleteUpload(i: nat, k: nat)
    | CancelUpload(i: nat, k: nat)
    | Rearrange(i: nat, bytes: int, listed: set<nat>)

  function Rearranged(f: Folder, bytes: int, listed: set<nat>): Folder
    requires f.used + bytes >= 0
  {
    f.(used := f.used + bytes,
       uploads := seq(|f.uploads|,
         k requires 0 <= k < |f.uploads| => f.uploads[k].(listed := f.uploads[k].id in listed)))
  }

  function Without(f: Folder, k: nat): Folder
    requires k < |f.uploads|
  {
    f.(uploads := f.uploads[..k] + f.uploads[k + 1..])
  }

  // ---------------------------------------------- what a store within its quotas answers

  datatype State = State(folders: seq<Folder>, quotas: map<string, nat>, nextId: nat)

  predicate Writable(s: State, i: nat, size: nat, available: nat)
    requires i < |s.folders|
  {
    size <= available && (size > 0 ==> RoomFor(s.folders, s.quotas, i, size))
  }

  /** The folder after a request to it, or nothing if the request is refused. */
  function FolderAfter(s: State, q: Request): Option<Folder>
    requires !q.AddFolder? && !q.SetUserQuota? && q.i < |s.folders|
  {
    var f := s.folders[q.i];
    match q
    case SetFolderQuota(_, quota) =>
      if 0 <= quota <= MAX_QUOTA && Fits(Load(f), quota) && f.used <= MAX_INT64 && Reserved(f.uploads) <= MAX_INT64
      then Some(f.(quota := quota)) else None
    case Put(i, size, replaced, available) =>
      if replaced <= f.used && Writable(s, i, size, available) then Some(f.(used := f.used - replaced + size)) else None
    case CreateUpload(i, total, available) =>
      if Writable(s, i, total, available) then Some(f.(uploads := f.uploads + [Upload(s.nextId, total, 0, true)]))
        else None
    case AppendChunk(_, k, size, available) =>
      if k < |f.uploads| && TakesChunk(f.uploads[k], size, available)
      then Some(f.(uploads := f.uploads[k := f.uploads[k].(received := f.uploads[k].received + size)])) else None
    case CompleteUpload(_, k) =>
      if k < |f.uploads| && f.uploads[k].listed && f.uploads[k].received == f.uploads[k].total
      then Some(Without(f, k).(used := f.used + f.uploads[k].total)) else None
    case CancelUpload(_, k) =>
      if k < |f.uploads| && f.uploads[k].listed then Some(Without(f, k)) else None
    case Rearrange(_, bytes, listed) =>
      if f.used + bytes >= 0 then Some(Rearranged(f, bytes, listed)) else None
    case _ => None
  }

  /** No quota is asked: what an admitted session waits for is reserved. */
  predicate TakesChunk(u: Upload, size: nat, available: nat) {
    u.listed && 0 < size <= available && size <= MAX_CHUNK && u.received + size <= u.total
  }

  function NewSessions(q: Request): nat {
    if q.CreateUpload? then 1 else 0
  }

  function StateAfter(s: State, q: Request): State {
    match q
    case AddFolder(private, owner) => s.(folders := s.folders + [Folder(private, owner, 0, 0, [])])
    case SetUserQuota(user, quota) =>
      if 0 <= quota <= MAX_QUOTA && Fits(UserLoad(s.folders, user), quota) then s.(quotas := s.quotas[user := quota])
      else s
    case _ =>
      if q.i >= |s.folders| then s
      else match FolderAfter(s, q)
        case None => s
        case Some(f) => s.(folders := s.folders[q.i := f], nextId := s.nextId + NewSessions(q))
  }

  /** What no quota is asked about fits by itself. */
  predicate FitsAt(s: State, q: Request) {
    q.Rearrange? && q.i < |s.folders| && s.folders[q.i].used + q.bytes >= 0 ==>
      var f := s.folders[q.i];
      RoomFor(s.folders, s.quotas, q.i, Load(Rearranged(f, q.bytes, q.listed)) - Load(f))
  }

  predicate Answerable(s: State, q: Request) {
    FitsAt(s, q) && Sized(s.folders, q)
  }

  /** The sum that the request asks for stays within 64 bits. */
  predicate Sized(folders: seq<Folder>, q: Request) {
    q.SetUserQuota? ==> UserLoad(folders, q.user) <= MAX_INT64
  }

  function StateAfterAll(s: State, requests: seq<Request>): State {
    if requests == [] then s
    else StateAfter(StateAfterAll(s, requests[..|requests| - 1]), requests[|requests| - 1])
  }

  class FileStore {
    var folders: seq<Folder>
    var userQuotas: map<string, nat>
    var nextId: nat

    ghost predicate Valid()
      reads this
    {
      && WellFormed(folders)
      && (forall i :: 0 <= i < |folders| ==> folders[i].quota <= MAX_QUOTA)
      && (forall u :: u in userQuotas ==> userQuotas[u] <= MAX_QUOTA)
      && (forall i, k :: 0 <= i < |folders| && 0 <= k < |folders[i].uploads| ==> folders[i].uploads[k].id < nextId)
    }

    ghost predicate Kept()
      reads this
    {
      Valid() && WithinQuotas(folders, userQuotas)
    }

    constructor ()
      ensures Kept() && folders == [] && userQuotas == map[]
    {
      folders, userQuotas, nextId := [], map[], 0;
    }

    // --------------------------------------------------------------- usage

    /** folderUsage: the walk's total, and the sum over the listed sessions. */
    method FolderUsage(f: Folder) returns (ok: bool, used: nat, reserved: nat)
      ensures ok ==> used == f.used && reserved == Reserved(f.uploads) && used <= MAX_INT64 && reserved <= MAX_INT64
      ensures f.used <= MAX_INT64 && Reserved(f.uploads) <= MAX_INT64 ==> ok
    {
      used, reserved, ok := f.used, 0, f.used <= MAX_INT64;
      if !ok { return; }
      for k := 0 to |f.uploads|
        invariant reserved == Reserved(f.uploads[..k]) && reserved <= MAX_INT64 && ok
      {
        assert f.uploads[..k + 1] == f.uploads[..k] + [f.uploads[k]];
        ReservedSplits(f.uploads[..k], [f.uploads[k]]);
        assert f.uploads == f.uploads[..k + 1] + f.uploads[k + 1..];
        ReservedSplits(f.uploads[..k + 1], f.uploads[k + 1..]);
        assert Reserved([f.uploads[k]]) == if f.uploads[k].listed then f.uploads[k].total else 0;
        if f.uploads[k].listed {
          if f.uploads[k].total > MAX_INT64 - reserved { return false, 0, 0; }
          reserved := reserved + f.uploads[k].total;
        }
      }
      assert f.uploads[..|f.uploads|] == f.uploads;
    }

    /** privateUserUsage: the sum over that user's private folders. */
    method PrivateUserUsage(user: string) returns (ok: bool, used: nat, reserved: nat)
      ensures ok ==> used + reserved == UserLoad(folders, user)
      ensures UserLoad(folders, user) <= MAX_INT64 ==> ok
    {
      ok, used, reserved := true, 0, 0;
      for i := 0 to |folders|
        invariant ok && used + reserved == UserLoad(folders[..i], user)
      {
        assert folders[..i + 1] == folders[..i] + [folders[i]] && folders == folders[..i + 1] + folders[i + 1..];
        UserLoadSplits(folders[..i], [folders[i]], user);
        UserLoadSplits(folders[..i + 1], folders[i + 1..], user);
        assert UserLoad([folders[i]], user) == LoadFor(folders[i], user);
        if folders[i].private && folders[i].owner == user {
          var good, u, r := FolderUsage(folders[i]);
          if !good || u > MAX_INT64 - used || r > MAX_INT64 - reserved { return false, 0, 0; }
          used, reserved := used + u, reserved + r;
        }
      }
      assert folders[..|folders|] == folders;
    }

    /** fileWriteAllowance, given what the pool has left. The allowance is the largest number of
        bytes that the pool and both quotas have room for, a session being credited what it
        still waits for. */
    method WriteAllowance(i: nat, credit: nat, available: nat) returns (ok: bool, allowance: nat)
      requires i < |folders|
      ensures ok ==> allowance <= available
      ensures Kept() || Countable(folders, i) ==> ok
      ensures ok && allowance > 0 ==> RoomFor(folders, userQuotas, i, allowance - credit)
      ensures ok && allowance < available ==> !RoomFor(folders, userQuotas, i, allowance + 1 - credit)
    {
      allowance, ok := available, true;
      var f := folders[i];
      var userQuota := UserQuota(userQuotas, f);
      if f.quota == 0 && userQuota == 0 { return; }
      if WithinQuotas(folders, userQuotas) {
        LoadIsBounded(folders, userQuotas, i);
      }
      var used, reserved;
      ok, used, reserved := FolderUsage(f);
      if !ok { return; }
      if f.quota > 0 {
        allowance := Min(allowance, Max(0, f.quota - used - reserved + credit));
      }
      if userQuota > 0 {
        ok, used, reserved := PrivateUserUsage(f.owner);
        if !ok { return; }
        allowance := Min(allowance, Max(0, userQuota - used - reserved + credit));
      }
    }

    static function Min(a: int, b: int): int { if a < b then a else b }

    static function Max(a: int, b: int): int { if a > b then a else b }

    // ------------------------------------------------------------ the requests

    /** One folder's new load. */
    method Store(i: nat, f: Folder)
      requires i < |folders| && Valid() && Reloaded(folders[i], f)
      requires forall k :: 0 <= k < |f.uploads| ==>
        f.uploads[k].received <= f.uploads[k].total && f.uploads[k].id < nextId
      modifies this`folders
      ensures Valid() && folders == old(folders)[i := f]
      ensures old(Kept()) ==> (Kept() <==> RoomFor(old(folders), userQuotas, i, Load(f) - Load(old(folders)[i])))
      ensures old(Kept()) && Load(f) <= Load(old(folders)[i]) ==> Kept()
    {
      if WithinQuotas(folders, userQuotas) {
        ChangeKeepsQuotasExactly(folders, userQuotas, i, f);
      }
      folders := folders[i := f];
    }

    /** PUT of a whole file of `size` bytes, over an old one of `replaced` bytes. */
    method Put(i: nat, size: nat, replaced: nat, available: nat) returns (ok: bool)
      requires i < |folders| && Valid() && replaced <= folders[i].used
      modifies this`folders
      ensures Valid() && (old(Kept()) ==> Kept())
      ensures ok ==> folders == old(folders)[i := old(folders)[i].(used := old(folders)[i].used - replaced + size)]
      ensures ok ==> size <= available && (size > 0 ==> RoomFor(old(folders), userQuotas, i, size))
      ensures old(Kept()) || Countable(old(folders), i) ==>
        (ok <==> size <= available && (size > 0 ==> RoomFor(old(folders), userQuotas, i, size)))
      ensures !ok ==> folders == old(folders)
    {
      var allowance;
      ok, allowance := WriteAllowance(i, 0, available);
      ok := ok && size <= allowance;
      if !ok { return; }
      Store(i, folders[i].(used := folders[i].used - replaced + size));
    }

    /** POST of a session: the whole size is reserved at once. */
    method CreateUpload(i: nat, total: nat, available: nat) returns (ok: bool, id: nat)
      requires i < |folders| && Valid()
      modifies this`folders, this`nextId
      ensures Valid() && (old(Kept()) ==> Kept())
      ensures ok ==> total <= available && (total > 0 ==> RoomFor(old(folders), userQuotas, i, total))
      ensures old(Kept()) || Countable(old(folders), i) ==>
        (ok <==> total <= available && (total > 0 ==> RoomFor(old(folders), userQuotas, i, total)))
      ensures ok ==> forall k :: 0 <= k < |old(folders)[i].uploads| ==> old(folders)[i].uploads[k].id != id
      ensures id == old(nextId) && nextId == if ok then id + 1 else id
      ensures ok ==>
        folders ==
          old(folders)[i := old(folders)[i].(uploads := old(folders)[i].uploads + [Upload(id, total, 0, true)])]
      ensures !ok ==> folders == old(folders)
    {
      id := nextId;
      var allowance;
      ok, allowance := WriteAllowance(i, 0, available);
      ok := ok && total <= allowance;
      if !ok { return; }
      ReservedSplits(folders[i].uploads, [Upload(id, total, 0, true)]);
      assert Reserved([Upload(id, total, 0, true)]) == total;
      nextId := nextId + 1;
      Store(i, folders[i].(uploads := folders[i].uploads + [Upload(id, total, 0, true)]));
    }

    /** PUT of the next chunk, up to a limit: as many bytes as the quotas have room for on the
        session's own credit, the pool has left, and one chunk may have. When the quotas hold and
        the pool has the bytes, no quota ever stands in the way of those a session waits for. */
    method AppendChunk(i: nat, k: nat, size: nat, available: nat) returns (ok: bool, limit: nat)
      requires i < |folders| && k < |folders[i].uploads| && Valid()
      modifies this`folders
      ensures Valid() && (old(Kept()) ==> Kept())
      ensures var u := old(folders)[i].uploads[k];
        && (ok <==> u.listed && 0 < size <= limit && u.received + size <= u.total)
        && (ok ==> folders == old(folders)[i := old(folders)[i].(uploads :=
                                  old(folders)[i].uploads[k := u.(received := u.received + size)])])
        && (!ok ==> folders == old(folders))
      ensures limit <= available && limit <= MAX_CHUNK
      ensures var u := old(folders)[i].uploads[k];
        && (limit > 0 ==> RoomFor(old(folders), userQuotas, i, limit - (u.total - u.received)))
        && ((old(Kept()) || Countable(old(folders), i)) && u.listed && limit < available && limit < MAX_CHUNK ==>
              !RoomFor(old(folders), userQuotas, i, limit + 1 - (u.total - u.received)))
      ensures old(Kept()) ==> (ok <==> TakesChunk(old(folders)[i].uploads[k], size, available))
      ensures var u := old(folders)[i].uploads[k];
        old(Kept()) && u.listed && available >= u.total - u.received ==> limit >= Min(MAX_CHUNK, u.total - u.received)
    {
      var u := folders[i].uploads[k];
      limit, ok := 0, false;
      if !u.listed { return; }
      var allowance;
      ok, allowance := WriteAllowance(i, u.total - u.received, available);
      if WithinQuotas(folders, userQuotas) && allowance + 1 <= u.total - u.received {
        SessionAlwaysHasRoom(folders, userQuotas, i, k, allowance + 1);
      }
      if !ok || allowance == 0 { return false, 0; }
      limit := Min(MAX_CHUNK, allowance);
      ok := u.received < u.total && 0 < size <= limit && u.received + size <= u.total;
      if !ok { return; }
      var more := folders[i].uploads[k := u.(received := u.received + size)];
      ReservedAt(folders[i].uploads, k);
      ReservedAt(more, k);
      assert more[..k] + more[k + 1..] == folders[i].uploads[..k] + folders[i].uploads[k + 1..];
      Store(i, folders[i].(uploads := more));
    }

    /** The finished part becomes a file: what was reserved is now used. */
    method CompleteUpload(i: nat, k: nat) returns (ok: bool)
      requires i < |folders| && k < |folders[i].uploads| && Valid()
      modifies this`folders
      ensures Valid() && (old(Kept()) ==> Kept())
      ensures var u := old(folders)[i].uploads[k];
        ok <==> u.listed && u.received == u.total
      ensures |folders| == |old(folders)| && Load(folders[i]) == Load(old(folders)[i])
      ensures ok ==>
        var f := old(folders)[i];
        folders == old(folders)[i := Without(f, k).(used := f.used + f.uploads[k].total)]
      ensures !ok ==> folders == old(folders)
    {
      var u := folders[i].uploads[k];
      ok := u.listed && u.received == u.total;
      if !ok { return; }
      ReservedAt(folders[i].uploads, k);
      Store(i, Without(folders[i], k).(used := folders[i].used + u.total));
    }

    /** The session is gone, and what it had reserved is free. */
    method CancelUpload(i: nat, k: nat) returns (ok: bool)
      requires i < |folders| && k < |folders[i].uploads| && Valid()
      modifies this`folders
      ensures Valid() && (old(Kept()) ==> Kept())
      ensures ok <==> old(folders)[i].uploads[k].listed
      ensures ok ==> folders == old(folders)[i := Without(old(folders)[i], k)]
      ensures ok ==> Load(folders[i]) == Load(old(folders)[i]) - old(folders)[i].uploads[k].total
      ensures !ok ==> folders == old(folders)
    {
      ok := folders[i].uploads[k].listed;
      if !ok { return; }
      ReservedAt(folders[i].uploads, k);
      Store(i, Without(folders[i], k));
    }

    /** The quota part of fileFolderManagement: never below what is used and reserved. */
    method SetFolderQuota(i: nat, quota: int) returns (ok: bool)
      requires i < |folders| && Valid()
      modifies this`folders
      ensures Valid() && (old(Kept()) ==> Kept())
      ensures var f := old(folders)[i];
        ok <==>
          0 <= quota <= MAX_QUOTA && Fits(Load(f), quota) && f.used <= MAX_INT64 && Reserved(f.uploads) <= MAX_INT64
      ensures ok ==> folders == old(folders)[i := old(folders)[i].(quota := quota)]
      ensures !ok ==> folders == old(folders)
    {
      if quota < 0 || quota > MAX_QUOTA { return false; }
      var used, reserved;
      ok, used, reserved := FolderUsage(folders[i]);
      if !ok || (quota > 0 && used + reserved > quota) { return false; }
      var f := folders[i].(quota := quota);
      forall u ensures UserLoad(folders[i := f], u) == UserLoad(folders, u) {
        UserLoadChanges(folders, i, f, u);
      }
      folders := folders[i := f];
    }

    /** The PUT of fileUserQuotas. */
    method SetUserQuota(user: string, quota: int) returns (ok: bool)
      requires Valid()
      modifies this`userQuotas
      ensures Valid() && (old(Kept()) ==> Kept())
      ensures ok ==> 0 <= quota <= MAX_QUOTA && Fits(UserLoad(folders, user), quota)
      ensures UserLoad(folders, user) <= MAX_INT64 ==>
        (ok <==> 0 <= quota <= MAX_QUOTA && Fits(UserLoad(folders, user), quota))
      ensures ok ==> userQuotas == old(userQuotas)[user := quota]
      ensures !ok ==> userQuotas == old(userQuotas)
    {
      if quota < 0 || quota > MAX_QUOTA { return false; }
      var used, reserved;
      ok, used, reserved := PrivateUserUsage(user);
      if !ok || (quota > 0 && used + reserved > quota) { return false; }
      userQuotas := userQuotas[user := quota];
    }

    /** Trash, restore, purge, rename and new directory: the tree changes by `bytes` (records of
        the recycle bin, purged files), and sessions may lose or regain their target directory.
        None of them looks at a quota: they keep the quotas exactly when there happens to be room. */
    method Rearrange(i: nat, bytes: int, listed: set<nat>) returns (ghost fits: bool)
      requires i < |folders| && Valid() && folders[i].used + bytes >= 0
      modifies this`folders
      ensures Valid() && folders == old(folders)[i := Rearranged(old(folders)[i], bytes, listed)]
      ensures fits == RoomFor(old(folders), userQuotas, i, Load(folders[i]) - Load(old(folders)[i]))
      ensures old(Kept()) ==> (Kept() <==> fits)
      ensures bytes <= 0 && (forall u :: u in old(folders)[i].uploads && u.id in listed ==> u.listed) ==>
        old(Kept()) ==> Kept()
    {
      var f := Rearranged(folders[i], bytes, listed);
      if forall u :: u in folders[i].uploads && u.id in listed ==> u.listed {
        RelistingOnlyShrinks(folders[i].uploads, f.uploads);
      }
      fits := RoomFor(folders, userQuotas, i, Load(f) - Load(folders[i]));
      Store(i, f);
    }

    /** A new logical folder has no quota and no content. */
    method AddFolder(private: bool, owner: string)
      requires Valid()
      modifies this`folders
      ensures Valid() && (old(Kept()) ==> Kept())
      ensures folders == old(folders) + [Folder(private, owner, 0, 0, [])]
    {
      forall u ensures UserLoad(folders + [Folder(private, owner, 0, 0, [])], u) == UserLoad(folders, u) {
        UserLoadSplits(folders, [Folder(private, owner, 0, 0, [])], u);
        assert UserLoad([Folder(private, owner, 0, 0, [])], u) == 0;
      }
      folders := folders + [Folder(private, owner, 0, 0, [])];
    }

    ghost function Now(): State
      reads this
    {
      State(folders, userQuotas, nextId)
    }

    /** Any sequence of requests keeps every quota, as long as no recycle-bin record and no
        returning target directory exceeds one by itself; and each of them is answered as the
        quotas say, as long as the sums asked for fit 64 bits. `from`: where each begins. */
    method ServeAll(requests: seq<Request>) returns (ghost from: seq<State>)
      requires Valid()
      modifies this
      ensures Valid() && |from| == |requests| + 1 && from[0] == old(Now()) && from[|requests|] == Now()
      ensures old(Kept()) && (forall i :: 0 <= i < |requests| ==> FitsAt(from[i], requests[i])) ==> Kept()
      ensures old(Kept()) && (forall i :: 0 <= i < |requests| ==> Answerable(from[i], requests[i])) ==>
        Now() == StateAfterAll(old(Now()), requests)
    {
      from := [Now()];
      for n := 0 to |requests|
        invariant Valid() && |from| == n + 1 && from[0] == old(Now()) && from[n] == Now()
        invariant old(Kept()) && (forall i :: 0 <= i < n ==> FitsAt(from[i], requests[i])) ==> Kept()
        invariant old(Kept()) && (forall i :: 0 <= i < n ==> Answerable(from[i], requests[i])) ==>
          Now() == StateAfterAll(old(Now()), requests[..n])
      {
        assert requests[..n + 1] == requests[..n] + [requests[n]];
        Serve(requests[n]);
        from := from + [Now()];
      }
      assert requests[..|requests|] == requests;
    }

    method Serve(request: Request)
      requires Valid()
      modifies this
      ensures Valid() && (old(Kept()) && FitsAt(old(Now()), request) ==> Kept())
      ensures old(Kept()) && Sized(old(folders), request) ==> Now() == StateAfter(old(Now()), request)
    {
      var ok: bool;
      match request {
        case AddFolder(private, owner) => AddFolder(private, owner);
        case SetUserQuota(user, quota) => ok := SetUserQuota(user, quota);
        case Rearrange(i, bytes, listed) =>
          if i < |folders| && folders[i].used + bytes >= 0 {
            ghost var fits := Rearrange(i, bytes, listed);
          }
        case _ =>
          if request.i < |folders| { ServeFolder(request); }
      }
    }

    method ServeFolder(request: Request)
      requires Valid() && !request.AddFolder? && !request.SetUserQuota? && !request.Rearrange?
      requires request.i < |folders|
      modifies this
      ensures Valid() && (old(Kept()) ==> Kept())
      ensures old(Kept()) ==> Now() == StateAfter(old(Now()), request)
    {
      var ok: bool;
      var i := request.i;
      if request.SetFolderQuota? {
        ok := SetFolderQuota(i, request.quota);
      } else if !request.Put? {
        ServeUpload(request);
      } else if request.replaced <= folders[i].used {
        ok := Put(i, request.size, request.replaced, request.available);
      }
    }

    method ServeUpload(request: Request)
      requires Valid()
      requires request.CreateUpload? || request.AppendChunk? || request.CompleteUpload? || request.CancelUpload?
      requires request.i < |folders|
      modifies this
      ensures Valid() && (old(Kept()) ==> Kept())
      ensures old(Kept()) ==> Now() == StateAfter(old(Now()), request)
    {
      var ok: bool;
      var n: nat;
      if request.CreateUpload? {
        ok, n := CreateUpload(request.i, request.total, request.available);
      } else if request.k < |folders[request.i].uploads| {
        ServeSession(request);
      }
    }

    method ServeSession(request: Request)
      requires Valid() && (request.AppendChunk? || request.CompleteUpload? || request.CancelUpload?)
      requires request.i < |folders| && request.k < |folders[request.i].uploads|
      modifies this
      ensures Valid() && (old(Kept()) ==> Kept())
      ensures old(Kept()) ==> Now() == StateAfter(old(Now()), request)
    {
      var ok: bool;
      var n: nat;
      match request {
        case AppendChunk(i, k, size, available) => ok, n := AppendChunk(i, k, size, available);
        case CompleteUpload(i, k) => ok := CompleteUpload(i, k);
        case CancelUpload(i, k) => ok := CancelUpload(i, k);
      }
    }
  }

  lemma {:induction false} RelistingOnlyShrinks(a: seq<Upload>, b: seq<Upload>)
    requires |a| == |b|
    requires forall k :: 0 <= k < |a| ==> b[k].total == a[k].total && (b[k].listed ==> a[k].listed)
    ensures Reserved(b) <= Reserved(a)
  {
    if |a| > 0 {
      RelistingOnlyShrinks(a[1..], b[1..]);
    }
  }

  /** The recycle bin: a full folder exceeds its quota by moving a file into it. */
  lemma RecycleBinCanExceed(quota: nat, record: nat)
    requires 0 < quota && 0 < record
    ensures var f := Folder(false, "", quota, quota, []);
            WithinQuotas([f], map[]) && !WithinQuotas([Rearranged(f, record, {})], map[])
  {
    var g := Rearranged(Folder(false, "", quota, quota, []), record, {});
    assert [g][0] == g && g.uploads == [];
    assert Load(g) == quota + record;
  }

  /** A session whose target directory is away reserves nothing; the space is promised again,
      and both sessions reserve it once the directory is back. */
  lemma ReturningDirectoryCanExceed(quota: nat)
    requires 0 < quota
    ensures var hidden := Folder(false, "", quota, 0, [Upload(0, quota, 0, false)]);
            var second := hidden.(uploads := hidden.uploads + [Upload(1, quota, 0, true)]);
            && RoomFor([hidden], map[], 0, quota)
            && WithinQuotas([second], map[])
            && !WithinQuotas([Rearranged(second, 0, {0, 1})], map[])
  {
    var a, b := Upload(0, quota, 0, false), Upload(1, quota, 0, true);
    var second := Folder(false, "", quota, 0, [a, b]);
    assert [a] + [b] == [a, b];
    ReservedSplits([a], [b]);
    assert Reserved([a]) == 0 && Reserved([b]) == quota;
    var back := Rearranged(second, 0, {0, 1});
    assert back.uploads == [a.(listed := true)] + [b];
    ReservedSplits([a.(listed := true)], [b]);
    assert Reserved([a.(listed := true)]) == quota;
    assert [back][0] == back;
  }
}

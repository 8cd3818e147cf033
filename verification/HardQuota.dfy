/** The kernel's hard quota that keeps a pool's reserve free, in 64-bit arithmetic. */
module HardQuota {
  const TWO64: nat := 0x1_0000_0000_0000_0000

  type Word = x: int | 0 <= x < TWO64

  /** uint64 addition and multiplication, wrap-around included. */
  function Add(a: Word, b: Word): Word {
    (a + b) % TWO64
  }

  function Mul(a: Word, b: Word): Word {
    (a * b) % TWO64
  }

  /** percentBytes, and capacityPercentBytes on the Core's side. */
  function PercentBytes(total: Word, percent: int): Word
    requires percent < TWO64
  {
    if total == 0 || percent <= 0 then 0
    else Add(Mul(total / 100, percent), Mul(total % 100, percent) / 100)
  }

  /** It is the exact floor of the percentage, and nothing wraps on the way. */
  lemma PercentIsExact(total: Word, percent: int)
    requires 0 <= percent <= 100
    ensures PercentBytes(total, percent) == total * percent / 100
    ensures PercentBytes(total, percent) <= total
    ensures (total / 100) * percent + (total % 100) * percent / 100 < TWO64
  {
    var q, r := total / 100, total % 100;
    InParts(q, r, percent);
    NoWrap(q, r, percent);
    assert total == 100 * q + r;
  }

  lemma NoWrap(q: Word, r: nat, percent: int)
    requires 0 <= percent <= 100 && r < 100 && 100 * q + r < TWO64
    ensures q * percent + r * percent / 100 <= 100 * q + r
    ensures Add(Mul(q, percent), Mul(r, percent) / 100) == q * percent + r * percent / 100
    ensures percent == 0 || (q == 0 && r == 0) ==> q * percent + r * percent / 100 == 0
  {
    InParts(q, r, percent);
    var a, b := q * percent, r * percent;
    assert 0 <= a <= 100 * q && 0 <= b <= 100 * r;
    assert b / 100 <= r;
    Fits(a);
    Fits(b);
    Fits(a + b / 100);
  }

  lemma Fits(x: int)
    requires 0 <= x < TWO64
    ensures x % TWO64 == x
  {
  }

  lemma InParts(q: nat, r: nat, percent: nat)
    requires percent <= 100 && r < 100
    ensures (100 * q + r) * percent / 100 == q * percent + r * percent / 100
    ensures 0 <= q * percent <= 100 * q && 0 <= r * percent <= 100 * r
  {
    Bounded(q, percent);
    Bounded(r, percent);
    Distribute(q, r, percent);
  }

  lemma Bounded(a: nat, percent: nat)
    requires percent <= 100
    ensures 0 <= a * percent <= a * 100
  {
  }

  lemma Distribute(q: int, r: int, percent: int)
    ensures (100 * q + r) * percent == 100 * (q * percent) + r * percent
  {
  }

  datatype Limit = Unlimited | AtMost(kib: Word) | Overflow | BadPercent

  const MAX_RESERVE := 50

  /** quotaSafeHardLimitKiBForCapacity. To the quota tools a limit of 0 means none. */
  function SafeLimit(total: Word, free: Word, usedKiB: Word, reserve: int): (l: Limit)
    ensures l.AtMost? ==> l.kib >= 1
    ensures l.BadPercent? <==> reserve < 0 || reserve > MAX_RESERVE
    ensures l.Unlimited? <==> reserve == 0
  {
    if reserve < 0 || reserve > MAX_RESERVE then BadPercent
    else if reserve == 0 then Unlimited
    else
      var kept := PercentBytes(total, reserve);
      var writable := if free > kept then free - kept else 0;
      if TWO64 - 1 - usedKiB < writable / 1024 then Overflow
      else if usedKiB + writable / 1024 == 0 then AtMost(1)
      else AtMost(usedKiB + writable / 1024)
  }

  // ------------------------------------------------------------ what a limit guarantees

  /** One filesystem as the quota tools see it. */
  datatype Mount = Mount(total: Word, free: Word, usedKiB: Word, hardKiB: Word, ready: bool)

  /** Own writes that the kernel lets through. */
  predicate Allowed(m: Mount, kib: nat) {
    m.free >= 1024 * kib && m.usedKiB + kib < TWO64 && (m.hardKiB == 0 || m.usedKiB + kib <= m.hardKiB)
  }

  function Written(m: Mount, kib: nat): Mount
    requires Allowed(m, kib)
  {
    m.(free := m.free - 1024 * kib, usedKiB := m.usedKiB + kib)
  }

  function SafeLimitOf(m: Mount, reserve: int): Limit {
    SafeLimit(m.total, m.free, m.usedKiB, reserve)
  }

  /** What the inspection accepts. */
  predicate InSync(m: Mount, reserve: int) {
    if reserve == 0 then !m.ready || m.hardKiB == 0
    else m.ready && SafeLimitOf(m, reserve).AtMost? && m.hardKiB != 0 && m.hardKiB <= SafeLimitOf(m, reserve).kib
  }

  function Reserve(m: Mount, reserve: int): int {
    m.total * reserve / 100
  }

  /** The clamp: nothing used and nothing writable, but a limit of 0 would mean none. */
  predicate Clamped(m: Mount, reserve: int) {
    m.usedKiB == 0 && m.free < Reserve(m, reserve) + 1024
  }

  /** Own writes leave the computed limit where it is, so the inspection goes on accepting what
      the enforcement has set; and they leave the reserve free, up to one KiB in the clamp. */
  lemma OwnWritesKeepLimitAndReserve(m: Mount, reserve: int, kib: nat)
    requires 0 < reserve <= MAX_RESERVE && InSync(m, reserve) && Allowed(m, kib)
    ensures SafeLimitOf(Written(m, kib), reserve) == SafeLimitOf(m, reserve)
    ensures InSync(Written(m, kib), reserve)
    ensures m.free >= Reserve(m, reserve) && !Clamped(m, reserve) ==> Written(m, kib).free >= Reserve(m, reserve)
    ensures Clamped(m, reserve) ==> kib <= 1
    ensures m.free < Reserve(m, reserve) && !Clamped(m, reserve) ==> kib == 0
  {
    PercentIsExact(m.total, reserve);
    var kept := Reserve(m, reserve);
    var writable := if m.free > kept then m.free - kept else 0;
    if writable / 1024 >= kib && m.free > kept {
      assert (writable - 1024 * kib) / 1024 == writable / 1024 - kib;
    }
  }

  /** When other users' writes put a set limit out of sync, exactly. */
  lemma ForeignWritesBreakSyncExactly(m: Mount, reserve: int, free: Word)
    requires 0 < reserve <= MAX_RESERVE && InSync(m, reserve)
    requires m.usedKiB + m.total / 1024 < TWO64 && free <= m.total       // a limit that fits 64 bits
    ensures InSync(m.(free := free), reserve) <==>
            m.hardKiB <= m.usedKiB + Max(0, free - Reserve(m, reserve)) / 1024 || (m.hardKiB == 1 && m.usedKiB == 0)
  {
    PercentIsExact(m.total, reserve);
    assert Max(0, free - Reserve(m, reserve)) / 1024 <= m.total / 1024;
  }

  function Max(a: int, b: int): int {
    if a > b then a else b
  }

  /** All that the pool's own writes may come to: what they have, and what is free above the
      reserve. A limit of 0 would mean none. */
  function FullLimit(m: Mount, reserve: int): int {
    if reserve == 0 then 0 else Max(1, m.usedKiB + Max(0, m.free - Reserve(m, reserve)) / 1024)
  }

  lemma SafeLimitIsFull(m: Mount, reserve: int)
    requires 0 < reserve <= MAX_RESERVE
    ensures SafeLimitOf(m, reserve) == if FullLimit(m, reserve) < TWO64 then AtMost(FullLimit(m, reserve)) else Overflow
  {
    PercentIsExact(m.total, reserve);
  }

  /** The full limit can be set, or there is none to set. */
  predicate Enforceable(m: Mount, reserve: int) {
    if m.ready then FullLimit(m, reserve) < TWO64 else reserve == 0
  }

  predicate Enforced(before: Mount, now: Mount, reserve: int) {
    Enforceable(before, reserve) && now == if before.ready then before.(hardKiB := FullLimit(before, reserve))
      else before
  }

  lemma EnforcedIsInSync(before: Mount, now: Mount, reserve: int)
    requires 0 <= reserve <= MAX_RESERVE && Enforced(before, now, reserve)
    ensures InSync(now, reserve)
  {
    if reserve > 0 { SafeLimitIsFull(before, reserve); }
  }

  // ------------------------------------------------------------------ policies

  /** A share: its pool, whether its paths are in order, and the reserve it asks for. */
  datatype Share = Share(root: string, inPlace: bool, reserve: int)

  predicate Sane(s: Share) {
    s.inPlace && 0 <= s.reserve <= MAX_RESERVE
  }

  predicate Agree(shares: seq<Share>) {
    forall i, j :: 0 <= i < |shares| && 0 <= j < |shares| && shares[i].root == shares[j].root ==>
      shares[i].reserve == shares[j].reserve
  }

  /** smbPoolQuotaPolicies: one policy per pool, exactly when the shares are sane and agree. */
  method Policies(shares: seq<Share>) returns (ok: bool, byRoot: map<string, int>)
    ensures ok <==> (forall s :: s in shares ==> Sane(s)) && Agree(shares)
    ensures ok ==> byRoot.Keys == set s | s in shares :: s.root
    ensures ok ==> forall s :: s in shares ==> byRoot[s.root] == s.reserve
  {
    byRoot, ok := map[], true;
    for i := 0 to |shares|
      invariant ok && byRoot.Keys == set s | s in shares[..i] :: s.root
      invariant forall j :: 0 <= j < i ==> Sane(shares[j]) && byRoot[shares[j].root] == shares[j].reserve
    {
      assert shares[..i + 1] == shares[..i] + [shares[i]];
      var s := shares[i];
      if !s.inPlace || s.reserve < 0 || s.reserve > MAX_RESERVE {
        assert s in shares && !Sane(s);
        return false, byRoot;
      }
      if s.root in byRoot && byRoot[s.root] != s.reserve {
        assert exists t :: t in shares[..i] && t.root == s.root;
        return false, byRoot;
      }
      byRoot := byRoot[s.root := s.reserve];
    }
    assert shares[..|shares|] == shares;
  }

  // ------------------------------------------------------------- enforcement

  /** A pool that is not mounted keeps no quotas. */
  function Seen(mounts: map<string, Mount>, root: string): Mount {
    if root in mounts then mounts[root] else Mount(0, 0, 0, 0, false)
  }

  class Kernel {
    var mounts: map<string, Mount>
    ghost var faults: nat          // commands that failed although they could have succeeded

    constructor (mounts: map<string, Mount>)
      ensures this.mounts == mounts
    {
      this.mounts, faults := mounts, 0;
    }

    /** enforceNASUserQuota: set the limit, read it back. A pool without a reserve that keeps no
        quotas is left alone; every other gets its full limit, or stays as it was. */
    method EnforceOne(root: string, reserve: int) returns (ok: bool)
      requires 0 <= reserve <= MAX_RESERVE
      modifies this
      ensures mounts.Keys == old(mounts).Keys
      ensures forall r :: r in mounts && r != root ==> mounts[r] == old(mounts)[r]
      ensures root in mounts ==>
        mounts[root] == old(mounts)[root] || Enforced(old(mounts)[root], mounts[root], reserve)
      ensures ok ==> root in mounts && Enforced(old(mounts)[root], mounts[root], reserve)
      ensures ok ==> InSync(mounts[root], reserve)
      ensures old(faults) <= faults
      ensures faults == old(faults) ==> ok == (root in mounts && Enforceable(old(mounts)[root], reserve))
    {
      ok := root in mounts;
      if !ok { return; }
      var m := mounts[root];
      if !m.ready { return reserve == 0; }
      var limit: Word := 0;
      if reserve > 0 {
        SafeLimitIsFull(m, reserve);
        var safe := SafeLimitOf(m, reserve);
        if !safe.AtMost? { return false; }
        limit := safe.kib;
      }
      EnforcedIsInSync(m, m.(hardKiB := limit), reserve);
      ok := SetLimit(root, limit);
      ok := ok && mounts[root].hardKiB == limit;
    }

    /** The quota command: its answer alone does not mean that the limit is set. */
    method SetLimit(root: string, limit: Word) returns (answered: bool)
      requires root in mounts
      modifies this
      ensures mounts == old(mounts) || mounts == old(mounts)[root := old(mounts)[root].(hardKiB := limit)]
      ensures old(faults) <= faults && (faults == old(faults) ==> answered && mounts[root].hardKiB == limit)
    {
      var applied: bool := *;
      answered := *;
      if applied {
        mounts := mounts[root := mounts[root].(hardKiB := limit)];
      }
      faults := if applied && answered then faults else faults + 1;
    }

    /** enforceSMBHardQuota over the policies of all pools. Every pool ends with its full limit or
        as it was; all of them have their full limit exactly when all could be set, unless a
        command fails by itself. */
    method Enforce(policies: map<string, int>) returns (ok: bool)
      requires forall r :: r in policies ==> 0 <= policies[r] <= MAX_RESERVE
      modifies this
      ensures mounts.Keys == old(mounts).Keys
      ensures ok ==> forall r :: r in policies ==>
        r in mounts && Enforced(old(mounts)[r], mounts[r], policies[r]) && InSync(mounts[r], policies[r])
      ensures forall r :: r in mounts ==>
        mounts[r] == old(mounts)[r] || (r in policies && Enforced(old(mounts)[r], mounts[r], policies[r]))
      ensures old(faults) <= faults
      ensures faults == old(faults) ==>
        (ok <==> forall r :: r in policies ==> r in mounts && Enforceable(old(mounts)[r], policies[r]))
    {
      ok := true;
      var todo := policies.Keys;
      while todo != {}
        invariant ok && todo <= policies.Keys && mounts.Keys == old(mounts).Keys && old(faults) <= faults
        invariant forall r :: r in policies && r !in todo ==>
          r in mounts && Enforced(old(mounts)[r], mounts[r], policies[r]) && InSync(mounts[r], policies[r])
        invariant forall r :: r in mounts && (r !in policies || r in todo) ==> mounts[r] == old(mounts)[r]
        decreases |todo|
      {
        var root :| root in todo;
        ok := EnforceOne(root, policies[root]);
        if !ok { return; }
        todo := todo - {root};
      }
    }

    /** inspectSMBHardQuota: says yes exactly to what the enforcement establishes. */
    method Inspect(policies: map<string, int>) returns (ok: bool)
      requires forall r :: r in policies ==> 0 <= policies[r] <= MAX_RESERVE
      ensures ok <==> forall r :: r in policies ==> InSync(Seen(mounts, r), policies[r])
    {
      var todo := policies.Keys;
      while todo != {}
        invariant todo <= policies.Keys
        invariant forall r :: r in policies && r !in todo ==> InSync(Seen(mounts, r), policies[r])
        decreases |todo|
      {
        var root :| root in todo;
        var m, reserve := Seen(mounts, root), policies[root];
        if !m.ready {
          if reserve != 0 { return false; }
        } else if reserve == 0 {
          if m.hardKiB != 0 { return false; }
        } else {
          var safe := SafeLimitOf(m, reserve);
          if !safe.AtMost? || m.hardKiB == 0 || m.hardKiB > safe.kib { return false; }
        }
        todo := todo - {root};
      }
      ok := true;
    }
  }
}

/** A destructive change of a disk, first as a plan and then for real: swaps off, filesystems
    unmounted, volume groups deactivated. */
module DestructivePlan {
  import opened Faults

  type Device = string

  /** One line of lsblk. */
  datatype Line = Line(name: Device, fstype: string)

  datatype Mount = Mount(device: Device, target: string)

  datatype Volume = Volume(pv: Device, vg: string)

  /** What an inspection of the host finds; `mounts` in the order of mounting. */
  datatype Host = Host(
    lines: seq<Line>,
    swaps: set<Device>,
    mounts: seq<Mount>,
    parents: map<Device, Option<Device>>,
    hasPvs: bool,
    hasVgchange: bool,
    volumes: seq<Volume>,
    groups: set<string>)           // the active volume groups

  // -------------------------------------------------------------- mount tables

  function Without(mounts: seq<Mount>, devices: set<Device>): seq<Mount> {
    if mounts == [] then []
    else (if mounts[0].device in devices then [] else [mounts[0]]) + Without(mounts[1..], devices)
  }

  /** The mounts of one device: findmnt -S. */
  function MountsOf(mounts: seq<Mount>, device: Device): seq<string> {
    if mounts == [] then []
    else (if mounts[0].device == device then [mounts[0].target] else []) + MountsOf(mounts[1..], device)
  }

  /** Where umount finds the target: its topmost mount. */
  function Topmost(mounts: seq<Mount>, target: string): (at: Option<nat>)
    ensures at.Some? ==> at.value < |mounts| && mounts[at.value].target == target
    ensures at.None? ==> forall k :: 0 <= k < |mounts| ==> mounts[k].target != target
  {
    if mounts == [] then None
    else if mounts[|mounts| - 1].target == target then Some(|mounts| - 1)
    else Topmost(mounts[..|mounts| - 1], target)
  }

  lemma {:induction false} WithoutSplits(a: seq<Mount>, b: seq<Mount>, devices: set<Device>)
    ensures Without(a + b, devices) == Without(a, devices) + Without(b, devices)
  {
    if a == [] {
      assert a + b == b;
    } else {
      assert (a + b)[1..] == a[1..] + b;
      WithoutSplits(a[1..], b, devices);
    }
  }

  lemma {:induction false} MountsOfSplits(a: seq<Mount>, b: seq<Mount>, device: Device)
    ensures MountsOf(a + b, device) == MountsOf(a, device) + MountsOf(b, device)
  {
    if a == [] {
      assert a + b == b;
    } else {
      assert (a + b)[1..] == a[1..] + b;
      MountsOfSplits(a[1..], b, device);
    }
  }

  lemma {:induction false} WithoutTwice(mounts: seq<Mount>, a: set<Device>, b: set<Device>)
    ensures Without(Without(mounts, a), b) == Without(mounts, a + b)
  {
    if mounts != [] {
      WithoutTwice(mounts[1..], a, b);
      if mounts[0].device in a {
        assert Without(mounts, a) == Without(mounts[1..], a);
      } else {
        WithoutSplits([mounts[0]], Without(mounts[1..], a), b);
        assert Without([mounts[0]], b) == if mounts[0].device in b then [] else [mounts[0]];
      }
    }
  }

  lemma {:induction false} WithoutNothing(mounts: seq<Mount>, devices: set<Device>)
    ensures Without(mounts, devices) == mounts <==> forall m :: m in mounts ==> m.device !in devices
    ensures |Without(mounts, devices)| <= |mounts|
  {
    if mounts != [] {
      WithoutNothing(mounts[1..], devices);
      assert mounts == [mounts[0]] + mounts[1..];
      if mounts[0].device in devices {
        assert mounts[0] in mounts;
      } else if Without(mounts, devices) == mounts {
        assert Without(mounts, devices)[1..] == Without(mounts[1..], devices);
      }
    }
  }

  lemma {:induction false} NoMountsOf(mounts: seq<Mount>, device: Device)
    ensures MountsOf(mounts, device) == [] <==> forall m :: m in mounts ==> m.device != device
  {
    if mounts != [] {
      NoMountsOf(mounts[1..], device);
      assert mounts == [mounts[0]] + mounts[1..];
      if mounts[0].device == device {
        assert mounts[0] in mounts;
      }
    }
  }

  /** What one umount does to the table, seen from one device. */
  lemma RemovedAt(mounts: seq<Mount>, k: nat, device: Device)
    requires k < |mounts|
    ensures var after := mounts[..k] + mounts[k + 1..];
            if mounts[k].device == device
            then Without(after, {device}) == Without(mounts, {device})
              && |MountsOf(after, device)| == |MountsOf(mounts, device)| - 1
            else |MountsOf(after, device)| == |MountsOf(mounts, device)|
  {
    var a, m, b := mounts[..k], mounts[k], mounts[k + 1..];
    assert mounts == a + ([m] + b);
    WithoutSplits(a, [m] + b, {device});
    WithoutSplits([m], b, {device});
    WithoutSplits(a, b, {device});
    MountsOfSplits(a, [m] + b, device);
    MountsOfSplits([m], b, device);
    MountsOfSplits(a, b, device);
    assert MountsOf([m], device) == if m.device == device then [m.target] else [];
    assert Without([m], {device}) == if m.device == device then [] else [m];
  }

  /** No other device is mounted over a mount of this one. */
  predicate Uncovered(mounts: seq<Mount>, device: Device) {
    forall i, j :: 0 <= i < j < |mounts| && mounts[i].device == device && mounts[j].target == mounts[i].target ==>
      mounts[j].device == device
  }

  /** A umount that takes this device's own mount covers and uncovers nothing. */
  lemma CoverStays(mounts: seq<Mount>, k: nat, device: Device)
    requires k < |mounts| && mounts[k].device == device && Topmost(mounts, mounts[k].target) == Some(k)
    ensures Uncovered(mounts[..k] + mounts[k + 1..], device) <==> Uncovered(mounts, device)
  {
    var after := mounts[..k] + mounts[k + 1..];
    if Uncovered(after, device) {
      forall i, j | 0 <= i < j < |mounts| && mounts[i].device == device && mounts[j].target == mounts[i].target
        ensures mounts[j].device == device
      {
        NothingAbove(mounts, mounts[k].target);
        if j != k && i != k {
          var i', j' := if i < k then i else i - 1, if j < k then j else j - 1;
          assert after[i'] == mounts[i] && after[j'] == mounts[j];
        }
      }
    }
  }

  lemma {:induction false} NothingAbove(mounts: seq<Mount>, target: string)
    ensures var at := Topmost(mounts, target);
            at.Some? ==> forall j :: at.value < j < |mounts| ==> mounts[j].target != target
  {
    if mounts != [] && mounts[|mounts| - 1].target != target {
      NothingAbove(mounts[..|mounts| - 1], target);
    }
  }

  /** The mount that a umount at `target` takes is the device's, and the last that it has. */
  predicate TakesLast(mounts: seq<Mount>, device: Device, target: string, k: nat) {
    && k < |mounts| && mounts[k].device == device && Topmost(mounts, target) == Some(k)
    && MountsOf(mounts, device) == MountsOf(mounts[..k] + mounts[k + 1..], device) + [target]
  }

  lemma TakesLastBehind(mounts: seq<Mount>, m: Mount, device: Device, target: string, k: nat)
    requires TakesLast(mounts, device, target, k) && m.device != device && m.target != target
    ensures TakesLast(mounts + [m], device, target, k)
  {
    var all := mounts + [m];
    assert all[..k] + all[k + 1..] == (mounts[..k] + mounts[k + 1..]) + [m];
    MountsOfSplits(mounts, [m], device);
    MountsOfSplits(mounts[..k] + mounts[k + 1..], [m], device);
    assert MountsOf([m], device) == [];
    assert all[..|all| - 1] == mounts;
  }

  lemma TakesLastHere(mounts: seq<Mount>, m: Mount)
    ensures TakesLast(mounts + [m], m.device, m.target, |mounts|)
  {
    var all := mounts + [m];
    assert all[..|mounts|] + all[|mounts| + 1..] == mounts;
    MountsOfSplits(mounts, [m], m.device);
    assert MountsOf([m], m.device) == [m.target];
  }

  /** Where nothing covers the device, a umount at its last target takes its last mount. */
  lemma {:induction false} LastMount(mounts: seq<Mount>, device: Device) returns (target: string, k: nat)
    requires Uncovered(mounts, device) && MountsOf(mounts, device) != []
    ensures TakesLast(mounts, device, target, k)
    decreases |mounts|
  {
    var n := |mounts| - 1;
    var init, m := mounts[..n], mounts[n];
    assert mounts == init + [m];
    if m.device == device {
      target, k := m.target, n;
      TakesLastHere(init, m);
    } else {
      MountsOfSplits(init, [m], device);
      assert MountsOf([m], device) == [];
      target, k := LastMount(init, device);
      assert mounts[k] == init[k] && m.target != target;
      TakesLastBehind(init, m, device, target, k);
    }
  }

  /** How far the umounts of one device are: `own`, they have only taken mounts of the device. */
  predicate Progress(start: seq<Mount>, now: seq<Mount>, device: Device, left: nat, own: bool) {
    if own then
      && Without(now, {device}) == Without(start, {device}) && |MountsOf(now, device)| == left
      && (Uncovered(now, device) <==> Uncovered(start, device))
    else |MountsOf(now, device)| > left
  }

  /** The same with the targets; `quiet`: nothing has failed by itself. */
  predicate Underway(start: seq<Mount>, now: seq<Mount>, device: Device, targets: seq<string>, left: nat, own: bool,
                     quiet: bool)
  {
    && left <= |targets| && Progress(start, now, device, left, own)
    && (quiet && Uncovered(start, device) ==> own && MountsOf(now, device) == targets[..left])
  }

  lemma OneUmount(start: seq<Mount>, now: seq<Mount>, device: Device, target: string, left: nat, own: bool, k: nat)
    requires Progress(start, now, device, left + 1, own) && Topmost(now, target) == Some(k)
    ensures Progress(start, now[..k] + now[k + 1..], device, left, own && now[k].device == device)
  {
    RemovedAt(now, k, device);
    if own && now[k].device == device {
      Topped(now, k, target);
      CoverStays(now, k, device);
    }
  }

  lemma SameLast(a: seq<string>, x: string, b: seq<string>, y: string)
    requires a + [x] == b + [y]
    ensures a == b && x == y
  {
    assert (a + [x])[|a|] == x && (b + [y])[|b|] == y;
    assert a == (a + [x])[..|a|] && b == (b + [y])[..|b|];
  }

  /** Where nothing covers the device, the next umount takes its own. */
  lemma NextIsOwn(now: seq<Mount>, device: Device, others: seq<string>, target: string)
    requires Uncovered(now, device) && MountsOf(now, device) == others + [target]
    ensures Topmost(now, target).Some?
    ensures var k := Topmost(now, target).value;
            now[k].device == device && MountsOf(now[..k] + now[k + 1..], device) == others
  {
    var last, k := LastMount(now, device);
    SameLast(MountsOf(now[..k] + now[k + 1..], device), last, others, target);
  }

  lemma Topped(mounts: seq<Mount>, k: nat, target: string)
    requires Topmost(mounts, target) == Some(k)
    ensures Topmost(mounts, mounts[k].target) == Some(k)
  {
  }

  // -------------------------------------------------------------- the disk of a device

  function TopDisk(parents: map<Device, Option<Device>>, device: Device, fuel: nat): Option<Device>
    decreases fuel
  {
    if fuel == 0 || device !in parents then None
    else if parents[device].None? then Some(device)
    else TopDisk(parents, parents[device].value, fuel - 1)
  }

  const CHAIN := 16

  predicate OnDisk(h: Host, pv: Device, disk: Device) {
    TopDisk(h.parents, pv, CHAIN) == Some(disk)
  }

  /** The volume groups with a physical volume on the disk. */
  function GroupsOn(h: Host, disk: Device): set<string> {
    set v | v in h.volumes && OnDisk(h, v.pv, disk) :: v.vg
  }

  predicate Confined(h: Host, vg: string, disk: Device) {
    forall v :: v in h.volumes && v.vg == vg ==> OnDisk(h, v.pv, disk)
  }

  /** The volume groups are no obstacle: the disk is found, and none of its groups uses another. */
  predicate GroupsReady(h: Host, device: Device) {
    var disk := TopDisk(h.parents, device, CHAIN);
    disk.Some? && forall vg :: vg in GroupsOn(h, disk.value) ==> Confined(h, vg, disk.value)
  }

  /** What the dry run accepts. */
  predicate Inspectable(h: Host, device: Device) {
    && (forall m :: m in h.mounts && m.device in PlannedDevices(h) ==> m.target != "/")
    && (h.hasPvs ==> GroupsReady(h, device))
  }

  /** The real run, from the last line of lsblk to the first, can release line `i`: a filesystem is
      not the root and nothing is mounted over it by then; a swap is not listed again below. */
  predicate Releasable(h: Host, i: nat)
    requires i < |h.lines|
  {
    var below, l := h.lines[i + 1..], h.lines[i];
    if l.fstype == "swap" then l.name in h.swaps ==> l.name !in ActiveOf(below, h.swaps)
    else
      var mounts := Without(h.mounts, NotSwap(below));
      "/" !in MountsOf(mounts, l.name) && Uncovered(mounts, l.name)
  }

  /** Mounts and swaps have nothing to do with them. */
  lemma GroupsStayReady(a: Host, b: Host, device: Device)
    requires a.parents == b.parents && a.volumes == b.volumes
    ensures GroupsReady(a, device) <==> GroupsReady(b, device)
  {
    forall disk ensures GroupsOn(a, disk) == GroupsOn(b, disk) {
    }
    forall vg, disk ensures Confined(a, vg, disk) <==> Confined(b, vg, disk) {
    }
  }

  /** What the real run accepts. */
  predicate Preparable(h: Host, device: Device) {
    && (forall i :: 0 <= i < |h.lines| ==> Releasable(h, i))
    && (h.hasPvs && h.hasVgchange ==> GroupsReady(h, device))
  }

  /** One line can be released as the host is now. */
  predicate Free(h: Host, l: Line, active: set<Device>) {
    if l.fstype == "swap" then l.name in active ==> l.name in h.swaps
    else "/" !in MountsOf(h.mounts, l.name) && Uncovered(h.mounts, l.name)
  }

  // ------------------------------------------------------ what the plan names

  predicate ActiveSwap(h: Host, l: Line) {
    l.fstype == "swap" && l.name in h.swaps
  }

  function PlannedSwaps(h: Host): set<Device> {
    ActiveOf(h.lines, h.swaps)
  }

  function PlannedDevices(h: Host): set<Device> {
    set l | l in h.lines && !ActiveSwap(h, l) :: l.name
  }

  /** The real run never looks for mounts of a device that lsblk calls swap. */
  function UnmountedDevices(h: Host): set<Device> {
    NotSwap(h.lines)
  }

  function NotSwap(lines: seq<Line>): set<Device> {
    set l | l in lines && l.fstype != "swap" :: l.name
  }

  function ActiveOf(lines: seq<Line>, active: set<Device>): set<Device> {
    set l | l in lines && l.fstype == "swap" && l.name in active :: l.name
  }

  lemma OneLineMore(lines: seq<Line>, i: nat, active: set<Device>)
    requires i < |lines|
    ensures NotSwap(lines[i..]) ==
            if lines[i].fstype != "swap" then NotSwap(lines[i + 1..]) + {lines[i].name} else NotSwap(lines[i + 1..])
    ensures ActiveOf(lines[i..], active) ==
            if lines[i].fstype == "swap" && lines[i].name in active
              then ActiveOf(lines[i + 1..], active) + {lines[i].name}
            else ActiveOf(lines[i + 1..], active)
  {
    assert lines[i..] == [lines[i]] + lines[i + 1..];
  }

  /** What the real run leaves, when it succeeds. */
  function After(h: Host, disk: Device): Host {
    h.(swaps := h.swaps - PlannedSwaps(h),
       mounts := Without(h.mounts, UnmountedDevices(h)),
       groups := if h.hasPvs && h.hasVgchange then h.groups - GroupsOn(h, disk) else h.groups)
  }

  datatype Plan = Plan(mounts: seq<Mount>, swaps: seq<Device>, groups: set<string>)

  /** The plan lists exactly what is there to lose. */
  ghost predicate Lists(h: Host, disk: Device, p: Plan) {
    && (forall m :: m in p.mounts <==> m in h.mounts && m.device in PlannedDevices(h))
    && (forall d :: d in p.swaps <==> d in PlannedSwaps(h))
    && p.groups == (if h.hasPvs then GroupsOn(h, disk) else {})
  }

  /** The host after the run, if the plan were the run. */
  function AsPlanned(h: Host, p: Plan): Host {
    h.(swaps := h.swaps - (set d | d in p.swaps),
       mounts := Without(h.mounts, PlannedDevices(h)),
       groups := h.groups - p.groups)
  }

  /** When the dry run is the run: unless an inactive swap device is mounted, or volume groups
      are listed that this host has no tool to deactivate. */
  lemma DryRunIsRunExactly(h: Host, disk: Device, p: Plan)
    requires Lists(h, disk, p)
    ensures AsPlanned(h, p) == After(h, disk) <==>
            && (forall m :: m in h.mounts && m.device in PlannedDevices(h) ==> m.device in UnmountedDevices(h))
            && (h.hasPvs && !h.hasVgchange ==> h.groups !! GroupsOn(h, disk))
  {
    assert (set d | d in p.swaps) == PlannedSwaps(h);
    SameRemainder(h.mounts, UnmountedDevices(h), PlannedDevices(h));
    if h.hasPvs && !h.hasVgchange && h.groups - GroupsOn(h, disk) == h.groups {
      assert h.groups !! GroupsOn(h, disk);
    }
  }

  lemma SameRemainder(mounts: seq<Mount>, a: set<Device>, b: set<Device>)
    requires a <= b
    ensures Without(mounts, b) == Without(mounts, a) <==> forall m :: m in mounts && m.device in b ==> m.device in a
  {
    WithoutTwice(mounts, a, b);
    assert a + b == b;
    WithoutNothing(Without(mounts, a), b);
    WithoutMembers(mounts, a);
  }

  lemma {:induction false} WithoutMembers(mounts: seq<Mount>, devices: set<Device>)
    ensures forall m :: m in Without(mounts, devices) <==> m in mounts && m.device !in devices
  {
    if mounts != [] {
      WithoutMembers(mounts[1..], devices);
      assert mounts == [mounts[0]] + mounts[1..];
    }
  }

  // ------------------------------------------------------------------ the plan

  /** topPhysicalDisk: up the chain of parents, at most CHAIN steps. `works`: lsblk answers. */
  method FindTopDisk(h: Host, device: Device, works: bool) returns (disk: Option<Device>)
    ensures disk.Some? ==> OnDisk(h, device, disk.value)
    ensures works ==> disk == TopDisk(h.parents, device, CHAIN)
  {
    var current := device;
    for i := 0 to CHAIN
      invariant TopDisk(h.parents, device, CHAIN) == TopDisk(h.parents, current, CHAIN - i)
    {
      var answers: bool := *;
      if current !in h.parents || !(works || answers) { return None; }
      if h.parents[current].None? { return Some(current); }
      current := h.parents[current].value;
    }
    disk := None;
  }

  /** The groups of the disk, as both runs collect them: a volume whose disk cannot be found
      is skipped here. */
  method CollectGroups(h: Host, disk: Device, works: bool) returns (groups: set<string>)
    ensures groups <= GroupsOn(h, disk)
    ensures works ==> groups == GroupsOn(h, disk)
  {
    groups := {};
    for i := 0 to |h.volumes|
      invariant groups <= GroupsOn(h, disk)
      invariant works ==> forall v :: v in h.volumes[..i] && OnDisk(h, v.pv, disk) ==> v.vg in groups
    {
      var d := FindTopDisk(h, h.volumes[i].pv, works);
      if d == Some(disk) { groups := groups + {h.volumes[i].vg}; }
    }
    assert h.volumes[..|h.volumes|] == h.volumes;
  }

  /** The check of one group: every listed volume of it must be on the disk. */
  method CheckConfined(h: Host, vg: string, disk: Device, works: bool) returns (ok: bool)
    ensures ok ==> Confined(h, vg, disk)
    ensures works ==> (ok <==> Confined(h, vg, disk))
  {
    for i := 0 to |h.volumes|
      invariant forall v :: v in h.volumes[..i] && v.vg == vg ==> OnDisk(h, v.pv, disk)
    {
      if h.volumes[i].vg == vg {
        var d := FindTopDisk(h, h.volumes[i].pv, works);
        if d != Some(disk) {
          assert h.volumes[i] in h.volumes;
          return false;
        }
      }
    }
    assert h.volumes[..|h.volumes|] == h.volumes;
    ok := true;
  }

  /** inspectLVMGroupsOnDisk. */
  method InspectGroups(h: Host, device: Device, works: bool) returns (ok: bool, groups: set<string>, disk: Device)
    ensures ok && h.hasPvs ==> OnDisk(h, device, disk)
    ensures ok && h.hasPvs ==> forall vg :: vg in groups ==> Confined(h, vg, disk)
    ensures ok ==> groups <= if h.hasPvs then GroupsOn(h, disk) else {}
    ensures ok && works ==> groups == if h.hasPvs then GroupsOn(h, disk) else {}
    ensures works ==> (ok <==> (h.hasPvs ==> GroupsReady(h, device)))
  {
    groups, disk := {}, device;
    if !h.hasPvs { return true, groups, disk; }
    var top := FindTopDisk(h, device, works);
    if top.None? { return false, groups, disk; }
    disk := top.value;
    groups := CollectGroups(h, disk, works);
    var todo := groups;
    while todo != {}
      invariant todo <= groups
      invariant forall vg :: vg in groups && vg !in todo ==> Confined(h, vg, disk)
      decreases |todo|
    {
      var vg :| vg in todo;
      var good := CheckConfined(h, vg, disk, works);
      if !good { return false, groups, disk; }
      todo := todo - {vg};
    }
    ok := true;
  }

  /** inspectDestructiveUsage: it changes nothing, refuses the root filesystem and a volume group
      that also uses another disk, and nothing else; and it lists exactly what is in use. */
  method Inspect(h: Host, device: Device, works: bool) returns (ok: bool, p: Plan, disk: Device)
    ensures ok && works ==> Lists(h, disk, p)
    ensures ok ==> forall m :: m in h.mounts && m.device in PlannedDevices(h) ==> m.target != "/"
    ensures ok && h.hasPvs ==> OnDisk(h, device, disk) && forall vg :: vg in p.groups ==> Confined(h, vg, disk)
    ensures works ==> (ok <==> Inspectable(h, device))
  {
    p, disk, ok := Plan([], [], {}), device, true;
    for i := 0 to |h.lines|
      invariant ok && p.groups == {}
      invariant forall m :: m in p.mounts <==>
        m in h.mounts && exists l :: l in h.lines[..i] && l.name == m.device && !ActiveSwap(h, l)
      invariant forall m :: m in p.mounts ==> m.target != "/"
      invariant forall d :: d in p.swaps <==> exists l :: l in h.lines[..i] && l.name == d && ActiveSwap(h, l)
    {
      var l := h.lines[i];
      assert h.lines[..i + 1] == h.lines[..i] + [l];
      if ActiveSwap(h, l) {
        p := p.(swaps := p.swaps + [l.name]);
      } else {
        var good, more := ListMounts(h.mounts, l.name);
        if !good {
          assert l in h.lines;
          return false, p, disk;
        }
        p := p.(mounts := p.mounts + more);
      }
    }
    assert h.lines[..|h.lines|] == h.lines;
    var groups;
    ok, groups, disk := InspectGroups(h, device, works);
    p := p.(groups := groups);
    assert forall m :: m in h.mounts && m.device in PlannedDevices(h) ==> m in p.mounts;
  }

  /** The mounts of one device for the plan. */
  method ListMounts(mounts: seq<Mount>, device: Device) returns (ok: bool, more: seq<Mount>)
    ensures ok ==> forall m :: m in more <==> m in mounts && m.device == device
    ensures ok <==> Mount(device, "/") !in mounts
    ensures ok ==> forall m :: m in more ==> m.target != "/"
  {
    more, ok := [], true;
    for i := 0 to |mounts|
      invariant ok && forall m :: m in more <==> m in mounts[..i] && m.device == device
      invariant forall m :: m in more ==> m.target != "/"
    {
      assert mounts[..i + 1] == mounts[..i] + [mounts[i]];
      if mounts[i].device == device {
        if mounts[i].target == "/" {
          assert mounts[i] in mounts;
          return false, more;
        }
        more := more + [mounts[i]];
      }
    }
    assert mounts[..|mounts|] == mounts;
  }

  // --------------------------------------------------------------- the real run

  class DiskHost {
    var h: Host
    ghost var faults: nat          // commands that failed although they could have succeeded

    constructor (h: Host)
      ensures this.h == h
    {
      this.h, faults := h, 0;
    }

    /** umount: it takes the topmost mount at the target, whoever's it is. */
    method Umount(target: string) returns (ok: bool)
      modifies this
      ensures ok ==> Topmost(old(h).mounts, target).Some?
      ensures ok ==> var k := Topmost(old(h).mounts, target).value;
                     h == old(h).(mounts := old(h).mounts[..k] + old(h).mounts[k + 1..])
      ensures !ok ==> h == old(h)
      ensures old(faults) <= faults && (faults == old(faults) && Topmost(old(h).mounts, target).Some? ==> ok)
    {
      ok := *;
      var at := Topmost(h.mounts, target);
      faults := if ok then faults else faults + 1;
      ok := ok && at.Some?;
      if ok {
        h := h.(mounts := h.mounts[..at.value] + h.mounts[at.value + 1..]);
      }
    }

    /** One turn of its loop. */
    method UmountNext(ghost start: seq<Mount>, device: Device, targets: seq<string>, i: nat, ghost own: bool,
                      ghost quiet: bool)
      returns (ok: bool, ghost own': bool, ghost quiet': bool)
      requires i < |targets| && Underway(start, h.mounts, device, targets, i + 1, own, quiet)
      modifies this
      ensures h == old(h).(mounts := h.mounts) && old(faults) <= faults
      ensures quiet' == (quiet && faults == old(faults))
      ensures if ok then Underway(start, h.mounts, device, targets, i, own', quiet')
              else !(quiet' && Uncovered(start, device))
    {
      ghost var before := h.mounts;
      if quiet && Uncovered(start, device) {
        assert targets[..i + 1] == targets[..i] + [targets[i]];
        NextIsOwn(before, device, targets[..i], targets[i]);
      }
      ok := Umount(targets[i]);
      own', quiet' := own, quiet && faults == old(faults);
      if !ok { return; }
      ghost var k := Topmost(before, targets[i]).value;
      OneUmount(start, before, device, targets[i], i, own, k);
      own' := own && before[k].device == device;
    }

    /** unmountTargets: last mount first, then a look at what remains. Success means that this
        device's mounts are gone and that nothing else was unmounted; unless a command fails by
        itself, that happens exactly when no other device is mounted over one of them. */
    method UnmountTargets(device: Device, targets: seq<string>) returns (ok: bool)
      requires targets == MountsOf(h.mounts, device)
      modifies this
      ensures h == old(h).(mounts := h.mounts)
      ensures ok ==> h.mounts == Without(old(h).mounts, {device})
      ensures ok ==> Uncovered(old(h).mounts, device)
      ensures old(faults) <= faults && (faults == old(faults) && Uncovered(old(h).mounts, device) ==> ok)
    {
      var i := |targets|;
      ghost var start, own, quiet := h.mounts, true, true;
      assert targets[..i] == targets;
      while i > 0
        invariant 0 <= i <= |targets| && h == old(h).(mounts := h.mounts) && old(faults) <= faults
        invariant Underway(start, h.mounts, device, targets, i, own, quiet)
        invariant faults == old(faults) ==> quiet
      {
        i := i - 1;
        ok, own, quiet := UmountNext(start, device, targets, i, own, quiet);
        if !ok { return; }
      }
      ok := MountsOf(h.mounts, device) == [];
      NoMountsOf(h.mounts, device);
      WithoutNothing(h.mounts, {device});
    }

    /** One line of lsblk, in the real run. */
    method Release(l: Line, active: set<Device>) returns (ok: bool)
      modifies this
      ensures h == old(h).(mounts := h.mounts, swaps := h.swaps)
      ensures ok ==> h.mounts == if l.fstype == "swap" then old(h).mounts else Without(old(h).mounts, {l.name})
      ensures ok ==> h.swaps == if l.fstype == "swap" && l.name in active then old(h).swaps - {l.name} else old(h).swaps
      ensures h.swaps <= old(h).swaps
      ensures ok ==> Free(old(h), l, active)
      ensures old(faults) <= faults && (faults == old(faults) && Free(old(h), l, active) ==> ok)
    {
      ok := true;
      if l.fstype == "swap" {
        if l.name in active {
          ok := *;
          faults := if ok then faults else faults + 1;
          ok := ok && l.name in h.swaps;
          if ok { h := h.(swaps := h.swaps - {l.name}); }
        }
        return;
      }
      var targets := MountsOf(h.mounts, l.name);
      if targets == [] {
        NoMountsOf(h.mounts, l.name);
        WithoutNothing(h.mounts, {l.name});
      } else {
        if "/" in targets { return false; }
        ok := UnmountTargets(l.name, targets);
      }
    }

    /** The loop over lsblk's lines, from the last to the first. Unless a command fails by
        itself, it succeeds exactly when every line can be released in its turn. */
    method ReleaseAll() returns (ok: bool)
      modifies this
      ensures h == old(h).(mounts := h.mounts, swaps := h.swaps)
      ensures ok ==> h.mounts == Without(old(h).mounts, UnmountedDevices(old(h)))
      ensures ok ==> h.swaps == old(h).swaps - PlannedSwaps(old(h))
      ensures ok ==> forall i :: 0 <= i < |old(h).lines| ==> Releasable(old(h), i)
      ensures old(faults) <= faults
      ensures faults == old(faults) && (forall i :: 0 <= i < |old(h).lines| ==> Releasable(old(h), i)) ==> ok
    {
      ok := true;
      var active, lines := h.swaps, h.lines;
      WithoutNothing(h.mounts, {});
      var i := |lines|;
      assert NotSwap(lines[i..]) == {};
      while i > 0
        invariant 0 <= i <= |lines| && ok && h == old(h).(mounts := h.mounts, swaps := h.swaps)
        invariant h.mounts == Without(old(h).mounts, NotSwap(lines[i..]))
        invariant h.swaps == old(h).swaps - ActiveOf(lines[i..], active)
        invariant old(faults) <= faults && forall k :: i <= k < |lines| ==> Releasable(old(h), k)
      {
        i := i - 1;
        OneLineMore(lines, i, active);
        ghost var before := h;
        ok := Release(lines[i], active);
        assert Free(before, lines[i], active) <==> Releasable(old(h), i);
        if !ok { return; }
        if lines[i].fstype != "swap" {
          WithoutTwice(old(h).mounts, NotSwap(lines[i + 1..]), {lines[i].name});
        }
      }
      assert lines[0..] == lines;
    }

    /** deactivateLVMOnDisk. In any run, whatever fails: no group that also uses another disk is
        ever deactivated. Unless something fails by itself, it succeeds exactly when there is
        nothing to do it with, or the groups are no obstacle. */
    method DeactivateGroups(device: Device, works: bool) returns (ok: bool, disk: Device)
      modifies this
      ensures h == old(h).(groups := h.groups) && h.groups <= old(h).groups
      ensures forall vg :: vg in old(h).groups && vg !in h.groups ==>
        OnDisk(old(h), device, disk) && vg in GroupsOn(old(h), disk) && Confined(old(h), vg, disk)
      ensures ok && works ==>
        h.groups == if h.hasPvs && h.hasVgchange then old(h).groups - GroupsOn(old(h), disk) else old(h).groups
      ensures ok && works && h.hasPvs && h.hasVgchange ==> OnDisk(h, device, disk) && GroupsReady(old(h), device)
      ensures old(faults) <= faults
      ensures faults == old(faults) && works && (h.hasPvs && h.hasVgchange ==> GroupsReady(old(h), device)) ==> ok
    {
      disk := device;
      if !h.hasPvs || !h.hasVgchange { return true, disk; }
      var top := FindTopDisk(h, device, works);
      if top.None? { return false, disk; }
      disk := top.value;
      var groups := CollectGroups(h, disk, works);
      var todo := groups;
      while todo != {}
        invariant todo <= groups <= GroupsOn(old(h), disk) && old(faults) <= faults
        invariant h == old(h).(groups := h.groups) && h.groups == old(h).groups - (groups - todo)
        invariant forall vg :: vg in groups - todo ==> Confined(old(h), vg, disk)
        decreases |todo|
      {
        var vg :| vg in todo;
        var good := CheckConfined(h, vg, disk, works);
        assert good ==> Confined(old(h), vg, disk);
        if !good { return false, disk; }
        var done, said, verified: bool := *, *, *;
        if done {
          h := h.(groups := h.groups - {vg});
        }
        todo := todo - {vg};
        if !(done && said && verified) {
          faults := faults + 1;
          return false, disk;
        }
      }
      ok := true;
    }

    /** prepareDestructiveChange. */
    method Prepare(device: Device, works: bool) returns (ok: bool, ghost disk: Device)
      modifies this
      ensures ok && works ==> h == After(old(h), disk)
      ensures ok && works && h.hasPvs && h.hasVgchange ==> OnDisk(old(h), device, disk)
      ensures forall vg :: vg in old(h).groups && vg !in h.groups ==>
        OnDisk(old(h), device, disk) && Confined(old(h), vg, disk)
      ensures ok && works ==> Preparable(old(h), device)
      ensures old(faults) <= faults && (faults == old(faults) && works && Preparable(old(h), device) ==> ok)
    {
      disk := device;
      ok := ReleaseAll();
      if !ok { return; }
      GroupsStayReady(old(h), h, device);
      ok, disk := DeactivateGroups(device, works);
    }

    /** A dry run and then the change, with nothing in between. `p`: what the dry run listed.
        When both succeed, the host is the one the list announced, exactly when every listed mount
        is of a device that the real run unmounts, and listed groups can be deactivated here. The
        change succeeds after the dry run, unless a command fails by itself, exactly when every
        line of lsblk can be released in its turn. */
    method PlanThenRun(device: Device, works: bool) returns (planned: bool, ok: bool, p: Plan)
      modifies this
      ensures ok && works ==>
        (h == AsPlanned(old(h), p) <==>
           && (forall m :: m in p.mounts ==> m.device in UnmountedDevices(old(h)))
           && (old(h).hasPvs && !old(h).hasVgchange ==> old(h).groups !! p.groups))
      ensures ok && works ==> forall m :: m in p.mounts <==> m in old(h).mounts && m.device in PlannedDevices(old(h))
      ensures forall vg :: vg in old(h).groups && vg !in h.groups ==>
        exists disk :: OnDisk(old(h), device, disk) && Confined(old(h), vg, disk)
      ensures works ==> (planned <==> Inspectable(old(h), device)) && (ok ==> planned)
      ensures !planned ==> h == old(h)
      ensures old(faults) <= faults
      ensures planned && works && faults == old(faults) ==>
        (ok <==> forall i :: 0 <= i < |old(h).lines| ==> Releasable(old(h), i))
    {
      var disk;
      planned, p, disk := Inspect(h, device, works);
      ok := false;
      if !planned { return; }
      ghost var prepared;
      ok, prepared := Prepare(device, works);
      if ok && works {
        DryRunIsRunExactly(old(h), disk, p);
        assert After(old(h), prepared) == After(old(h), disk);
      }
    }
  }
}

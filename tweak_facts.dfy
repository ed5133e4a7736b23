/**
 * What running an applier's blocks does to the registry, the command log and the
 * status log, for every profile, inventory and host.
 */
module TweakFacts {
  import opened Wrappers
  import opened Text
  import opened Inventory
  import opened RegistryKeys
  import opened Effects
  import opened ScriptOutput
  import opened Tweaks
  import opened Hardware

  lemma AllGuardedAppend(a: seq<Block>, b: seq<Block>)
    requires AllGuarded(a) && AllGuarded(b)
    ensures AllGuarded(a + b)
  {
    forall i | 0 <= i < |a + b| ensures (a + b)[i].Guarded? {
      if i < |a| { assert (a + b)[i] == a[i]; } else { assert (a + b)[i] == b[i - |a|]; }
    }
  }

  // ---------------------------------------------------------------- GPU

  lemma {:induction false} GpuEntriesGuarded(profile: Profile, es: seq<Entry>)
    ensures AllGuarded(GpuEntriesBlocks(profile, es))
  {
    if es != [] {
      GpuEntriesGuarded(profile, es[..|es| - 1]);
      AllGuardedAppend(GpuEntriesBlocks(profile, es[..|es| - 1]), GpuEntryBlocks(profile, es[|es| - 1].value));
    }
  }

  /**
   * The GPU applier fails exactly when the DirectX preferences key cannot be opened;
   * otherwise it leaves the profile's VRR setting there, so the swap-effect value the
   * NVIDIA gaming helper writes to the same name never survives a successful run.
   */
  lemma GpuOutcome(w: World, denied: set<RegKey>, profile: Profile, info: Dictionary)
    ensures GpuPlan(profile, info).Some?
    ensures RunBlocks(w, denied, GpuPlan(profile, info).value).ok <==> DirectXKey !in denied
    ensures RunBlocks(w, denied, GpuPlan(profile, info).value).ok ==>
      Lookup(RunBlocks(w, denied, GpuPlan(profile, info).value).world.registry,
             RegName(DirectXKey, "DirectXUserGlobalSettings")) == Some(Str(VrrSetting(profile)))
  {
    var es := GpuEntriesBlocks(profile, WithPrefix(info, "GPU"));
    assert GpuPlan(profile, info).value == es + [DirectXBlock(profile)];
    GpuEntriesGuarded(profile, WithPrefix(info, "GPU"));
    GuardedNeverFails(w, denied, es);
    RunBlocksAppend(w, denied, es, [DirectXBlock(profile)]);
    var o := RunBlocks(w, denied, es);
    RunBlocksOne(o.world, denied, DirectXBlock(profile));
    var step := Write(DirectXKey, [Assignment("DirectXUserGlobalSettings", Str(VrrSetting(profile)))]);
    RunStepsOne(o.world, denied, step);
    SetAllLookup(o.world.registry, DirectXKey, step.values, RegName(DirectXKey, "DirectXUserGlobalSettings"));
  }

  // ---------------------------------------------------------------- network

  /**
   * The network applier never fails; its first effect is its status message, and the
   * logs it leaves extend the ones it found.
   */
  lemma NetworkNeverFails(w: World, denied: set<RegKey>, profile: Profile, host: Host)
    ensures NetworkPlan(profile, host).Some?
    ensures RunBlocks(w, denied, NetworkPlan(profile, host).value).ok
    ensures w.statuses + ["Optimizing network for lower latency and ping..."]
         <= RunBlocks(w, denied, NetworkPlan(profile, host).value).world.statuses
    ensures w.actions <= RunBlocks(w, denied, NetworkPlan(profile, host).value).world.actions
  {
    var bs := NetworkPlan(profile, host).value;
    var first := bs[..1];
    var rest := bs[1..];
    assert bs == first + rest;
    assert first == [bs[0]];
    assert AllGuarded(rest);
    RunBlocksAppend(w, denied, first, rest);
    RunBlocksOne(w, denied, bs[0]);
    RunStepsOne(w, denied, Notify("Optimizing network for lower latency and ping..."));
    var o := RunBlocks(w, denied, first);
    assert o.world.statuses == w.statuses + ["Optimizing network for lower latency and ping..."];
    GuardedNeverFails(o.world, denied, rest);
    RunBlocksAppends(o.world, denied, rest);
  }

  /**
   * With the TCP/IP parameters key writable, RFC 1323 window scaling and timestamps
   * end up on, except under Gaming, which turns them back off; the retransmission
   * limit is 3 and the default TTL 64.
   */
  lemma TcpOptions(w: World, denied: set<RegKey>, profile: Profile)
    requires TcpipParametersKey !in denied
    ensures var r := RunBlock(w, denied, TcpIpBlock(profile)).world.registry;
      && Lookup(r, RegName(TcpipParametersKey, "Tcp1323Opts")) == Some(DWord(if profile == Gaming then 0 else 1))
      && Lookup(r, RegName(TcpipParametersKey, "TcpMaxDataRetransmissions")) == Some(DWord(3))
      && Lookup(r, RegName(TcpipParametersKey, "DefaultTTL")) == Some(DWord(64))
  {
    var rest := if profile == Gaming then [Write(PschedKey, [DWordValue("NonBestEffortLimit", 0)])] else [];
    assert TcpipParametersKey != PschedKey;
    var vs := TcpipValues(profile);
    if profile == Gaming {
      LastValueAt(vs, "Tcp1323Opts", 3);
      LastValueAt(vs, "TcpMaxDataRetransmissions", 1);
      LastValueAt(vs, "DefaultTTL", 2);
    } else {
      LastValueAt(vs, "Tcp1323Opts", 0);
      LastValueAt(vs, "TcpMaxDataRetransmissions", 1);
      LastValueAt(vs, "DefaultTTL", 2);
    }
    assert StepsAvoid(rest, RegName(TcpipParametersKey, "Tcp1323Opts"));
    FirstWriteSticks(w, denied, TcpipParametersKey, TcpipValues(profile), rest, RegName(TcpipParametersKey, "Tcp1323Opts"));
    FirstWriteSticks(w, denied, TcpipParametersKey, TcpipValues(profile), rest, RegName(TcpipParametersKey, "TcpMaxDataRetransmissions"));
    FirstWriteSticks(w, denied, TcpipParametersKey, TcpipValues(profile), rest, RegName(TcpipParametersKey, "DefaultTTL"));
  }
  // ---------------------------------------------------------------- disks

  lemma {:induction false} DiskEntriesGuarded(profile: Profile, es: seq<Entry>)
    ensures AllGuarded(DiskEntriesBlocks(profile, es))
  {
    if es != [] {
      DiskEntriesGuarded(profile, es[..|es| - 1]);
      AllGuardedAppend(DiskEntriesBlocks(profile, es[..|es| - 1]), DiskEntryBlocks(profile, es[|es| - 1].value));
    }
  }

  /** Every disk helper catches its own errors, so the disk applier never fails. */
  lemma DiskNeverFails(w: World, denied: set<RegKey>, profile: Profile, info: Dictionary)
    ensures DiskPlan(profile, info).Some?
    ensures RunBlocks(w, denied, DiskPlan(profile, info).value).ok
  {
    DiskEntriesGuarded(profile, WithPrefix(info, "Disk"));
    AllGuardedAppend(DiskEntriesBlocks(profile, WithPrefix(info, "Disk")), [SystemServicesBlock(profile)]);
    GuardedNeverFails(w, denied, DiskPlan(profile, info).value);
  }

  const LargeSystemCache := RegName(MemoryManagementKey, "LargeSystemCache")
  const TimeoutValue := RegName(DiskTimeoutKey, "TimeoutValue")

  /** The disk time-out the hard-disk helper sets: a minute under PowerSaver, half a minute otherwise. */
  function HddTimeout(profile: Profile): RegValue {
    DWord(if profile == PowerSaver then 60 else 30)
  }

  /** The SSD branch: TRIM and the defragmentation task, then registry values only, never the time-out. */
  lemma SsdEntryRun(w: World, denied: set<RegKey>)
    ensures var o := RunBlocks(w, denied, [Once(Exec(EnableTrim)), Once(Exec(DisableScheduledDefrag)), SsdBlock()]);
      && o.world.actions == w.actions + [EnableTrim, DisableScheduledDefrag]
      && o.world.statuses == w.statuses
      && Lookup(o.world.registry, TimeoutValue) == Lookup(w.registry, TimeoutValue)
  {
    var b1, b2, b3 := Once(Exec(EnableTrim)), Once(Exec(DisableScheduledDefrag)), SsdBlock();
    assert [b1, b2, b3] == [b1, b2] + [b3];
    assert [b1, b2] == [b1] + [b2];
    RunBlocksAppend(w, denied, [b1, b2], [b3]);
    RunBlocksAppend(w, denied, [b1], [b2]);
    RunBlocksOne(w, denied, b1);
    RunStepsOne(w, denied, Exec(EnableTrim));
    var o1 := RunBlocks(w, denied, [b1]);
    RunBlocksOne(o1.world, denied, b2);
    RunStepsOne(o1.world, denied, Exec(DisableScheduledDefrag));
    var o2 := RunBlocks(w, denied, [b1, b2]);
    RunBlocksOne(o2.world, denied, b3);
    RunStepsOnlyWrites(o2.world, denied, b3.steps);
    assert BlocksAvoid([b1, b2, b3], TimeoutValue);
    RunBlocksPreserves(w, denied, [b1, b2, b3], TimeoutValue);
  }

  /** The hard-disk branch starts nothing and sets the time-out unless its key is denied. */
  lemma HddEntryRun(w: World, denied: set<RegKey>, profile: Profile)
    requires MemoryManagementKey !in denied
    ensures var o := RunBlocks(w, denied, [HddBlock(profile)]);
      && o.world.actions == w.actions
      && o.world.statuses == w.statuses
      && Lookup(o.world.registry, TimeoutValue)
         == if DiskTimeoutKey in denied then Lookup(w.registry, TimeoutValue) else Some(HddTimeout(profile))
  {
    var b := HddBlock(profile);
    RunBlocksOne(w, denied, b);
    RunStepsTwo(w, denied, b.steps[0], b.steps[1]);
    assert b.steps == [b.steps[0], b.steps[1]];
    var o1 := RunStep(w, denied, b.steps[0]);
    SetAllLookup(w.registry, MemoryManagementKey, b.steps[0].values, TimeoutValue);
    if DiskTimeoutKey !in denied {
      SetAllLookup(o1.world.registry, DiskTimeoutKey, b.steps[1].values, TimeoutValue);
      assert b.steps[1].values[..0] == [];
    }
  }

  /**
   * One disk entry: the cache setting is off for an SSD or under Gaming and on
   * otherwise; an SSD gets TRIM and its defragmentation task disabled and keeps the
   * disk time-out, while a hard disk starts no command and gets the time-out of its
   * profile (when that key opens).
   */
  lemma DiskEntryCache(w: World, denied: set<RegKey>, profile: Profile, model: string)
    requires MemoryManagementKey !in denied
    ensures RunBlocks(w, denied, DiskEntryBlocks(profile, model)).ok
    ensures Lookup(RunBlocks(w, denied, DiskEntryBlocks(profile, model)).world.registry, LargeSystemCache)
         == Some(DWord(if IsSsd(model) || profile == Gaming then 0 else 1))
    ensures RunBlocks(w, denied, DiskEntryBlocks(profile, model)).world.actions
         == w.actions + (if IsSsd(model) then [EnableTrim, DisableScheduledDefrag] else [])
    ensures RunBlocks(w, denied, DiskEntryBlocks(profile, model)).world.statuses == w.statuses
    ensures Lookup(RunBlocks(w, denied, DiskEntryBlocks(profile, model)).world.registry, TimeoutValue)
         == if !IsSsd(model) && DiskTimeoutKey !in denied then Some(HddTimeout(profile)) else Lookup(w.registry, TimeoutValue)
  {
    DiskEntryLargeCache(w, denied, profile, model);
    if IsSsd(model) {
      SsdEntryRun(w, denied);
    } else {
      HddEntryRun(w, denied, profile);
    }
  }

  lemma DiskEntryLargeCache(w: World, denied: set<RegKey>, profile: Profile, model: string)
    requires MemoryManagementKey !in denied
    ensures RunBlocks(w, denied, DiskEntryBlocks(profile, model)).ok
    ensures Lookup(RunBlocks(w, denied, DiskEntryBlocks(profile, model)).world.registry, LargeSystemCache)
         == Some(DWord(if IsSsd(model) || profile == Gaming then 0 else 1))
  {
    var bs := DiskEntryBlocks(profile, model);
    var b := bs[|bs| - 1];
    var before := bs[..|bs| - 1];
    assert bs == before + [b];
    assert AllGuarded(before);
    GuardedNeverFails(w, denied, before);
    RunBlocksAppend(w, denied, before, [b]);
    var o := RunBlocks(w, denied, before);
    RunBlocksOne(o.world, denied, b);
    assert MemoryManagementKey != FileSystemKey && MemoryManagementKey != DiskTimeoutKey;
    var rest := b.steps[1..];
    assert b.steps == [b.steps[0]] + rest;
    assert StepsAvoid(rest, LargeSystemCache);
    FirstWriteSticks(o.world, denied, MemoryManagementKey, b.steps[0].values, rest, LargeSystemCache);
  }

  /**
   * With at least one "Disk" entry and the memory-management key writable, the
   * large-system-cache setting the disk applier leaves is decided by the LAST entry
   * alone: every entry rewrites it, and the services step does not touch it.
   */
  lemma DiskCache(w: World, denied: set<RegKey>, profile: Profile, info: Dictionary)
    requires MemoryManagementKey !in denied && HasKeyWithPrefix(info, "Disk")
    ensures DiskPlan(profile, info).Some?
    ensures var last := WithPrefix(info, "Disk")[|WithPrefix(info, "Disk")| - 1];
      Lookup(RunBlocks(w, denied, DiskPlan(profile, info).value).world.registry, LargeSystemCache)
      == Some(DWord(if IsSsd(last.value) || profile == Gaming then 0 else 1))
    ensures var last := WithPrefix(info, "Disk")[|WithPrefix(info, "Disk")| - 1];
      !IsSsd(last.value) && DiskTimeoutKey !in denied ==>
      Lookup(RunBlocks(w, denied, DiskPlan(profile, info).value).world.registry, TimeoutValue) == Some(HddTimeout(profile))
  {
    var es := WithPrefix(info, "Disk");
    var n := |es| - 1;
    DiskPlanSplit(profile, info);
    DiskEntriesGuarded(profile, es[..n]);
    DiskRunCache(w, denied, profile, DiskEntriesBlocks(profile, es[..n]), es[n].value);
  }

  /** The disk plan is the blocks of all "Disk" entries but the last, the last one's, then the services. */
  lemma DiskPlanSplit(profile: Profile, info: Dictionary)
    requires HasKeyWithPrefix(info, "Disk")
    ensures var es := WithPrefix(info, "Disk");
      DiskPlan(profile, info).value
      == (DiskEntriesBlocks(profile, es[..|es| - 1]) + DiskEntryBlocks(profile, es[|es| - 1].value))
         + [SystemServicesBlock(profile)]
  {
  }

  /** Guarded blocks, then one entry's blocks, then the services: the entry decides the cache setting. */
  lemma DiskRunCache(w: World, denied: set<RegKey>, profile: Profile, a: seq<Block>, model: string)
    requires MemoryManagementKey !in denied && AllGuarded(a)
    ensures Lookup(RunBlocks(w, denied, (a + DiskEntryBlocks(profile, model)) + [SystemServicesBlock(profile)]).world.registry,
                   LargeSystemCache)
         == Some(DWord(if IsSsd(model) || profile == Gaming then 0 else 1))
    ensures !IsSsd(model) && DiskTimeoutKey !in denied ==>
      Lookup(RunBlocks(w, denied, (a + DiskEntryBlocks(profile, model)) + [SystemServicesBlock(profile)]).world.registry,
             TimeoutValue) == Some(HddTimeout(profile))
  {
    var b := DiskEntryBlocks(profile, model);
    var svc := [SystemServicesBlock(profile)];
    GuardedNeverFails(w, denied, a);
    RunBlocksAppend(w, denied, a, b);
    var o1 := RunBlocks(w, denied, a);
    DiskEntryCache(o1.world, denied, profile, model);
    RunBlocksAppend(w, denied, a + b, svc);
    var o2 := RunBlocks(w, denied, a + b);
    assert BlocksAvoid(svc, LargeSystemCache);
    RunBlocksPreserves(o2.world, denied, svc, LargeSystemCache);
    assert BlocksAvoid(svc, TimeoutValue);
    RunBlocksPreserves(o2.world, denied, svc, TimeoutValue);
  }

  /** When the inventory's last entry is a "Disk" entry that is not an SSD, the hard-disk setting stays. */
  lemma LastDiskEntryCache(w: World, denied: set<RegKey>, profile: Profile, info: Dictionary)
    requires MemoryManagementKey !in denied && info != []
    requires StartsWith(info[|info| - 1].key, "Disk") && !IsSsd(info[|info| - 1].value)
    ensures DiskPlan(profile, info).Some?
    ensures Lookup(RunBlocks(w, denied, DiskPlan(profile, info).value).world.registry, LargeSystemCache)
         == Some(DWord(if profile == Gaming then 0 else 1))
    ensures DiskTimeoutKey !in denied ==>
      Lookup(RunBlocks(w, denied, DiskPlan(profile, info).value).world.registry, TimeoutValue) == Some(HddTimeout(profile))
  {
    WithPrefixLast(info, "Disk");
    assert HasKeyWithPrefix(info, "Disk");
    DiskCache(w, denied, profile, info);
  }

  /**
   * A size the hardware inventory records ("<n> GB") is never taken for an SSD, so
   * a "Disk.<i>.Size" entry always takes the hard-disk branch.
   */
  lemma SizeIsNotSsd(k: DiskDrive)
    ensures !IsSsd(DiskSizeText(k))
  {
    var s := DiskSizeText(k);
    var digits := NatToString(OrZero(k.size) / BytesPerGB);
    assert s == digits + " GB";
    forall i | 0 <= i < |s| ensures s[i] != 'S' {
      if i < |digits| { assert s[i] == digits[i]; assert IsDigit(digits[i]); }
    }
    NotContainsByFirstChar(s, "SSD");
    NotContainsByFirstChar(s, "Solid State");
  }
  /**
   * On an inventory the hardware service collected without error, the "Disk"-prefixed
   * keys include the size entries and the last of them is a size; so whatever the
   * drives are, the disk applier leaves the large-system-cache setting of a hard disk:
   * off under Gaming, on otherwise.
   */
  lemma CollectedDiskCache(hw: Wmi, w: World, denied: set<RegKey>, profile: Profile)
    requires !CollectPartial(hw).failed && hw.disks.Answered? && |hw.disks.rows| > 0
    requires MemoryManagementKey !in denied
    ensures DiskPlan(profile, Collect(hw)).Some?
    ensures Lookup(RunBlocks(w, denied, DiskPlan(profile, Collect(hw)).value).world.registry, LargeSystemCache)
         == Some(DWord(if profile == Gaming then 0 else 1))
    ensures DiskTimeoutKey !in denied ==>
      Lookup(RunBlocks(w, denied, DiskPlan(profile, Collect(hw)).value).world.registry, TimeoutValue)
      == Some(HddTimeout(profile))
  {
    CollectedLastIsDiskSize(hw);
    LastDiskEntryCache(w, denied, profile, Collect(hw));
  }

  /** The last entry of such an inventory is a "Disk" size, never taken for an SSD. */
  lemma CollectedLastIsDiskSize(hw: Wmi)
    requires !CollectPartial(hw).failed && hw.disks.Answered? && |hw.disks.rows| > 0
    ensures var info := Collect(hw);
      info != [] && StartsWith(info[|info| - 1].key, "Disk") && !IsSsd(info[|info| - 1].value)
  {
    var n := |hw.disks.rows| - 1;
    CollectLastEntry(hw);
    DeviceKeyPrefix("Disk", n, "Size");
    SizeIsNotSsd(hw.disks.rows[n]);
  }
  // ---------------------------------------------------------------- memory

  /** The memory appliers read back the size the hardware service wrote: "<n> MB" parses to n. */
  lemma RamMBOfRamText(info: Dictionary, n: nat)
    requires Get(info, "RAM.Total") == Some(RamText(n)) && n <= LongMax
    ensures RamMB(info) == Some(n)
  {
    var digits := NatToString(n);
    assert ' ' !in digits by {
      forall i | 0 <= i < |digits| ensures digits[i] != ' ' { assert IsDigit(digits[i]); }
    }
    RemoveAllDropsOccurrence(digits, [], " MB");
    assert digits + " MB" + [] == RamText(n);
    assert digits + [] == digits;
    ParseLongOfNatToString(n);
  }

  lemma FallbackRamText()
    ensures RamText(8192) == "8192 MB"
  {
    assert NatToString(8) == "8";
    assert NatToString(81) == NatToString(8) + "1";
    assert NatToString(819) == NatToString(81) + "9";
    assert NatToString(8192) == NatToString(819) + "2";
  }

  /**
   * The RAM size always parses on an inventory the hardware service produced: it is
   * the modules' total when the collection succeeded, and the 8192 MB placeholder
   * when it threw (so the placeholder alone never makes memory compression go off).
   */
  lemma CollectedRamMB(hw: Wmi)
    requires hw.memory.Answered? ==> RamTotalMB(hw.memory.rows) <= LongMax
    ensures !CollectPartial(hw).failed ==> hw.memory.Answered? && RamMB(Collect(hw)) == Some(RamTotalMB(hw.memory.rows))
    ensures CollectPartial(hw).failed ==> RamMB(Collect(hw)) == Some(8192)
  {
    if !CollectPartial(hw).failed {
      CollectCompleteRam(hw);
      RamMBOfRamText(Collect(hw), RamTotalMB(hw.memory.rows));
    } else {
      FallbackGet(CollectPartial(hw).dict, "RAM.Total");
      FallbackRamText();
      RamMBOfRamText(Collect(hw), 8192);
    }
  }

  /** Hence the memory applier never fails for want of a parsable size on such an inventory. */
  lemma CollectedMemoryApplies(hw: Wmi, profile: Profile)
    requires hw.memory.Answered? ==> RamTotalMB(hw.memory.rows) <= LongMax
    ensures MemoryPlan(profile, Collect(hw)).Some?
  {
    CollectedRamMB(hw);
  }

  /** Memory compression goes off under Gaming always, and otherwise by the size thresholds. */
  predicate CompressesMemory(profile: Profile, info: Dictionary) {
    match profile
    case Gaming => true
    case PowerSaver => false
    case Productivity => RamMB(info).Some? && RamMB(info).value > 16384
    case _ => RamMB(info).Some? && RamMB(info).value > 32768
  }

  lemma PageFileBlockWrites(profile: Profile, info: Dictionary)
    ensures PageFileBlock(profile, info).Guarded? && OnlyWrites(PageFileBlock(profile, info).steps)
  {
  }

  /**
   * When the memory applier runs, it never fails, raises no status message, and
   * starts exactly one command, the one that disables memory compression, when the
   * profile's rule asks for it, and none otherwise.
   */
  lemma MemoryActions(w: World, denied: set<RegKey>, profile: Profile, info: Dictionary)
    requires MemoryPlan(profile, info).Some?
    ensures var o := RunBlocks(w, denied, MemoryPlan(profile, info).value);
      && o.ok
      && o.world.statuses == w.statuses
      && o.world.actions == w.actions + (if CompressesMemory(profile, info) then [DisableMemoryCompression] else [])
  {
    var tail := MemoryPlanTail(profile, info);
    CompressionThenWrites(w, denied, CompressesMemory(profile, info), tail);
  }

  /** An optional compression command, then blocks of registry writes. */
  lemma CompressionThenWrites(w: World, denied: set<RegKey>, compress: bool, tail: seq<Block>)
    requires forall i :: 0 <= i < |tail| ==> tail[i].Guarded? && OnlyWrites(tail[i].steps)
    ensures var o := RunBlocks(w, denied, (if compress then [CompressionBlock()] else []) + tail);
      && o.ok
      && o.world.statuses == w.statuses
      && o.world.actions == w.actions + (if compress then [DisableMemoryCompression] else [])
  {
    var head := if compress then [CompressionBlock()] else [];
    RunBlocksAppend(w, denied, head, tail);
    var o := RunBlocks(w, denied, head);
    if compress {
      RunBlocksOne(w, denied, CompressionBlock());
      RunStepsOne(w, denied, Exec(DisableMemoryCompression));
    }
    WriteBlocksKeepLogs(o.world, denied, tail);
  }

  /** What the memory applier does besides the compression command: registry writes only. */
  function MemoryPlanTail(profile: Profile, info: Dictionary): (tail: seq<Block>)
    requires MemoryPlan(profile, info).Some?
    ensures forall i :: 0 <= i < |tail| ==> tail[i].Guarded? && OnlyWrites(tail[i].steps)
    ensures MemoryPlan(profile, info).value
         == (if CompressesMemory(profile, info) then [CompressionBlock()] else []) + tail
  {
    PageFileBlockWrites(profile, info);
    if profile == Gaming then [PageFileBlock(profile, info), ServiceWorkingSetBlock()]
    else [PageFileBlock(profile, info)]
  }

  lemma {:induction false} WriteBlocksKeepLogs(w: World, denied: set<RegKey>, bs: seq<Block>)
    requires forall i :: 0 <= i < |bs| ==> bs[i].Guarded? && OnlyWrites(bs[i].steps)
    ensures var o := RunBlocks(w, denied, bs);
      o.ok && o.world.actions == w.actions && o.world.statuses == w.statuses
  {
    if bs != [] {
      var k := |bs| - 1;
      assert forall i :: 0 <= i < k ==> bs[..k][i] == bs[i];
      WriteBlocksKeepLogs(w, denied, bs[..k]);
      RunStepsOnlyWrites(RunBlocks(w, denied, bs[..k]).world, denied, bs[k].steps);
    }
  }
  /**
   * On a collected inventory, compression goes off under Gaming always, and otherwise
   * only when a successful collection found more than the profile's threshold.
   */
  lemma CollectedCompression(hw: Wmi, profile: Profile)
    requires hw.memory.Answered? ==> RamTotalMB(hw.memory.rows) <= LongMax
    ensures CollectPartial(hw).failed ==> (CompressesMemory(profile, Collect(hw)) <==> profile == Gaming)
    ensures !CollectPartial(hw).failed ==> hw.memory.Answered? && (CompressesMemory(profile, Collect(hw)) <==>
      match profile
      case Gaming => true
      case PowerSaver => false
      case Productivity => RamTotalMB(hw.memory.rows) > 16384
      case _ => RamTotalMB(hw.memory.rows) > 32768)
  {
    CollectedRamMB(hw);
  }

  /**
   * The page-file size is the RAM size times the multiplier with the fraction dropped,
   * capped at 32768 MB: never negative for a non-negative size, and no larger than
   * the cap.
   */
  lemma PageFileSizeSpec(profile: Profile, ram: int)
    requires ram >= 0
    ensures var m := Multiplier(profile); var s := PageFileSize(profile, ram);
      && 0 <= s <= PageFileCap
      && (s < PageFileCap ==> s * m.1 <= ram * m.0 < (s + 1) * m.1)
      && (s == PageFileCap ==> PageFileCap * m.1 <= ram * m.0)
  {
  }

  lemma TruncDivMonotone(a: int, b: int, d: nat)
    requires d > 0 && a <= b
    ensures TruncDiv(a, d) <= TruncDiv(b, d)
  {
    if a >= 0 {
      DivMonotone(a, b, d);
    } else if b < 0 {
      DivMonotone(-b, -a, d);
      assert TruncDiv(a, d) == -((-a) / d) && TruncDiv(b, d) == -((-b) / d);
    } else {
      assert TruncDiv(a, d) == -((-a) / d) <= 0;
      DivMonotone(0, b, d);
    }
  }

  lemma DivMonotone(a: nat, b: nat, d: nat)
    requires d > 0 && a <= b
    ensures a / d <= b / d
  {
    var q, r := a / d, b / d;
    assert a == q * d + a % d && b == r * d + b % d;
    if q > r {
      MulMonotone(r + 1, q, d);
      assert false;
    }
  }

  lemma MulMonotone(x: nat, y: nat, d: nat)
    requires x <= y
    ensures x * d <= y * d
  {
  }

  /** More RAM never gives a smaller page file. */
  lemma PageFileSizeMonotone(profile: Profile, a: int, b: int)
    requires a <= b
    ensures PageFileSize(profile, a) <= PageFileSize(profile, b)
  {
    var m := Multiplier(profile);
    assert a * m.0 <= b * m.0;
    TruncDivMonotone(a * m.0, b * m.0, m.1);
  }

  /**
   * When the size parses and the key is writable, the memory applier leaves the
   * paging-file setting at the computed size, as both the initial and the maximum.
   */
  lemma PageFileWritten(w: World, denied: set<RegKey>, profile: Profile, info: Dictionary)
    requires MemoryPlan(profile, info).Some? && RamMB(info).Some? && MemoryManagementKey !in denied
    ensures Lookup(RunBlocks(w, denied, MemoryPlan(profile, info).value).world.registry,
                   RegName(MemoryManagementKey, "PagingFiles"))
         == Some(Str(PagingFilesText(PageFileSize(profile, RamMB(info).value))))
  {
    var n := RegName(MemoryManagementKey, "PagingFiles");
    var compress := CompressesMemory(profile, info);
    var head := if compress then [CompressionBlock()] else [];
    var tail := MemoryPlanTail(profile, info);
    var pf := PageFileBlock(profile, info);
    MemoryTailAvoids(profile, info);
    assert tail == [pf] + tail[1..];
    assert head + tail == (head + [pf]) + tail[1..];
    CompressionThenBlock(w, denied, compress, pf, tail[1..], n);
    PageFileValue(RunBlocks(w, denied, head).world, denied, profile, info);
  }

  /** After the page-file block, the memory applier's remaining blocks leave "PagingFiles" alone. */
  lemma MemoryTailAvoids(profile: Profile, info: Dictionary)
    requires MemoryPlan(profile, info).Some?
    ensures var tail := MemoryPlanTail(profile, info);
      tail != [] && tail[0] == PageFileBlock(profile, info)
      && BlocksAvoid(tail[1..], RegName(MemoryManagementKey, "PagingFiles"))
  {
    var tail := MemoryPlanTail(profile, info);
    if profile == Gaming {
      LastValueAbsent(ServiceWorkingSetBlock().steps[0].values, "PagingFiles");
      assert tail[1..] == [ServiceWorkingSetBlock()];
    } else {
      assert tail[1..] == [];
    }
  }

  /** An optional compression command, one block, then blocks that avoid `n`: the block decides `n`. */
  lemma CompressionThenBlock(w: World, denied: set<RegKey>, compress: bool, b: Block, rest: seq<Block>, n: RegName)
    requires BlocksAvoid(rest, n)
    ensures var head := if compress then [CompressionBlock()] else [];
      Lookup(RunBlocks(w, denied, (head + [b]) + rest).world.registry, n)
      == Lookup(RunBlocks(RunBlocks(w, denied, head).world, denied, [b]).world.registry, n)
  {
    var head := if compress then [CompressionBlock()] else [];
    MemoryHeadOk(w, denied, head);
    RunBlocksAppend(w, denied, head + [b], rest);
    RunBlocksAppend(w, denied, head, [b]);
    var o := RunBlocks(w, denied, head);
    RunBlocksOne(o.world, denied, b);
    RunBlocksPreserves(RunBlocks(w, denied, head + [b]).world, denied, rest, n);
  }

  lemma PageFileValue(w: World, denied: set<RegKey>, profile: Profile, info: Dictionary)
    requires RamMB(info).Some? && MemoryManagementKey !in denied
    ensures RunBlocks(w, denied, [PageFileBlock(profile, info)]).ok
    ensures Lookup(RunBlocks(w, denied, [PageFileBlock(profile, info)]).world.registry,
                   RegName(MemoryManagementKey, "PagingFiles"))
         == Some(Str(PagingFilesText(PageFileSize(profile, RamMB(info).value))))
  {
    var size := PageFileSize(profile, RamMB(info).value);
    assert PageFileBlock(profile, info) == PageFileWrite(size);
    PageFileWriteRun(w, denied, size);
  }

  /** The block `OptimizePageFile` runs once the RAM size has parsed. */
  function PageFileWrite(size: int): Block {
    Once(Write(MemoryManagementKey,
      [Assignment("PagingFiles", Str(PagingFilesText(size))), DWordValue("ClearPageFileAtShutdown", 0)]))
  }

  lemma PageFileWriteRun(w: World, denied: set<RegKey>, size: int)
    requires MemoryManagementKey !in denied
    ensures RunBlocks(w, denied, [PageFileWrite(size)]).ok
    ensures Lookup(RunBlocks(w, denied, [PageFileWrite(size)]).world.registry,
                   RegName(MemoryManagementKey, "PagingFiles"))
         == Some(Str(PagingFilesText(size)))
  {
    var pf := PageFileWrite(size);
    RunBlocksOne(w, denied, pf);
    RunStepsOne(w, denied, pf.steps[0]);
    LastValueAt(pf.steps[0].values, "PagingFiles", 0);
    SetAllLookup(w.registry, MemoryManagementKey, pf.steps[0].values, RegName(MemoryManagementKey, "PagingFiles"));
  }

  lemma MemoryHeadOk(w: World, denied: set<RegKey>, head: seq<Block>)
    requires head == [] || head == [CompressionBlock()]
    ensures RunBlocks(w, denied, head).ok
  {
    assert AllGuarded(head);
    GuardedNeverFails(w, denied, head);
  }
  // ---------------------------------------------------------------- CPU

  /**
   * `SetPowerPlan` never fails and writes nothing to the registry. It lists the plans
   * and activates `g` exactly when `g` is the plan's GUID in the listing (by
   * `PlanGuidSpec`, the first GUID on the first line that names the plan and holds
   * one). It duplicates the Ultimate Performance scheme and tries again only when no
   * line names the plan with a GUID and the listing does not mention that plan at all.
   */
  lemma SetPowerPlanRun(w: World, denied: set<RegKey>, plan: string, listing: string, g: string)
    ensures var o := RunBlock(w, denied, SetPowerPlanBlock(plan, listing));
      && o.ok && o.world.registry == w.registry
      && (o.world.actions == w.actions + [PowerCfgList, PowerCfgSetActive(g)]
          <==> PlanGuid(SplitLines(listing), plan) == Some(g))
      && (o.world.actions == w.actions + [PowerCfgList, PowerCfgDuplicateUltimate, RetrySetPowerPlan(plan)]
          <==> PlanGuid(SplitLines(listing), plan).None?
               && plan == "Ultimate Performance" && !Contains(listing, "Ultimate Performance"))
  {
    SetPowerPlanSteps(w, denied, plan, listing);
    var o := RunBlock(w, denied, SetPowerPlanBlock(plan, listing));
    var n := |w.actions|;
    if o.world.actions == w.actions + [PowerCfgList, PowerCfgSetActive(g)] {
      assert o.world.actions[n + 1] == PowerCfgSetActive(g);
    }
    if o.world.actions == w.actions + [PowerCfgList, PowerCfgDuplicateUltimate, RetrySetPowerPlan(plan)] {
      assert o.world.actions[n + 1] == PowerCfgDuplicateUltimate;
    }
  }

  lemma SetPowerPlanSteps(w: World, denied: set<RegKey>, plan: string, listing: string)
    ensures var o := RunBlock(w, denied, SetPowerPlanBlock(plan, listing));
      var guid := PlanGuid(SplitLines(listing), plan);
      && o.ok && o.world.registry == w.registry
      && o.world.actions == w.actions + [PowerCfgList] +
           (if guid.Some? then [PowerCfgSetActive(guid.value)]
            else if plan == "Ultimate Performance" && !Contains(listing, "Ultimate Performance") then
              [PowerCfgDuplicateUltimate, RetrySetPowerPlan(plan)]
            else [])
  {
    var guid := PlanGuid(SplitLines(listing), plan);
    var m := Notify("Setting power plan to " + plan + "...");
    var tail := SetPowerPlanBlock(plan, listing).steps[2..];
    assert SetPowerPlanBlock(plan, listing).steps == [m, Exec(PowerCfgList)] + tail;
    RunStepsAppend(w, denied, [m, Exec(PowerCfgList)], tail);
    RunStepsTwo(w, denied, m, Exec(PowerCfgList));
    var o := RunSteps(w, denied, [m, Exec(PowerCfgList)]);
    if guid.Some? {
      RunStepsTwo(o.world, denied, Exec(PowerCfgSetActive(guid.value)), Notify("Power plan set to " + plan));
    } else if plan == "Ultimate Performance" && !Contains(listing, "Ultimate Performance") {
      RunStepsTwo(o.world, denied, Exec(PowerCfgDuplicateUltimate), Exec(RetrySetPowerPlan(plan)));
    } else {
      RunStepsOne(o.world, denied, Notify("Could not find power plan: " + plan));
    }
  }
  lemma CpuBlocksGuarded(profile: Profile, cpuName: string, listing: string)
    ensures AllGuarded(CpuBlocks(profile, cpuName, listing))
  {
  }

  /**
   * The CPU applier fails exactly when the inventory has no "CPU.Name"; otherwise its
   * helpers catch their own errors. A processor that is neither Intel nor AMD is left
   * alone except under PowerSaver.
   */
  lemma CpuOutcome(w: World, denied: set<RegKey>, profile: Profile, info: Dictionary, host: Host)
    ensures CpuPlan(profile, info, host).Some? <==> "CPU.Name" in Keys(info)
    ensures CpuPlan(profile, info, host).Some? ==> RunBlocks(w, denied, CpuPlan(profile, info, host).value).ok
    ensures CpuPlan(profile, info, host).Some? && profile != PowerSaver
            && CpuVendor(Get(info, "CPU.Name").value) == OtherVendor
      ==> RunBlocks(w, denied, CpuPlan(profile, info, host).value) == Outcome(w, true)
  {
    if CpuPlan(profile, info, host).Some? {
      CpuBlocksGuarded(profile, Get(info, "CPU.Name").value, host.powerPlans);
      GuardedNeverFails(w, denied, CpuPlan(profile, info, host).value);
    }
  }

  /**
   * With a power plan chosen and the processor-power key writable, the maximum
   * processor state on mains power is 100, 90, 50 or 80 percent by profile, and on
   * battery the same, except half of it (25) under PowerSaver.
   */
  lemma ProcessorIndices(w: World, denied: set<RegKey>, profile: Profile, cpuName: string, listing: string)
    requires PowerPlanFor(profile, CpuVendor(cpuName)).Some? && ProcessorPerformanceKey !in denied
    ensures var r := RunBlocks(w, denied, CpuBlocks(profile, cpuName, listing)).world.registry;
      var ac := match profile case Gaming => 100 case Productivity => 90 case PowerSaver => 50 case _ => 80;
      && Lookup(r, RegName(ProcessorPerformanceKey, "ACSettingIndex")) == Some(DWord(ac))
      && Lookup(r, RegName(ProcessorPerformanceKey, "DCSettingIndex")) == Some(DWord(if profile == PowerSaver then 25 else ac))
  {
    var v := CpuVendor(cpuName);
    var plan := PowerPlanFor(profile, v).value;
    var spp := SetPowerPlanBlock(plan, listing);
    var perf := ProcessorPerformanceBlock(profile, ProcessorPercent(profile));
    var extras := CpuBlocks(profile, cpuName, listing)[2..];
    assert CpuBlocks(profile, cpuName, listing) == [spp, perf] + extras;
    RunBlocksAppend(w, denied, [spp, perf], extras);
    RunBlocksAppend(w, denied, [spp], [perf]);
    assert [spp] + [perf] == [spp, perf];
    RunBlocksOne(w, denied, spp);
    SetPowerPlanSteps(w, denied, plan, listing);
    var o := RunBlock(w, denied, spp);
    RunBlocksOne(o.world, denied, perf);
    RunStepsOne(o.world, denied, perf.steps[0]);
    var ac := RegName(ProcessorPerformanceKey, "ACSettingIndex");
    var dc := RegName(ProcessorPerformanceKey, "DCSettingIndex");
    LastValueAt(perf.steps[0].values, "ACSettingIndex", 0);
    LastValueAt(perf.steps[0].values, "DCSettingIndex", 1);
    SetAllLookup(o.world.registry, ProcessorPerformanceKey, perf.steps[0].values, ac);
    SetAllLookup(o.world.registry, ProcessorPerformanceKey, perf.steps[0].values, dc);
    ExtrasAvoid(profile, v, extras, ac);
    ExtrasAvoid(profile, v, extras, dc);
    var o2 := RunBlocks(w, denied, [spp, perf]);
    RunBlocksPreserves(o2.world, denied, extras, ac);
    RunBlocksPreserves(o2.world, denied, extras, dc);
  }

  /** The gaming extras write other keys than the processor-power one. */
  lemma ExtrasAvoid(profile: Profile, v: Vendor, extras: seq<Block>, n: RegName)
    requires n.key == ProcessorPerformanceKey
    requires extras == (if profile == Gaming && v == Intel then IntelGamingBlocks()
                        else if profile == Gaming && v == Amd then AmdGamingBlocks() else [])
    ensures BlocksAvoid(extras, n)
  {
  }
  // ---------------------------------------------------------------- Nagle

  lemma NagleStepsAvoidAddress(subkeys: seq<string>, x: string)
    ensures StepsAvoid(NagleSteps(subkeys), RegName(InterfaceKey(x), "IPAddress"))
  {
    forall i | 0 <= i < |subkeys| ensures !Assigns(NagleSteps(subkeys)[i], RegName(InterfaceKey(x), "IPAddress")) {
      LastValueAbsent(NagleStep(subkeys[i]).values, "IPAddress");
    }
  }

  lemma NagleStepRun(w: World, denied: set<RegKey>, y: string, x: string, name: string)
    requires InterfaceKey(y) !in denied
    requires name == "TcpAckFrequency" || name == "TCPNoDelay"
    ensures RunStep(w, denied, NagleStep(y)).ok
    ensures Lookup(RunStep(w, denied, NagleStep(y)).world.registry, RegName(InterfaceKey(x), name))
         == if x == y && RegName(InterfaceKey(x), "IPAddress") in w.registry then Some(DWord(1))
            else Lookup(w.registry, RegName(InterfaceKey(x), name))
  {
    var step := NagleStep(y);
    SetAllLookup(w.registry, InterfaceKey(y), step.values, RegName(InterfaceKey(x), name));
    if x == y {
      if name == "TcpAckFrequency" { LastValueAt(step.values, name, 0); } else { LastValueAt(step.values, name, 1); }
    }
  }

  /**
   * With every interface subkey writable, Nagle's algorithm is switched off (both
   * values set to 1) on exactly the listed interfaces that have an IP address; every
   * other interface keeps what it had.
   */
  lemma {:induction false} NagleRun(w: World, denied: set<RegKey>, subkeys: seq<string>, x: string, name: string)
    requires forall i :: 0 <= i < |subkeys| ==> InterfaceKey(subkeys[i]) !in denied
    requires name == "TcpAckFrequency" || name == "TCPNoDelay"
    ensures RunSteps(w, denied, NagleSteps(subkeys)).ok
    ensures Lookup(RunSteps(w, denied, NagleSteps(subkeys)).world.registry, RegName(InterfaceKey(x), name))
         == if x in subkeys && RegName(InterfaceKey(x), "IPAddress") in w.registry then Some(DWord(1))
            else Lookup(w.registry, RegName(InterfaceKey(x), name))
  {
    if subkeys != [] {
      var k := |subkeys| - 1;
      var pre := subkeys[..k];
      var y := subkeys[k];
      NagleRun(w, denied, pre, x, name);
      var o := RunSteps(w, denied, NagleSteps(pre));
      NagleStepsAvoidAddress(pre, x);
      RunStepsPreserves(w, denied, NagleSteps(pre), RegName(InterfaceKey(x), "IPAddress"));
      assert Lookup(o.world.registry, RegName(InterfaceKey(x), "IPAddress")) == Lookup(w.registry, RegName(InterfaceKey(x), "IPAddress"));
      assert subkeys == pre + [y];
      assert x in subkeys <==> x in pre || x == y;
      NagleStepRun(o.world, denied, y, x, name);
    }
  }
}

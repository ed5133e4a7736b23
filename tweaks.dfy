/**
 * What each applier of the optimizer does, as a decision table over the profile
 * and the hardware inventory: the registry values it writes, the commands it
 * starts and the status messages it raises, as blocks of abstract steps.
 */
module Tweaks {
  import opened Wrappers
  import opened Text
  import opened Inventory
  import opened RegistryKeys
  import opened Effects
  import opened ScriptOutput

  datatype Profile = Balanced | Gaming | Productivity | PowerSaver | Custom

  /** The enum member's name, as string interpolation prints it. */
  function ProfileName(p: Profile): string {
    match p
    case Balanced => "Balanced"
    case Gaming => "Gaming"
    case Productivity => "Productivity"
    case PowerSaver => "PowerSaver"
    case Custom => "Custom"
  }

  /**
   * What the host answers: the registry keys it refuses to open, the text
   * `powercfg /list` prints, the table of adapters that are up, and the subkey
   * names under the TCP/IP `Interfaces` key.
   */
  datatype Host = Host(denied: set<RegKey>, powerPlans: string, upAdapters: string, interfaces: seq<string>)

  function DWordValue(name: string, n: int): Assignment { Assignment(name, DWord(n)) }

  function Once(s: Step): Block { Guarded([s]) }

  // ---------------------------------------------------------------- CPU

  datatype Vendor = Intel | Amd | OtherVendor

  /** Intel is checked before AMD. */
  function CpuVendor(cpuName: string): Vendor {
    if Contains(cpuName, "Intel") then Intel else if Contains(cpuName, "AMD") then Amd else OtherVendor
  }

  /** The power plan the CPU applier selects, if any. */
  function PowerPlanFor(profile: Profile, v: Vendor): Option<string> {
    match profile
    case Gaming => if v == Intel then Some("Ultimate Performance") else if v == Amd then Some("AMD Ryzen High Performance") else None
    case Productivity => if v == Intel then Some("High performance") else if v == Amd then Some("AMD Ryzen Balanced") else None
    case PowerSaver => Some("Power saver")
    case _ => if v == Intel then Some("Balanced") else if v == Amd then Some("AMD Ryzen Balanced") else None
  }

  /** The maximum processor state, in percent, the CPU applier sets with its plan. */
  function ProcessorPercent(profile: Profile): nat {
    match profile
    case Gaming => 100
    case Productivity => 90
    case PowerSaver => 50
    case _ => 80
  }

  /** The battery (DC) index: half the percentage, rounded down, under PowerSaver. */
  function DcIndex(profile: Profile, percent: nat): nat {
    if profile == PowerSaver then percent / 2 else percent
  }

  /**
   * `SetPowerPlan`: list the plans, activate the GUID found on the plan's line; when
   * there is none and the plan is Ultimate Performance and missing from the listing,
   * duplicate its scheme and try again (the retry is one logged action); otherwise
   * report that the plan was not found.
   */
  function SetPowerPlanBlock(plan: string, listing: string): Block {
    var guid := PlanGuid(SplitLines(listing), plan);
    Guarded([Notify("Setting power plan to " + plan + "..."), Exec(PowerCfgList)] +
      if guid.Some? then [Exec(PowerCfgSetActive(guid.value)), Notify("Power plan set to " + plan)]
      else if plan == "Ultimate Performance" && !Contains(listing, "Ultimate Performance") then
        [Exec(PowerCfgDuplicateUltimate), Exec(RetrySetPowerPlan(plan))]
      else [Notify("Could not find power plan: " + plan)])
  }

  /** `SetProcessorPerformance`. */
  function ProcessorPerformanceBlock(profile: Profile, percent: nat): Block {
    Once(Write(ProcessorPerformanceKey,
      [DWordValue("ACSettingIndex", percent), DWordValue("DCSettingIndex", DcIndex(profile, percent))]))
  }

  function GamesTaskValues(): seq<Assignment> {
    [DWordValue("GPU Priority", 8), DWordValue("Priority", 6), Assignment("Scheduling Category", Str("High"))]
  }

  /** `DisableCpuThrottling` and `OptimizeIntelForGaming`. */
  function IntelGamingBlocks(): seq<Block> {
    [ Once(Write(PowerThrottlingKey, [DWordValue("PowerThrottlingOff", 1)])),
      Guarded([Write(ProcessorKey, [DWordValue("Capabilities", 0x0007e066)]), Write(GamesTaskKey, GamesTaskValues())]) ]
  }

  /** `OptimizeAmdForGaming`. */
  function AmdGamingBlocks(): seq<Block> {
    [Guarded([Write(AmdCoreParkingKey, [DWordValue("Attributes", 0)]), Write(GamesTaskKey, GamesTaskValues())])]
  }

  /** The CPU applier's work for a processor name: plan, performance, then the gaming extras. */
  function CpuBlocks(profile: Profile, cpuName: string, listing: string): seq<Block> {
    var v := CpuVendor(cpuName);
    match PowerPlanFor(profile, v)
    case None => []
    case Some(plan) =>
      [SetPowerPlanBlock(plan, listing), ProcessorPerformanceBlock(profile, ProcessorPercent(profile))]
      + (if profile == Gaming && v == Intel then IntelGamingBlocks()
         else if profile == Gaming && v == Amd then AmdGamingBlocks()
         else [])
  }

  /** `OptimizeCpu`: without a "CPU.Name" entry the lookup throws before any effect. */
  function CpuPlan(profile: Profile, info: Dictionary, host: Host): Option<seq<Block>> {
    match Get(info, "CPU.Name")
    case None => None
    case Some(name) => Some(CpuBlocks(profile, name, host.powerPlans))
  }

  // ---------------------------------------------------------------- GPU

  predicate IsNvidia(gpuName: string) { Contains(gpuName, "NVIDIA") }

  predicate IsAmdGpu(gpuName: string) { Contains(gpuName, "AMD") || Contains(gpuName, "Radeon") }

  /** The value the applier finally gives `DirectXUserGlobalSettings`. */
  function VrrSetting(profile: Profile): string {
    if profile == Gaming then "VRROptimizeEnable=1;" else "VRROptimizeEnable=0;"
  }

  /** `OptimizeNvidiaForGaming`. */
  function NvidiaGamingBlock(): Block {
    Guarded([ Write(NvTweakKey, [DWordValue("NvCplExposeWin10HAGS", 1)]),
              Write(DirectXKey, [Assignment("DirectXUserGlobalSettings", Str("SwapEffectUpgradeEnable=1;"))]) ])
  }

  /** `OptimizeAmdGpuForGaming`. */
  function AmdGpuGamingBlock(): Block {
    Guarded([ Write(DisplayAdapterKey, [DWordValue("EnableUlps", 0)]),
              Write(GraphicsDriversKey, [DWordValue("HwSchMode", 2)]) ])
  }

  /** The work for one inventory value whose key starts with "GPU". */
  function GpuEntryBlocks(profile: Profile, gpuName: string): seq<Block> {
    match profile
    case Gaming =>
      if IsNvidia(gpuName) then [Once(Exec(NvidiaPowerManagement("Prefer maximum performance"))), NvidiaGamingBlock()]
      else if IsAmdGpu(gpuName) then [Once(Exec(AmdPowerProfile("Optimize for Compute Performance"))), AmdGpuGamingBlock()]
      else []
    case PowerSaver =>
      if IsNvidia(gpuName) then [Once(Exec(NvidiaPowerManagement("Optimal power")))]
      else if IsAmdGpu(gpuName) then [Once(Exec(AmdPowerProfile("Power Saving")))]
      else []
    case _ =>
      if IsNvidia(gpuName) then [Once(Exec(NvidiaPowerManagement("Adaptive")))]
      else if IsAmdGpu(gpuName) then [Once(Exec(AmdPowerProfile("Balanced")))]
      else []
  }

  function GpuEntriesBlocks(profile: Profile, es: seq<Entry>): seq<Block> {
    if es == [] then []
    else GpuEntriesBlocks(profile, es[..|es| - 1]) + GpuEntryBlocks(profile, es[|es| - 1].value)
  }

  /** The DirectX write is in the applier's own `try`: a denied key fails the applier. */
  function DirectXBlock(profile: Profile): Block {
    Bare([Write(DirectXKey, [Assignment("DirectXUserGlobalSettings", Str(VrrSetting(profile)))])])
  }

  /** `OptimizeGpu`: every entry whose key starts with "GPU", in order, then the DirectX setting. */
  function GpuPlan(profile: Profile, info: Dictionary): Option<seq<Block>> {
    Some(GpuEntriesBlocks(profile, WithPrefix(info, "GPU")) + [DirectXBlock(profile)])
  }

  // ---------------------------------------------------------------- memory

  /** `long.Parse(info["RAM.Total"].Replace(" MB", ""))`, or nothing when that throws. */
  function RamMB(info: Dictionary): Option<int> {
    match Get(info, "RAM.Total")
    case None => None
    case Some(t) => ParseLong(RemoveAll(t, " MB"))
  }

  /** Whether the memory applier turns memory compression off, given the parsed RAM size. */
  predicate DisablesCompression(profile: Profile, ramMB: int) {
    match profile
    case Gaming => true
    case Productivity => ramMB > 16384
    case PowerSaver => false
    case _ => ramMB > 32768
  }

  /** The page-file multiplier, as a fraction: 1.5, 1.0, 1.0 and 1.25. */
  function Multiplier(profile: Profile): (r: (nat, nat))
    ensures r.1 > 0
  {
    match profile
    case Gaming => (3, 2)
    case Productivity => (1, 1)
    case PowerSaver => (1, 1)
    case _ => (5, 4)
  }

  /** A cast of a floating-point value to an integer drops the fraction: it rounds toward zero. */
  function TruncDiv(a: int, d: nat): int
    requires d > 0
  {
    if a >= 0 then a / d else -((-a) / d)
  }

  const PageFileCap := 32768

  /** `(long)(ramMB * multiplier)`, capped at 32768. */
  function PageFileSize(profile: Profile, ramMB: int): int {
    var m := Multiplier(profile);
    var s := TruncDiv(ramMB * m.0, m.1);
    if s > PageFileCap then PageFileCap else s
  }

  function PagingFilesText(size: int): string {
    "C:\\pagefile.sys " + IntToString(size) + " " + IntToString(size)
  }

  /** `OptimizePageFile`: a RAM value that does not parse throws inside the helper, so nothing is written. */
  function PageFileBlock(profile: Profile, info: Dictionary): Block {
    match RamMB(info)
    case None => Guarded([])
    case Some(ram) =>
      var size := PageFileSize(profile, ram);
      Once(Write(MemoryManagementKey,
        [Assignment("PagingFiles", Str(PagingFilesText(size))), DWordValue("ClearPageFileAtShutdown", 0)]))
  }

  function CompressionBlock(): Block { Once(Exec(DisableMemoryCompression)) }

  /** `OptimizeServiceWorkingSet`. */
  function ServiceWorkingSetBlock(): Block {
    Once(Write(MemoryManagementKey, [DWordValue("LargeSystemCache", 0), DWordValue("ServicesPaging", 0)]))
  }

  /** Productivity, Balanced and Custom parse the RAM size in the applier itself. */
  predicate ParsesRam(profile: Profile) {
    profile != Gaming && profile != PowerSaver
  }

  /** `OptimizeMemory`: when the applier's own parse throws, it fails before any effect. */
  function MemoryPlan(profile: Profile, info: Dictionary): Option<seq<Block>> {
    if profile == Gaming then Some([CompressionBlock(), PageFileBlock(profile, info), ServiceWorkingSetBlock()])
    else if profile == PowerSaver then Some([PageFileBlock(profile, info)])
    else match RamMB(info)
      case None => None
      case Some(ram) =>
        Some((if DisablesCompression(profile, ram) then [CompressionBlock()] else []) + [PageFileBlock(profile, info)])
  }

  // ---------------------------------------------------------------- disks

  /** The classifier of `OptimizeDisks`. */
  predicate IsSsd(model: string) {
    Contains(model, "SSD") || Contains(model, "Solid State")
  }

  /** `OptimizeSsdSettings`. */
  function SsdBlock(): Block {
    Guarded([ Write(MemoryManagementKey, [DWordValue("LargeSystemCache", 0)]),
              Write(FileSystemKey, [DWordValue("NtfsDisableLastAccessUpdate", 1), DWordValue("NtfsMemoryUsage", 2)]) ])
  }

  /** `OptimizeHddSettings`. */
  function HddBlock(profile: Profile): Block {
    Guarded([ Write(MemoryManagementKey, [DWordValue("LargeSystemCache", if profile == Gaming then 0 else 1)]),
              Write(DiskTimeoutKey, [DWordValue("TimeoutValue", if profile == PowerSaver then 60 else 30)]) ])
  }

  function DiskEntryBlocks(profile: Profile, model: string): seq<Block> {
    if IsSsd(model) then [Once(Exec(EnableTrim)), Once(Exec(DisableScheduledDefrag)), SsdBlock()]
    else [HddBlock(profile)]
  }

  function DiskEntriesBlocks(profile: Profile, es: seq<Entry>): seq<Block> {
    if es == [] then []
    else DiskEntriesBlocks(profile, es[..|es| - 1]) + DiskEntryBlocks(profile, es[|es| - 1].value)
  }

  /** `OptimizeSystemServices`: Windows Search and SysMain are disabled for Gaming, automatic otherwise. */
  function SystemServicesBlock(profile: Profile): Block {
    var startType := if profile == Gaming then "disabled" else "auto";
    Guarded([Exec(ScConfig("WSearch", startType)), Exec(ScConfig("SysMain", startType))])
  }

  /** `OptimizeDisks`: every entry whose key starts with "Disk", in order, then the services. */
  function DiskPlan(profile: Profile, info: Dictionary): Option<seq<Block>> {
    Some(DiskEntriesBlocks(profile, WithPrefix(info, "Disk")) + [SystemServicesBlock(profile)])
  }

  // ---------------------------------------------------------------- network

  function AdapterSteps(profile: Profile, names: seq<string>): seq<Step> {
    if names == [] then []
    else
      var n := names[|names| - 1];
      AdapterSteps(profile, names[..|names| - 1])
      + [Exec(DisableLso(n)), Exec(DisableChecksumOffload(n))]
      + (if profile == Gaming then [Exec(LimitRss(n)), Exec(DisableInterruptModeration(n))] else [])
  }

  /** `OptimizeNetworkAdapters`. */
  function AdaptersBlock(profile: Profile, upAdapters: string): Block {
    Guarded([Exec(ListUpAdapters)] + AdapterSteps(profile, AdapterNames(SplitLines(upAdapters))))
  }

  function TcpipValues(profile: Profile): seq<Assignment> {
    [DWordValue("Tcp1323Opts", 1), DWordValue("TcpMaxDataRetransmissions", 3), DWordValue("DefaultTTL", 64)]
    + if profile == Gaming then
        [DWordValue("Tcp1323Opts", 0), DWordValue("TcpDelAckTicks", 0), DWordValue("TcpInitialCongestionWindow", 10)]
      else []
  }

  /** `OptimizeTcpIpStack`. */
  function TcpIpBlock(profile: Profile): Block {
    Guarded([Write(TcpipParametersKey, TcpipValues(profile))]
      + if profile == Gaming then [Write(PschedKey, [DWordValue("NonBestEffortLimit", 0)])] else [])
  }

  /** `OptimizeDnsSettings`. */
  function DnsBlock(): Block {
    Guarded([ Exec(ClearDnsCache), Exec(SetDnscacheAutomatic), Exec(StartDnscache),
              Write(DnscacheParametersKey,
                [ DWordValue("CacheHashTableBucketSize", 1), DWordValue("CacheHashTableSize", 384),
                  DWordValue("MaxCacheEntryTtlLimit", 86400), DWordValue("MaxSOACacheEntryTtlLimit", 300),
                  DWordValue("NegativeCacheTime", 0), DWordValue("NetFailureCacheTime", 0) ]) ])
  }

  /** Nagle's algorithm off for one interface subkey, if it has an "IPAddress" value. */
  function NagleStep(subkey: string): Step {
    WriteIfPresent(InterfaceKey(subkey), "IPAddress", [DWordValue("TcpAckFrequency", 1), DWordValue("TCPNoDelay", 1)])
  }

  function NagleSteps(subkeys: seq<string>): (r: seq<Step>)
    ensures |r| == |subkeys| && forall i :: 0 <= i < |r| ==> r[i] == NagleStep(subkeys[i])
  {
    if subkeys == [] then []
    else NagleSteps(subkeys[..|subkeys| - 1]) + [NagleStep(subkeys[|subkeys| - 1])]
  }

  /** `DisableNagleAlgorithm`: every subkey of the interfaces key, in order. */
  function NagleBlock(interfaces: seq<string>): Block {
    Guarded([Write(InterfacesKey, [])] + NagleSteps(interfaces))
  }

  /** `OptimizeNetwork`: its status message, then four helpers that catch their own errors. */
  function NetworkPlan(profile: Profile, host: Host): Option<seq<Block>> {
    Some([ Bare([Notify("Optimizing network for lower latency and ping...")]),
           AdaptersBlock(profile, host.upAdapters), TcpIpBlock(profile), DnsBlock(), NagleBlock(host.interfaces) ])
  }
}

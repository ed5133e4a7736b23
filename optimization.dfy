/**
 * The optimization sequencer: `ScanSystemAndOptimize` decides from the hardware
 * inventory which of the five components apply, announces and runs their appliers in
 * a fixed order, counts the steps, raises a progress event after each and hands the
 * collected results to the completion event.
 */
module Optimization {
  import opened Wrappers
  import opened Text
  import opened Inventory
  import opened RegistryKeys
  import opened Effects
  import opened Tweaks
  import opened TweakFacts
  import opened Hardware

  datatype OptimizationResult = OptimizationResult(success: bool, message: string, componentName: string)

  datatype Component = Cpu | Gpu | Memory | Disk | Network

  function ComponentName(c: Component): string {
    match c
    case Cpu => "CPU"
    case Gpu => "GPU"
    case Memory => "Memory"
    case Disk => "Disk"
    case Network => "Network"
  }

  /** The status the sequencer raises before it calls a component's applier. */
  function StartStatus(c: Component): string {
    match c
    case Cpu => "Optimizing CPU settings..."
    case Gpu => "Optimizing GPU settings..."
    case Memory => "Optimizing memory settings..."
    case Disk => "Optimizing disk settings..."
    case Network => "Optimizing network settings..."
  }

  function Succeeded(c: Component, profile: Profile): OptimizationResult {
    OptimizationResult(true, ComponentName(c) + " optimized for " + ProfileName(profile) + " profile", ComponentName(c))
  }

  /** A failure result; the exception's own message that follows the prefix is not modelled. */
  function Failed(c: Component): OptimizationResult {
    OptimizationResult(false, ComponentName(c) + " optimization failed: ", ComponentName(c))
  }

  const NotAdminWarning := "Warning: Not running with administrator privileges. Some optimizations may not work."
  const RestoreStatus := "Creating system restore point..."
  const RestoreDescription := "WinOptimizer Before Optimization"
  const NothingToDo := "No optimizations to perform for your hardware configuration."
  const CompletedStatus := "Optimization completed successfully!"
  const Unavailable := "System information is not available."

  /** The result the sequencer's own handler records when the inventory is missing. */
  const SystemFailure := OptimizationResult(false, "Optimization failed: " + Unavailable, "System")

  /** The five `optimizeX` flags of `ScanSystemAndOptimize`. */
  datatype Selection = Selection(cpu: bool, gpu: bool, memory: bool, disk: bool, network: bool)

  predicate Selected(sel: Selection, c: Component) {
    match c
    case Cpu => sel.cpu
    case Gpu => sel.gpu
    case Memory => sel.memory
    case Disk => sel.disk
    case Network => sel.network
  }

  /** The hardware test the sequencer makes before counting and before running a component. */
  predicate Applicable(c: Component, info: Dictionary) {
    match c
    case Cpu =>
      var name := Get(info, "CPU.Name");
      name.Some? && (Contains(name.value, "Intel") || Contains(name.value, "AMD"))
    case Gpu => HasKeyWithPrefix(info, "GPU")
    case Memory => RamMB(info).Some? && RamMB(info).value > 8192
    case Disk => HasKeyWithPrefix(info, "Disk")
    case Network => true
  }

  /** The position of a component in the sequencer's fixed order. */
  function Rank(c: Component): nat {
    match c
    case Cpu => 0
    case Gpu => 1
    case Memory => 2
    case Disk => 3
    case Network => 4
  }

  function IfEnabled(sel: Selection, info: Dictionary, c: Component): (r: seq<Component>)
    ensures r == [] || r == [c]
    ensures r == [c] <==> Selected(sel, c) && Applicable(c, info)
  {
    if Selected(sel, c) && Applicable(c, info) then [c] else []
  }

  /** The sequencer's fixed order: CPU, GPU, memory, disk, network. */
  const Order := [Cpu, Gpu, Memory, Disk, Network]

  /** The enabled components among the first `k` of the order. */
  function EnabledUpTo(sel: Selection, info: Dictionary, k: nat): seq<Component>
    requires k <= 5
  {
    if k == 0 then [] else EnabledUpTo(sel, info, k - 1) + IfEnabled(sel, info, Order[k - 1])
  }

  /** The next component of the order joins the enabled ones exactly when it is enabled. */
  lemma EnabledUpToNext(sel: Selection, info: Dictionary, k: nat)
    requires k < 5
    ensures EnabledUpTo(sel, info, k + 1)
         == EnabledUpTo(sel, info, k) + (if Selected(sel, Order[k]) && Applicable(Order[k], info) then [Order[k]] else [])
  {
  }

  /** The components the sequencer runs. */
  function Enabled(sel: Selection, info: Dictionary): seq<Component> {
    EnabledUpTo(sel, info, 5)
  }

  lemma {:induction false} EnabledUpToSpec(sel: Selection, info: Dictionary, k: nat, c: Component)
    requires k <= 5
    ensures c in EnabledUpTo(sel, info, k) <==> Rank(c) < k && Selected(sel, c) && Applicable(c, info)
  {
    if k > 0 {
      EnabledUpToSpec(sel, info, k - 1, c);
      assert Rank(Order[k - 1]) == k - 1;
      assert Rank(c) == k - 1 ==> c == Order[k - 1];
    }
  }

  lemma {:induction false} EnabledUpToOrdered(sel: Selection, info: Dictionary, k: nat)
    requires k <= 5
    ensures forall i :: 0 <= i < |EnabledUpTo(sel, info, k)| ==> Rank(EnabledUpTo(sel, info, k)[i]) < k
    ensures forall i, j :: 0 <= i < j < |EnabledUpTo(sel, info, k)| ==>
      Rank(EnabledUpTo(sel, info, k)[i]) < Rank(EnabledUpTo(sel, info, k)[j])
  {
    if k > 0 {
      EnabledUpToOrdered(sel, info, k - 1);
      var prev := EnabledUpTo(sel, info, k - 1);
      var e := IfEnabled(sel, info, Order[k - 1]);
      var cs := prev + e;
      assert EnabledUpTo(sel, info, k) == cs;
      assert Rank(Order[k - 1]) == k - 1;
      forall i | 0 <= i < |cs| ensures Rank(cs[i]) < k && (i >= |prev| ==> Rank(cs[i]) == k - 1) {
        if i >= |prev| {
          assert e == [Order[k - 1]];
          assert cs[i] == e[i - |prev|];
          assert Rank(cs[i]) == k - 1;
        } else {
          assert cs[i] == prev[i];
          assert Rank(prev[i]) < k - 1;
        }
      }
      forall i, j | 0 <= i < j < |cs| ensures Rank(cs[i]) < Rank(cs[j]) {
        if j < |prev| {
          assert cs[i] == prev[i] && cs[j] == prev[j];
        } else if i < |prev| {
          assert cs[i] == prev[i];
        }
      }
    }
  }

  /** The sequencer runs exactly the components that are selected and applicable. */
  lemma EnabledMembers(sel: Selection, info: Dictionary)
    ensures forall c :: c in Enabled(sel, info) <==> Selected(sel, c) && Applicable(c, info)
  {
    forall c ensures c in Enabled(sel, info) <==> Selected(sel, c) && Applicable(c, info) {
      EnabledUpToSpec(sel, info, 5, c);
    }
  }

  /** The enabled components come each once, in the order CPU, GPU, memory, disk, network. */
  lemma EnabledOrdered(sel: Selection, info: Dictionary)
    ensures var cs := Enabled(sel, info); forall i, j :: 0 <= i < j < |cs| ==> Rank(cs[i]) < Rank(cs[j])
  {
    EnabledUpToOrdered(sel, info, 5);
    assert Enabled(sel, info) == EnabledUpTo(sel, info, 5);
  }

  /** What a component's applier does: `None` when it throws before its first effect. */
  function Plan(c: Component, profile: Profile, info: Dictionary, host: Host): Option<seq<Block>> {
    match c
    case Cpu => CpuPlan(profile, info, host)
    case Gpu => GpuPlan(profile, info)
    case Memory => MemoryPlan(profile, info)
    case Disk => DiskPlan(profile, info)
    case Network => NetworkPlan(profile, host)
  }

  /** A component's applier run to its end: `ok` is false when it throws. */
  function RunApplier(c: Component, profile: Profile, info: Dictionary, host: Host, w: World): Outcome {
    match Plan(c, profile, info, host)
    case None => Outcome(w, false)
    case Some(bs) => RunBlocks(w, host.denied, bs)
  }

  /** How each component's applier ends from a given world. */
  type Runner = (Component, World) -> Outcome

  function Appliers(profile: Profile, info: Dictionary, host: Host): Runner {
    (c: Component, w: World) => RunApplier(c, profile, info, host, w)
  }

  /** The one result an applier appends. */
  function ResultOf(c: Component, profile: Profile, ok: bool): (r: OptimizationResult)
    ensures r.success == ok && r.componentName == ComponentName(c)
  {
    if ok then Succeeded(c, profile) else Failed(c)
  }

  /** How each component's result is reported, given whether its applier completed. */
  type Reporter = (Component, bool) -> OptimizationResult

  function Reports(profile: Profile): Reporter {
    (c: Component, ok: bool) => ResultOf(c, profile, ok)
  }

  /** The report records whether the applier completed, under the component's name. */
  ghost predicate ReportsOutcome(report: Reporter) {
    forall c, ok :: report(c, ok).success == ok && report(c, ok).componentName == ComponentName(c)
  }

  lemma ReportsOutcomeOf(profile: Profile)
    ensures ReportsOutcome(Reports(profile))
  {
    forall c, ok ensures Reports(profile)(c, ok).success == ok && Reports(profile)(c, ok).componentName == ComponentName(c) {
      assert Reports(profile)(c, ok) == ResultOf(c, profile, ok);
    }
  }

  function Say(w: World, m: string): World {
    w.(statuses := w.statuses + [m])
  }

  datatype Progress = Progress(world: World, results: seq<OptimizationResult>)

  /** The components run one after the other, each announced by its start status. */
  function Steps(cs: seq<Component>, report: Reporter, run: Runner, w: World): Progress {
    if cs == [] then Progress(w, [])
    else
      var p := Steps(cs[..|cs| - 1], report, run, w);
      var c := cs[|cs| - 1];
      var o := run(c, Say(p.world, StartStatus(c)));
      Progress(o.world, p.results + [report(c, o.ok)])
  }

  /** The progress events of a run of `n` components: 1, 2, ..., n. */
  function CountUp(n: nat): (r: seq<int>)
    ensures |r| == n && forall i :: 0 <= i < n ==> r[i] == i + 1
  {
    if n == 0 then [] else CountUp(n - 1) + [n]
  }

  /** One more component after a run: its start status, then its applier. */
  lemma StepsSnoc(cs: seq<Component>, c: Component, report: Reporter, run: Runner, w: World)
    ensures var p := Steps(cs, report, run, w);
      var o := run(c, Say(p.world, StartStatus(c)));
      Steps(cs + [c], report, run, w) == Progress(o.world, p.results + [report(c, o.ok)])
  {
    assert (cs + [c])[..|cs|] == cs;
  }

  /** A run that has reached `before` with `results` goes on with one more component. */
  lemma StepsExtend(done: seq<Component>, c: Component, report: Reporter, run: Runner, w0: World,
                    before: World, results: seq<OptimizationResult>)
    requires Progress(before, results) == Steps(done, report, run, w0)
    ensures var o := run(c, Say(before, StartStatus(c)));
      Steps(done + [c], report, run, w0) == Progress(o.world, results + [report(c, o.ok)])
  {
    StepsSnoc(done, c, report, run, w0);
  }

  /** `StepsExtend` for the sequencer's own appliers and reports. */
  lemma ApplierStep(done: seq<Component>, c: Component, profile: Profile, info: Dictionary, host: Host, w0: World,
                    before: World, results: seq<OptimizationResult>)
    requires Progress(before, results) == Steps(done, Reports(profile), Appliers(profile, info, host), w0)
    ensures var o := RunApplier(c, profile, info, host, Say(before, StartStatus(c)));
      Steps(done + [c], Reports(profile), Appliers(profile, info, host), w0)
      == Progress(o.world, results + [ResultOf(c, profile, o.ok)])
  {
    StepsExtend(done, c, Reports(profile), Appliers(profile, info, host), w0, before, results);
  }

  lemma CountUpSnoc(events: seq<int>, n: nat)
    ensures events + CountUp(n) + [n + 1] == events + CountUp(n + 1)
  {
  }

  // ---------------------------------------------------------------- restore point

  /** What `Checkpoint-Computer` did: still running after ten seconds, or exited. */
  datatype Checkpoint = TimedOut | Exited(exitCode: int, stderr: string)

  /**
   * `CreateSystemRestorePoint`: nothing without administrator rights; otherwise a
   * status, the query of the last restore point's status, and, unless that reports
   * restore points as disabled, the checkpoint command and a status for its outcome.
   */
  function RestorePoint(w: World, isAdmin: bool, lastStatus: string, checkpoint: Checkpoint): World {
    if !isAdmin then w
    else
      var w1 := Say(w, RestoreStatus).(actions := w.actions + [QueryRestorePoint]);
      if Contains(Trim(lastStatus), "Disabled") then
        Say(w1, "System Restore is disabled. Cannot create restore point.")
      else
        var w2 := w1.(actions := w1.actions + [CreateRestorePoint(RestoreDescription)]);
        match checkpoint
        case TimedOut => Say(w2, "Creating system restore point timed out.")
        case Exited(code, err) =>
          if code != 0 then Say(w2, "Failed to create system restore point: " + err)
          else Say(w2, "System restore point created successfully.")
  }

  /** Everything the sequencer does before it reads the inventory. */
  function Prepare(w: World, isAdmin: bool, lastStatus: string, checkpoint: Checkpoint): World {
    var w1 := if isAdmin then w else Say(w, NotAdminWarning);
    Say(RestorePoint(w1, isAdmin, lastStatus, checkpoint), RestoreStatus)
  }

  // ---------------------------------------------------------------- the whole run

  datatype ScanRecord = ScanRecord(world: World, results: seq<OptimizationResult>, progress: seq<int>,
                                   totalSteps: nat, completed: bool)

  /** The run once the inventory is at hand, from the world `Prepare` left. */
  function Scan(profile: Profile, sel: Selection, info: Dictionary, host: Host, w: World): ScanRecord {
    var cs := Enabled(sel, info);
    if cs == [] then ScanRecord(Say(w, NothingToDo), [], [], 0, false)
    else
      var p := Steps(cs, Reports(profile), Appliers(profile, info, host), w);
      ScanRecord(Say(p.world, CompletedStatus), p.results, CountUp(|cs|), |cs|, true)
  }

  // ---------------------------------------------------------------- properties

  /** Each applier appends exactly one result, named after its component. */
  lemma StepsResults(cs: seq<Component>, report: Reporter, run: Runner, w: World)
    requires ReportsOutcome(report)
    ensures var r := Steps(cs, report, run, w).results;
      && |r| == |cs|
      && forall i :: 0 <= i < |cs| ==> r[i] == report(cs[i], r[i].success)
  {
    StepsLength(cs, report, run, w);
    forall i | 0 <= i < |cs|
      ensures Steps(cs, report, run, w).results[i] == report(cs[i], Steps(cs, report, run, w).results[i].success)
    {
      StepsAt(cs, report, run, w, i);
    }
  }

  lemma {:induction false} StepsLength(cs: seq<Component>, report: Reporter, run: Runner, w: World)
    ensures |Steps(cs, report, run, w).results| == |cs|
  {
    if cs != [] {
      StepsLength(cs[..|cs| - 1], report, run, w);
    }
  }

  /** The result at one index is the report of that component's applier, run from some world. */
  lemma {:induction false} StepsAt(cs: seq<Component>, report: Reporter, run: Runner, w: World, i: nat)
    requires i < |cs|
    ensures |Steps(cs, report, run, w).results| == |cs|
    ensures exists w' :: Steps(cs, report, run, w).results[i] == report(cs[i], run(cs[i], w').ok)
  {
    var n := |cs| - 1;
    var prev := cs[..n];
    StepsLength(prev, report, run, w);
    var p := Steps(prev, report, run, w);
    var last := Say(p.world, StartStatus(cs[n]));
    var r := Steps(cs, report, run, w).results;
    assert r == p.results + [report(cs[n], run(cs[n], last).ok)];
    if i < n {
      StepsAt(prev, report, run, w, i);
      var w' :| p.results[i] == report(prev[i], run(prev[i], w').ok);
      assert r[i] == p.results[i] && prev[i] == cs[i];
    }
  }

  /**
   * An applicable component's applier fails only for the GPU, and then exactly when
   * the per-user DirectX key cannot be opened: every other helper catches its own
   * errors, and the applicability tests rule out the missing CPU name and the
   * unparsable RAM size.
   */
  lemma ApplierSucceeds(c: Component, profile: Profile, info: Dictionary, host: Host, w: World)
    requires Applicable(c, info)
    ensures RunApplier(c, profile, info, host, w).ok <==> !(c == Gpu && DirectXKey in host.denied)
  {
    match c
    case Cpu => CpuApplierOk(profile, info, host, w);
    case Gpu => GpuApplierOk(profile, info, host, w);
    case Memory => MemoryApplierOk(profile, info, host, w);
    case Disk => DiskApplierOk(profile, info, host, w);
    case Network => NetworkApplierOk(profile, info, host, w);
  }

  lemma CpuApplierOk(profile: Profile, info: Dictionary, host: Host, w: World)
    requires Applicable(Cpu, info)
    ensures RunApplier(Cpu, profile, info, host, w).ok
  {
    CpuOutcome(w, host.denied, profile, info, host);
  }

  lemma GpuApplierOk(profile: Profile, info: Dictionary, host: Host, w: World)
    ensures RunApplier(Gpu, profile, info, host, w).ok <==> DirectXKey !in host.denied
  {
    GpuOutcome(w, host.denied, profile, info);
  }

  lemma MemoryApplierOk(profile: Profile, info: Dictionary, host: Host, w: World)
    requires Applicable(Memory, info)
    ensures RunApplier(Memory, profile, info, host, w).ok
  {
    MemoryActions(w, host.denied, profile, info);
  }

  lemma DiskApplierOk(profile: Profile, info: Dictionary, host: Host, w: World)
    ensures RunApplier(Disk, profile, info, host, w).ok
  {
    DiskNeverFails(w, host.denied, profile, info);
  }

  lemma NetworkApplierOk(profile: Profile, info: Dictionary, host: Host, w: World)
    ensures RunApplier(Network, profile, info, host, w).ok
  {
    NetworkNeverFails(w, host.denied, profile, host);
  }

  /** From every world, the applier of `c` fails exactly when `c` is the GPU and `gpuFails`. */
  ghost predicate FailsOnlyGpu(run: Runner, c: Component, gpuFails: bool) {
    forall w' :: run(c, w').ok <==> !(c == Gpu && gpuFails)
  }

  /** The same, told by the component names the results carry. */
  lemma StepsOnlyGpuFails(cs: seq<Component>, report: Reporter, run: Runner, w: World, gpuFails: bool)
    requires ReportsOutcome(report)
    requires forall i :: 0 <= i < |cs| ==> FailsOnlyGpu(run, cs[i], gpuFails)
    ensures var r := Steps(cs, report, run, w).results;
      forall i :: 0 <= i < |r| ==> (r[i].success <==> !(r[i].componentName == "GPU" && gpuFails))
  {
    StepsResults(cs, report, run, w);
    StepsSucceed(cs, report, run, w, gpuFails);
    var r := Steps(cs, report, run, w).results;
    forall i | 0 <= i < |r| ensures r[i].componentName == "GPU" <==> cs[i] == Gpu {
      assert r[i] == report(cs[i], r[i].success);
    }
  }

  /** Appliers that fail only for the GPU, and then always, give results that say so. */
  lemma StepsSucceed(cs: seq<Component>, report: Reporter, run: Runner, w: World, gpuFails: bool)
    requires ReportsOutcome(report)
    requires forall i :: 0 <= i < |cs| ==> FailsOnlyGpu(run, cs[i], gpuFails)
    ensures var r := Steps(cs, report, run, w).results;
      && |r| == |cs|
      && forall i :: 0 <= i < |cs| ==> (r[i].success <==> !(cs[i] == Gpu && gpuFails))
  {
    StepsLength(cs, report, run, w);
    forall i | 0 <= i < |cs|
      ensures Steps(cs, report, run, w).results[i].success <==> !(cs[i] == Gpu && gpuFails)
    {
      StepsAt(cs, report, run, w, i);
      var w' :| Steps(cs, report, run, w).results[i] == report(cs[i], run(cs[i], w').ok);
      assert FailsOnlyGpu(run, cs[i], gpuFails);
    }
  }

  /**
   * The step count is the number of enabled components; with none the run stops after
   * its status and raises no completion event; otherwise there is one result per
   * component, in order, the progress events count 1 to the total, and the last status
   * is the completion message.
   */
  lemma ScanShape(profile: Profile, sel: Selection, info: Dictionary, host: Host, w: World)
    ensures var r := Scan(profile, sel, info, host, w); var cs := Enabled(sel, info);
      && r.totalSteps == |cs|
      && r.completed == (|cs| > 0)
      && (|cs| == 0 ==> r.results == [] && r.world == Say(w, NothingToDo))
      && |r.results| == |cs|
      && r.progress == CountUp(|cs|)
      && (forall i :: 0 <= i < |cs| ==> r.results[i] == ResultOf(cs[i], profile, r.results[i].success))
      && |r.world.statuses| > 0
      && r.world.statuses[|r.world.statuses| - 1] == (if |cs| == 0 then NothingToDo else CompletedStatus)
  {
    ReportsOutcomeOf(profile);
    StepsResults(Enabled(sel, info), Reports(profile), Appliers(profile, info, host), w);
  }

  /** The appliers of the enabled components fail only for the GPU with the DirectX key denied. */
  lemma EnabledAppliers(profile: Profile, sel: Selection, info: Dictionary, host: Host)
    ensures var cs := Enabled(sel, info); var run := Appliers(profile, info, host);
      forall i :: 0 <= i < |cs| ==> FailsOnlyGpu(run, cs[i], DirectXKey in host.denied)
  {
    EnabledMembers(sel, info);
    var cs := Enabled(sel, info);
    var run := Appliers(profile, info, host);
    forall i, w' | 0 <= i < |cs|
      ensures run(cs[i], w').ok <==> !(cs[i] == Gpu && DirectXKey in host.denied)
    {
      assert cs[i] in cs;
      ApplierSucceeds(cs[i], profile, info, host, w');
    }
  }

  /** In a run, every result is a success except a GPU result when the DirectX key is denied. */
  lemma ScanOnlyGpuFails(profile: Profile, sel: Selection, info: Dictionary, host: Host, w: World)
    ensures var r := Scan(profile, sel, info, host, w);
      forall i :: 0 <= i < |r.results| ==>
        (r.results[i].success <==> !(r.results[i].componentName == "GPU" && DirectXKey in host.denied))
  {
    var cs := Enabled(sel, info);
    EnabledAppliers(profile, sel, info, host);
    ReportsOutcomeOf(profile);
    var run := Appliers(profile, info, host);
    StepsOnlyGpuFails(cs, Reports(profile), run, w, DirectXKey in host.denied);
    assert Scan(profile, sel, info, host, w).results == if cs == [] then [] else Steps(cs, Reports(profile), run, w).results;
  }

  /**
   * The network step is counted whenever it is selected, whatever the hardware, so a
   * run with it selected always completes, with the network result last.
   */
  lemma NetworkAlwaysRuns(profile: Profile, sel: Selection, info: Dictionary, host: Host, w: World)
    requires sel.network
    ensures var r := Scan(profile, sel, info, host, w);
      && r.completed && r.totalSteps >= 1
      && r.results[|r.results| - 1] == Succeeded(Network, profile)
  {
    var before := EnabledUpTo(sel, info, 4);
    var run := Appliers(profile, info, host);
    assert Enabled(sel, info) == before + [Network];
    StepsSnoc(before, Network, Reports(profile), run, w);
    var p := Steps(before, Reports(profile), run, w);
    NetworkApplierOk(profile, info, host, Say(p.world, StartStatus(Network)));
  }

  /**
   * On an inventory the hardware service produced, the memory step is enabled exactly
   * when the collection succeeded and the modules add up to more than 8192 MB: the
   * placeholder inventory's "8192 MB" never enables it.
   */
  lemma CollectedMemoryStep(hw: Wmi)
    requires hw.memory.Answered? ==> RamTotalMB(hw.memory.rows) <= LongMax
    ensures Applicable(Memory, Collect(hw))
        <==> !CollectPartial(hw).failed && RamTotalMB(hw.memory.rows) > 8192
  {
    CollectedRamMB(hw);
    MemoryApplicable(Collect(hw));
  }

  lemma MemoryApplicable(info: Dictionary)
    ensures Applicable(Memory, info) <==> RamMB(info).Some? && RamMB(info).value > 8192
  {
  }

  // ---------------------------------------------------------------- the service

  class OptimizationService {
    const hardware: HardwareService?
    /** The answers the management queries give on this host. */
    const wmi: Wmi
    const host: Host
    const machine: Machine
    const isAdministrator: bool
    /** The trimmed output of `Get-ComputerRestorePoint -LastStatus`. */
    const restoreLastStatus: string
    const checkpoint: Checkpoint

    var isOptimizing: bool
    var currentStep: int
    var totalSteps: int
    var currentProfile: Profile
    var results: seq<OptimizationResult>
    /** The arguments of the progress events raised so far. */
    var progressEvents: seq<int>
    /** The result lists handed to the completion event so far. */
    var completions: seq<seq<OptimizationResult>>

    constructor (hardware: HardwareService?, wmi: Wmi, host: Host, machine: Machine, isAdministrator: bool,
                 restoreLastStatus: string, checkpoint: Checkpoint)
      requires machine.denied == host.denied
      ensures this.hardware == hardware && this.wmi == wmi && this.host == host && this.machine == machine
      ensures this.isAdministrator == isAdministrator && this.restoreLastStatus == restoreLastStatus
      ensures this.checkpoint == checkpoint
      ensures Valid()
      ensures !isOptimizing && currentStep == 0 && totalSteps == 0 && currentProfile == Balanced
      ensures results == [] && progressEvents == [] && completions == []
    {
      this.hardware := hardware;
      this.wmi := wmi;
      this.host := host;
      this.machine := machine;
      this.isAdministrator := isAdministrator;
      this.restoreLastStatus := restoreLastStatus;
      this.checkpoint := checkpoint;
      isOptimizing := false;
      currentStep := 0;
      totalSteps := 0;
      currentProfile := Balanced;
      results := [];
      progressEvents := [];
      completions := [];
    }

    /** The machine the service writes to is the host the plans are made for. */
    ghost predicate Valid() {
      machine.denied == host.denied
    }

    method CreateSystemRestorePoint()
      modifies machine
      ensures machine.State() == RestorePoint(old(machine.State()), isAdministrator, restoreLastStatus, checkpoint)
    {
      if !isAdministrator {
        return;
      }
      machine.Status(RestoreStatus);
      machine.Start(QueryRestorePoint);
      if Contains(Trim(restoreLastStatus), "Disabled") {
        machine.Status("System Restore is disabled. Cannot create restore point.");
        return;
      }
      machine.Start(CreateRestorePoint(RestoreDescription));
      match checkpoint
      case TimedOut =>
        machine.Status("Creating system restore point timed out.");
      case Exited(code, err) =>
        if code != 0 {
          machine.Status("Failed to create system restore point: " + err);
        } else {
          machine.Status("System restore point created successfully.");
        }
    }

    /** One applier (`OptimizeCpu`, `OptimizeGpu`, ...) for the current profile. */
    method Optimize(c: Component, info: Dictionary)
      requires Valid()
      modifies this`results, machine
      ensures var o := RunApplier(c, currentProfile, info, host, old(machine.State()));
        machine.State() == o.world && results == old(results) + [ResultOf(c, currentProfile, o.ok)]
    {
      var plan := Plan(c, currentProfile, info, host);
      if plan.None? {
        results := results + [Failed(c)];
        return;
      }
      var ok := machine.PerformBlocks(plan.value);
      results := results + [if ok then Succeeded(c, currentProfile) else Failed(c)];
    }

    /**
     * The run has gone through the components `done`: the state and the results are
     * those of running them from `w0`, with one progress event each.
     */
    ghost predicate Through(done: seq<Component>, info: Dictionary, w0: World, events: seq<int>)
      reads this, machine
    {
      && Progress(machine.State(), results) == Steps(done, Reports(currentProfile), Appliers(currentProfile, info, host), w0)
      && currentStep == |done|
      && progressEvents == events + CountUp(|done|)
    }

    /** The run has gone through the enabled ones among the first `k` components of the order. */
    ghost predicate At(sel: Selection, info: Dictionary, k: nat, w0: World, events: seq<int>)
      requires k <= 5
      reads this, machine
    {
      Through(EnabledUpTo(sel, info, k), info, w0, events)
    }

    /** The body of one of the sequencer's five component branches. */
    method Advance(c: Component, info: Dictionary, ghost done: seq<Component>, ghost w0: World, ghost events: seq<int>)
      requires Valid() && Through(done, info, w0, events)
      modifies this`results, this`currentStep, this`progressEvents, machine
      ensures Through(done + [c], info, w0, events)
    {
      ghost var before := machine.State();
      ghost var past := results;
      machine.Status(StartStatus(c));
      assert machine.State() == Say(before, StartStatus(c));
      Optimize(c, info);
      ApplierStep(done, c, currentProfile, info, host, w0, before, past);
      currentStep := currentStep + 1;
      progressEvents := progressEvents + [currentStep];
      CountUpSnoc(events, |done|);
    }

    /** The warning and the restore point that precede every run. */
    method PrepareRun()
      modifies machine
      ensures machine.State() == Prepare(old(machine.State()), isAdministrator, restoreLastStatus, checkpoint)
    {
      if !isAdministrator {
        machine.Status(NotAdminWarning);
      }
      CreateSystemRestorePoint();
      machine.Status(RestoreStatus);
    }

    /** The counting pass: one step per enabled component. */
    method CountSteps(sel: Selection, info: Dictionary)
      modifies this`totalSteps
      ensures totalSteps == |Enabled(sel, info)|
    {
      totalSteps := 0;
      if sel.cpu && Applicable(Cpu, info) {
        totalSteps := totalSteps + 1;
      }
      assert totalSteps == |EnabledUpTo(sel, info, 1)|;
      if sel.gpu && Applicable(Gpu, info) {
        totalSteps := totalSteps + 1;
      }
      assert totalSteps == |EnabledUpTo(sel, info, 2)|;
      if sel.memory && Applicable(Memory, info) {
        totalSteps := totalSteps + 1;
      }
      assert totalSteps == |EnabledUpTo(sel, info, 3)|;
      if sel.disk && Applicable(Disk, info) {
        totalSteps := totalSteps + 1;
      }
      assert totalSteps == |EnabledUpTo(sel, info, 4)|;
      if sel.network {
        totalSteps := totalSteps + 1;
      }
      assert totalSteps == |EnabledUpTo(sel, info, 5)|;
    }

    /** One of the sequencer's five branches: the `k`-th component of the order, if enabled. */
    method Branch(sel: Selection, info: Dictionary, k: nat, ghost w0: World, ghost events: seq<int>)
      requires Valid() && k < 5 && At(sel, info, k, w0, events)
      modifies this`results, this`currentStep, this`progressEvents, machine
      ensures At(sel, info, k + 1, w0, events)
    {
      var c := Order[k];
      ghost var done := EnabledUpTo(sel, info, k);
      EnabledUpToNext(sel, info, k);
      if Selected(sel, c) && Applicable(c, info) {
        assert EnabledUpTo(sel, info, k + 1) == done + [c];
        Advance(c, info, done, w0, events);
      } else {
        assert EnabledUpTo(sel, info, k + 1) == done;
      }
    }

    /** The five component branches, in order. */
    method RunComponents(sel: Selection, info: Dictionary)
      requires Valid() && results == [] && currentStep == 0
      modifies this`results, this`currentStep, this`progressEvents, machine
      ensures Through(Enabled(sel, info), info, old(machine.State()), old(progressEvents))
    {
      ghost var w0 := machine.State();
      ghost var events := progressEvents;
      assert CountUp(0) == [] && events + [] == events;
      assert At(sel, info, 0, w0, events);
      Branch(sel, info, 0, w0, events);
      Branch(sel, info, 1, w0, events);
      Branch(sel, info, 2, w0, events);
      Branch(sel, info, 3, w0, events);
      Branch(sel, info, 4, w0, events);
      assert At(sel, info, 5, w0, events);
    }

    method ScanSystemAndOptimize(profile: Profile, sel: Selection)
      requires Valid()
      modifies this, machine, hardware
      ensures old(isOptimizing) ==> unchanged(this, machine) && (hardware != null ==> unchanged(hardware))
      ensures !old(isOptimizing) ==> !isOptimizing && currentProfile == profile
      ensures !old(isOptimizing) && hardware == null ==>
        && machine.State() == Say(Prepare(old(machine.State()), isAdministrator, restoreLastStatus, checkpoint),
                                  "Error during optimization: " + Unavailable)
        && results == [SystemFailure]
        && completions == old(completions) + [results]
        && currentStep == 0 && totalSteps == old(totalSteps) && progressEvents == old(progressEvents)
      ensures !old(isOptimizing) && hardware != null ==>
        && hardware.cache.Some?
        && hardware.cache.value == (if old(hardware.cache).Some? then old(hardware.cache).value else Collect(wmi))
        && var r := Scan(profile, sel, hardware.cache.value, host,
                         Prepare(old(machine.State()), isAdministrator, restoreLastStatus, checkpoint));
           && machine.State() == r.world
           && results == r.results
           && totalSteps == r.totalSteps
           && currentStep == |r.progress|
           && progressEvents == old(progressEvents) + r.progress
           && completions == old(completions) + (if r.completed then [r.results] else [])
    {
      if isOptimizing {
        return;
      }
      isOptimizing := true;
      currentProfile := profile;
      results := [];
      currentStep := 0;
      PrepareRun();

      if hardware == null {
        machine.Status("Error during optimization: " + Unavailable);
        results := results + [SystemFailure];
        completions := completions + [results];
        isOptimizing := false;
        return;
      }
      var info := hardware.SystemInfo(wmi);
      RunScan(sel, info);
      isOptimizing := false;
    }

    /** The run once the inventory is at hand: count, then run the components, or stop. */
    method RunScan(sel: Selection, info: Dictionary)
      requires Valid() && results == [] && currentStep == 0
      modifies this`results, this`currentStep, this`progressEvents, this`totalSteps, this`completions, machine
      ensures var r := Scan(currentProfile, sel, info, host, old(machine.State()));
        && machine.State() == r.world
        && results == r.results
        && totalSteps == r.totalSteps
        && currentStep == |r.progress|
        && progressEvents == old(progressEvents) + r.progress
        && completions == old(completions) + (if r.completed then [r.results] else [])
    {
      CountSteps(sel, info);
      if totalSteps == 0 {
        machine.Status(NothingToDo);
        return;
      }
      RunComponents(sel, info);
      machine.Status(CompletedStatus);
      completions := completions + [results];
    }
  }
}

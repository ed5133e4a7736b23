/**
 * The WPF main window's hardware summary and its value converters. The window reads
 * the hardware service's memoized inventory; here that inventory is a parameter.
 */
module Views {
  import opened Wrappers
  import opened Text
  import opened Inventory
  import Hardware

  /**
   * A `foreach` over the keys that returns the value of the first key starting with
   * `p`, or `fallback` once the keys run out.
   */
  function FirstWithPrefix(d: Dictionary, p: string, fallback: string): string {
    if d == [] then fallback
    else if StartsWith(d[0].key, p) then d[0].value
    else FirstWithPrefix(d[1..], p, fallback)
  }

  /** The search agrees with filtering the keys by the prefix and taking the head. */
  lemma {:induction false} FirstWithPrefixFilter(d: Dictionary, p: string, fallback: string)
    ensures FirstWithPrefix(d, p, fallback)
         == if HasKeyWithPrefix(d, p) then WithPrefix(d, p)[0].value else fallback
  {
    if d != [] {
      FirstWithPrefixFilter(d[1..], p, fallback);
      assert forall i :: 0 < i < |d| ==> d[i] == d[1..][i - 1];
      assert HasKeyWithPrefix(d, p) <==> StartsWith(d[0].key, p) || HasKeyWithPrefix(d[1..], p);
    }
  }

  /** The search stops at the first key with the prefix: every earlier key lacks it. */
  lemma {:induction false} FirstWithPrefixAt(d: Dictionary, p: string, fallback: string, i: nat)
    requires i < |d| && StartsWith(d[i].key, p)
    requires forall j :: 0 <= j < i ==> !StartsWith(d[j].key, p)
    ensures FirstWithPrefix(d, p, fallback) == d[i].value
  {
    if i > 0 {
      assert !StartsWith(d[0].key, p);
      assert forall j :: 0 <= j < i - 1 ==> d[1..][j] == d[j + 1];
      FirstWithPrefixAt(d[1..], p, fallback, i - 1);
    }
  }

  const GpuFallback := "GPU information not available"
  const StorageFallback := "Storage information not available"

  /** `GetGpuSummary`: the first "GPU..." value in enumeration order. */
  function GpuSummary(info: Dictionary): (r: string)
    ensures r == if HasKeyWithPrefix(info, "GPU") then WithPrefix(info, "GPU")[0].value else GpuFallback
  {
    FirstWithPrefixFilter(info, "GPU", GpuFallback);
    FirstWithPrefix(info, "GPU", GpuFallback)
  }

  /** `GetStorageSummary`: the first "Disk..." value in enumeration order. */
  function StorageSummary(info: Dictionary): (r: string)
    ensures r == if HasKeyWithPrefix(info, "Disk") then WithPrefix(info, "Disk")[0].value else StorageFallback
  {
    FirstWithPrefixFilter(info, "Disk", StorageFallback);
    FirstWithPrefix(info, "Disk", StorageFallback)
  }

  /**
   * The summary the window's constructor builds. Its dictionary indexer throws for a
   * missing key, so the construction fails (None) unless all three keys are present.
   */
  function HardwareSummary(info: Dictionary): (r: Option<Dictionary>)
    ensures r.Some? <==> "CPU.Name" in Keys(info) && "RAM.Total" in Keys(info) && "RAM.Free" in Keys(info)
    ensures r.Some? ==> Keys(r.value) == ["CPU", "GPU", "RAM", "Storage"]
  {
    var cpu := Get(info, "CPU.Name");
    var total := Get(info, "RAM.Total");
    var free := Get(info, "RAM.Free");
    if cpu.None? || total.None? || free.None? then None
    else Some(Summary(cpu.value, GpuSummary(info), total.value + " (" + free.value + " free)", StorageSummary(info)))
  }

  /** The four lines of the summary, in the order the window adds them. */
  function Summary(cpu: string, gpu: string, ram: string, storage: string): (r: Dictionary)
    ensures Keys(r) == ["CPU", "GPU", "RAM", "Storage"]
    ensures r[0].value == cpu && r[1].value == gpu && r[2].value == ram && r[3].value == storage
  {
    var r := [Entry("CPU", cpu), Entry("GPU", gpu), Entry("RAM", ram), Entry("Storage", storage)];
    assert Keys(r) == ["CPU", "GPU", "RAM", "Storage"];
    r
  }

  /** The inventory collector never writes "RAM.Free", so the summary fails on every one it builds. */
  lemma CollectedSummaryFails(w: Hardware.Wmi)
    ensures HardwareSummary(Hardware.Collect(w)).None?
  {
    Hardware.CollectKnown(w);
  }

  // ---------------------------------------------------------------- converters

  datatype Visibility = Visible | Hidden | Collapsed

  /** `BoolToVisibilityConverter.Convert` */
  function ToVisibility(b: bool): (v: Visibility)
    ensures v != Hidden
    ensures v == Visible <==> b
  {
    if b then Visible else Collapsed
  }

  /** `BoolToVisibilityConverter.ConvertBack` */
  function FromVisibility(v: Visibility): (b: bool)
    ensures b <==> v == Visible
  {
    v == Visible
  }

  /** Every bool survives the round trip; a visibility does exactly when it is not Hidden. */
  lemma VisibilityRoundTrip(b: bool, v: Visibility)
    ensures FromVisibility(ToVisibility(b)) == b
    ensures ToVisibility(FromVisibility(v)) == v <==> v != Hidden
  {
  }

  /** `InverseBoolConverter.Convert` */
  function Invert(b: bool): (r: bool)
    ensures r != b
  {
    !b
  }

  /** `InverseBoolConverter.ConvertBack`: the source repeats `Convert`'s negation in its own body. */
  function InvertBack(b: bool): (r: bool)
    ensures r != b
  {
    !b
  }

  /** Convert and ConvertBack undo each other in both orders. */
  lemma InverseRoundTrip(b: bool)
    ensures InvertBack(Invert(b)) == b && Invert(InvertBack(b)) == b
  {
  }
}

/**
 * HardwareService: collects the hardware inventory once, from the answers of the
 * hardware-management queries (processor, memory modules, video controllers, disk
 * drives), and caches it.
 */
module Hardware {
  import opened Wrappers
  import opened Text
  import opened Inventory

  /** What one query returns: its rows, or an exception thrown by the query itself. */
  datatype Query<T> = Answered(rows: seq<T>) | QueryFailed

  /** One row per query; `None` stands for a property that is null. */
  datatype Processor = Processor(name: Option<string>, manufacturer: Option<string>,
                                 cores: Option<nat>, threads: Option<nat>)
  datatype MemoryModule = MemoryModule(capacity: Option<nat>)
  datatype VideoController = VideoController(name: Option<string>, adapterRam: Option<nat>)
  datatype DiskDrive = DiskDrive(model: Option<string>, size: Option<nat>)

  datatype Wmi = Wmi(processors: Query<Processor>, memory: Query<MemoryModule>,
                     video: Query<VideoController>, disks: Query<DiskDrive>)

  const BytesPerMB: nat := 1024 * 1024
  const BytesPerGB: nat := 1024 * 1024 * 1024

  /** `Convert.ToInt64(x)` of a property: a null property converts to 0. */
  function OrZero(x: Option<nat>): nat {
    if x.Some? then x.value else 0
  }

  /** The dictionary collected so far, and whether an exception has escaped. */
  datatype Partial = Partial(dict: Dictionary, failed: bool)

  /** The key "<prefix>.<i>.<field>" of the i-th device. */
  function DeviceKey(prefix: string, i: nat, field: string): string {
    prefix + "." + NatToString(i) + "." + field
  }

  // ------------------------------------------------------------ the stages

  /** The processor query: only the first row is read; a null property throws. */
  function CpuStage(d: Dictionary, q: Query<Processor>): Partial {
    if q.QueryFailed? then Partial(d, true)
    else if q.rows == [] then Partial(d, false)
    else
      var p := q.rows[0];
      if p.name.None? then Partial(d, true)
      else
        var d1 := Put(d, "CPU.Name", p.name.value);
        if p.manufacturer.None? then Partial(d1, true)
        else
          var d2 := Put(d1, "CPU.Manufacturer", p.manufacturer.value);
          if p.cores.None? then Partial(d2, true)
          else
            var d3 := Put(d2, "CPU.Cores", NatToString(p.cores.value));
            if p.threads.None? then Partial(d3, true)
            else Partial(Put(d3, "CPU.Threads", NatToString(p.threads.value)), false)
  }

  /** Sum over the modules of the capacity in whole megabytes (integer division per module). */
  function RamTotalMB(ms: seq<MemoryModule>): nat {
    if ms == [] then 0 else RamTotalMB(ms[..|ms| - 1]) + OrZero(ms[|ms| - 1].capacity) / BytesPerMB
  }

  function RamText(mb: nat): string {
    NatToString(mb) + " MB"
  }

  function RamStage(d: Dictionary, q: Query<MemoryModule>): Partial {
    if q.QueryFailed? then Partial(d, true)
    else Partial(Put(d, "RAM.Total", RamText(RamTotalMB(q.rows))), false)
  }

  function GpuRamText(g: VideoController): string {
    if g.adapterRam.Some? then NatToString(g.adapterRam.value / BytesPerMB) + " MB" else "Unknown"
  }

  function DiskSizeText(k: DiskDrive): string {
    NatToString(OrZero(k.size) / BytesPerGB) + " GB"
  }

  /**
   * What one device row contributes: the property whose `ToString()` throws when it
   * is null (a video controller's name, a disk's model) and the second value.
   */
  datatype Device = Device(first: Option<string>, second: string)

  function GpuDevices(gs: seq<VideoController>): (r: seq<Device>)
    ensures |r| == |gs|
  {
    seq(|gs|, i requires 0 <= i < |gs| => Device(gs[i].name, GpuRamText(gs[i])))
  }

  function DiskDevices(ks: seq<DiskDrive>): (r: seq<Device>)
    ensures |r| == |ks|
  {
    seq(|ks|, i requires 0 <= i < |ks| => Device(ks[i].model, DiskSizeText(ks[i])))
  }

  /** The naming of one device family: "GPU" with "Name" and "RAM", "Disk" with "Model" and "Size". */
  datatype Family = Family(prefix: string, firstField: string, secondField: string)

  const Gpus := Family("GPU", "Name", "RAM")
  const Disks := Family("Disk", "Model", "Size")

  /** The i-th device: a null first property throws before anything is written. */
  function AddDevice(d: Dictionary, f: Family, i: nat, x: Device): Partial {
    if x.first.None? then Partial(d, true)
    else Partial(Put(Put(d, DeviceKey(f.prefix, i, f.firstField), x.first.value),
                     DeviceKey(f.prefix, i, f.secondField), x.second), false)
  }

  /** The rows in order, numbered from 0, stopping at the first that throws. */
  function DeviceRows(d: Dictionary, f: Family, xs: seq<Device>): Partial {
    if xs == [] then Partial(d, false)
    else
      var p := DeviceRows(d, f, xs[..|xs| - 1]);
      if p.failed then p else AddDevice(p.dict, f, |xs| - 1, xs[|xs| - 1])
  }

  function GpuRows(d: Dictionary, gs: seq<VideoController>): Partial {
    DeviceRows(d, Gpus, GpuDevices(gs))
  }

  function DiskRows(d: Dictionary, ks: seq<DiskDrive>): Partial {
    DeviceRows(d, Disks, DiskDevices(ks))
  }

  function QueryRows<T>(d: Dictionary, q: Query<T>, rows: (Dictionary, seq<T>) -> Partial): Partial {
    if q.QueryFailed? then Partial(d, true) else rows(d, q.rows)
  }

  /** The catch block: whatever was collected stays, and four keys get placeholders. */
  function Fallback(d: Dictionary): Dictionary {
    Put(Put(Put(Put(d, "CPU.Name", "Unknown CPU"), "RAM.Total", "8192 MB"), "GPU.0.Name", "Unknown GPU"),
        "Disk.0.Model", "Unknown Disk")
  }

  /** The stages in order; the first one that throws ends the collection. */
  function CollectPartial(w: Wmi): Partial {
    var p1 := CpuStage([], w.processors);
    if p1.failed then p1 else
    var p2 := RamStage(p1.dict, w.memory);
    if p2.failed then p2 else
    var p3 := QueryRows(p2.dict, w.video, GpuRows);
    if p3.failed then p3 else
    QueryRows(p3.dict, w.disks, DiskRows)
  }

  /** What `CollectSystemInfo` returns. */
  function Collect(w: Wmi): Dictionary {
    var p := CollectPartial(w);
    if p.failed then Fallback(p.dict) else p.dict
  }

  lemma DeviceRowsSnoc(d: Dictionary, f: Family, xs: seq<Device>, i: nat)
    requires i < |xs|
    ensures DeviceRows(d, f, xs[..i + 1])
         == (var p := DeviceRows(d, f, xs[..i]); if p.failed then p else AddDevice(p.dict, f, i, xs[i]))
  {
    assert xs[..i + 1][..i] == xs[..i];
  }

  lemma {:induction false} DeviceRowsFailedStays(d: Dictionary, f: Family, xs: seq<Device>, k: nat)
    requires k <= |xs| && DeviceRows(d, f, xs[..k]).failed
    ensures DeviceRows(d, f, xs) == DeviceRows(d, f, xs[..k])
    decreases |xs| - k
  {
    if k < |xs| {
      DeviceRowsSnoc(d, f, xs, k);
      DeviceRowsFailedStays(d, f, xs, k + 1);
    } else {
      assert xs[..k] == xs;
    }
  }

  // ------------------------------------------------------------ key shapes

  /** The text before the first '.'. */
  function BeforeDot(s: string): string {
    if s == [] || s[0] == '.' then [] else [s[0]] + BeforeDot(s[1..])
  }

  lemma {:induction false} BeforeDotDigits(a: string, b: string)
    requires AllDigits(a)
    ensures BeforeDot(a + "." + b) == a
  {
    if a == [] {
      assert (a + "." + b)[0] == '.';
    } else {
      assert IsDigit(a[0]);
      assert (a + "." + b)[1..] == a[1..] + "." + b;
      BeforeDotDigits(a[1..], b);
    }
  }

  lemma SplitAtDot(a: string, b: string, c: string, e: string)
    requires AllDigits(a) && AllDigits(c)
    requires a + "." + b == c + "." + e
    ensures a == c && b == e
  {
    BeforeDotDigits(a, b);
    BeforeDotDigits(c, e);
    assert b == (a + "." + b)[|a| + 1..];
    assert e == (c + "." + e)[|c| + 1..];
  }

  /** Distinct (index, field) pairs of one family give distinct keys. */
  lemma DeviceKeyInjective(p: string, i: nat, f: string, j: nat, g: string)
    requires DeviceKey(p, i, f) == DeviceKey(p, j, g)
    ensures i == j && f == g
  {
    var n := |p| + 1;
    var ki, kj := DeviceKey(p, i, f), DeviceKey(p, j, g);
    assert ki[n..] == NatToString(i) + "." + f;
    assert kj[n..] == NatToString(j) + "." + g;
    SplitAtDot(NatToString(i), f, NatToString(j), g);
    NatToStringInjective(i, j);
  }

  predicate ValidFamily(f: Family) {
    f.prefix != [] && f.firstField != f.secondField
  }

  /** The keys of the first n devices of a family, in the order they are added. */
  function DeviceKeys(f: Family, n: nat): seq<string> {
    if n == 0 then []
    else DeviceKeys(f, n - 1) + [DeviceKey(f.prefix, n - 1, f.firstField), DeviceKey(f.prefix, n - 1, f.secondField)]
  }

  lemma {:induction false} DeviceKeyNotBelow(f: Family, n: nat, i: nat, field: string)
    requires n <= i
    ensures DeviceKey(f.prefix, i, field) !in DeviceKeys(f, n)
  {
    if n > 0 {
      DeviceKeyNotBelow(f, n - 1, i, field);
      if DeviceKey(f.prefix, i, field) == DeviceKey(f.prefix, n - 1, f.firstField) {
        DeviceKeyInjective(f.prefix, i, field, n - 1, f.firstField);
      }
      if DeviceKey(f.prefix, i, field) == DeviceKey(f.prefix, n - 1, f.secondField) {
        DeviceKeyInjective(f.prefix, i, field, n - 1, f.secondField);
      }
    }
  }

  /** No key of `d` begins with the first letter of the family's prefix. */
  predicate FamilyFree(d: Dictionary, f: Family)
    requires f.prefix != []
  {
    forall k :: k in Keys(d) ==> k == [] || k[0] != f.prefix[0]
  }

  lemma DeviceKeyFirstChar(f: Family, i: nat, field: string)
    requires f.prefix != []
    ensures DeviceKey(f.prefix, i, field)[0] == f.prefix[0]
  {
  }

  lemma DeviceKeyPrefix(prefix: string, i: nat, field: string)
    ensures StartsWith(DeviceKey(prefix, i, field), prefix)
  {
    var k := DeviceKey(prefix, i, field);
    assert k == prefix + ("." + NatToString(i) + "." + field);
    assert k[..|prefix|] == prefix;
  }

  /** One successful device adds its two keys and values and changes nothing else. */
  lemma AddDeviceGet(d: Dictionary, f: Family, i: nat, x: Device, k: string)
    requires x.first.Some?
    ensures Get(AddDevice(d, f, i, x).dict, k) ==
      if k == DeviceKey(f.prefix, i, f.secondField) then Some(x.second)
      else if k == DeviceKey(f.prefix, i, f.firstField) then x.first
      else Get(d, k)
  {
    var k1, k2 := DeviceKey(f.prefix, i, f.firstField), DeviceKey(f.prefix, i, f.secondField);
    PutGet(d, k1, x.first.value, k);
    PutGet(Put(d, k1, x.first.value), k2, x.second, k);
  }

  /** Rows never touch a key that does not start with the family's first letter. */
  lemma {:induction false} DeviceRowsOthers(d: Dictionary, f: Family, xs: seq<Device>, k: string)
    requires f.prefix != [] && (k == [] || k[0] != f.prefix[0])
    ensures Get(DeviceRows(d, f, xs).dict, k) == Get(d, k)
  {
    if xs != [] {
      var n := |xs| - 1;
      DeviceRowsOthers(d, f, xs[..n], k);
      var p := DeviceRows(d, f, xs[..n]);
      if !p.failed && xs[n].first.Some? {
        DeviceKeyFirstChar(f, n, f.firstField);
        DeviceKeyFirstChar(f, n, f.secondField);
        AddDeviceGet(p.dict, f, n, xs[n], k);
      }
    }
  }

  /** Rows that all succeed had every name (model) present. */
  lemma {:induction false} DeviceRowsPresent(d: Dictionary, f: Family, xs: seq<Device>, i: nat)
    requires !DeviceRows(d, f, xs).failed && i < |xs|
    ensures xs[i].first.Some?
  {
    var n := |xs| - 1;
    if i < n {
      var ys := xs[..n];
      assert ys[i] == xs[i];
      DeviceRowsPresent(d, f, ys, i);
    } else {
      assert i == n;
      assert xs[n].first.Some?;
    }
  }

  /** The two keys of device n are new after the keys of devices 0 .. n-1 and any foreign keys. */
  lemma FreshDeviceKeys(base: seq<string>, f: Family, n: nat)
    requires ValidFamily(f)
    requires forall k :: k in base ==> k == [] || k[0] != f.prefix[0]
    ensures DeviceKey(f.prefix, n, f.firstField) !in base + DeviceKeys(f, n)
    ensures DeviceKey(f.prefix, n, f.secondField) !in base + DeviceKeys(f, n)
    ensures DeviceKey(f.prefix, n, f.firstField) != DeviceKey(f.prefix, n, f.secondField)
  {
    DeviceKeyFirstChar(f, n, f.firstField);
    DeviceKeyFirstChar(f, n, f.secondField);
    DeviceKeyNotBelow(f, n, n, f.firstField);
    DeviceKeyNotBelow(f, n, n, f.secondField);
    if DeviceKey(f.prefix, n, f.firstField) == DeviceKey(f.prefix, n, f.secondField) {
      DeviceKeyInjective(f.prefix, n, f.firstField, n, f.secondField);
    }
  }

  lemma AddDeviceKeys(before: Dictionary, base: seq<string>, f: Family, n: nat, x: Device)
    requires ValidFamily(f) && x.first.Some?
    requires Keys(before) == base + DeviceKeys(f, n)
    requires forall k :: k in base ==> k == [] || k[0] != f.prefix[0]
    ensures Keys(AddDevice(before, f, n, x).dict) == base + DeviceKeys(f, n + 1)
  {
    var k1, k2 := DeviceKey(f.prefix, n, f.firstField), DeviceKey(f.prefix, n, f.secondField);
    FreshDeviceKeys(base, f, n);
    PutPutKeys(before, k1, x.first.value, k2, x.second);
  }

  /**
   * A family's rows that all succeed append exactly the keys "<prefix>.<i>.<field>"
   * for i = 0, 1, ... in order.
   */
  lemma {:induction false} DeviceRowsCompleteKeys(d: Dictionary, f: Family, xs: seq<Device>)
    requires ValidFamily(f) && FamilyFree(d, f)
    requires !DeviceRows(d, f, xs).failed
    ensures Keys(DeviceRows(d, f, xs).dict) == Keys(d) + DeviceKeys(f, |xs|)
  {
    if xs != [] {
      var n := |xs| - 1;
      var ys := xs[..n];
      var p := DeviceRows(d, f, ys);
      assert !p.failed && xs[n].first.Some?;
      DeviceRowsCompleteKeys(d, f, ys);
      AddDeviceKeys(p.dict, Keys(d), f, n, xs[n]);
    }
  }

  /** ... and with the rows' values under those keys. */
  lemma {:induction false} DeviceRowsCompleteValues(d: Dictionary, f: Family, xs: seq<Device>, i: nat)
    requires ValidFamily(f)
    requires !DeviceRows(d, f, xs).failed && i < |xs|
    ensures Get(DeviceRows(d, f, xs).dict, DeviceKey(f.prefix, i, f.firstField)) == xs[i].first
    ensures Get(DeviceRows(d, f, xs).dict, DeviceKey(f.prefix, i, f.secondField)) == Some(xs[i].second)
  {
    var n := |xs| - 1;
    var p := DeviceRows(d, f, xs[..n]);
    var a, b := DeviceKey(f.prefix, i, f.firstField), DeviceKey(f.prefix, i, f.secondField);
    AddDeviceGet(p.dict, f, n, xs[n], a);
    AddDeviceGet(p.dict, f, n, xs[n], b);
    if i < n {
      DeviceRowsCompleteValues(d, f, xs[..n], i);
      if a == DeviceKey(f.prefix, n, f.firstField) { DeviceKeyInjective(f.prefix, i, f.firstField, n, f.firstField); }
      if a == DeviceKey(f.prefix, n, f.secondField) { DeviceKeyInjective(f.prefix, i, f.firstField, n, f.secondField); }
      if b == DeviceKey(f.prefix, n, f.firstField) { DeviceKeyInjective(f.prefix, i, f.secondField, n, f.firstField); }
      if b == DeviceKey(f.prefix, n, f.secondField) { DeviceKeyInjective(f.prefix, i, f.secondField, n, f.secondField); }
    } else {
      if b == a { DeviceKeyInjective(f.prefix, i, f.secondField, i, f.firstField); }
    }
  }

  /** Whatever the rows do, every key they add starts with the family's first letter. */
  lemma {:induction false} DeviceRowsKeys(d: Dictionary, f: Family, xs: seq<Device>)
    requires f.prefix != []
    ensures forall k :: k in Keys(DeviceRows(d, f, xs).dict) ==> k in Keys(d) || (k != [] && k[0] == f.prefix[0])
  {
    if xs != [] {
      var n := |xs| - 1;
      DeviceRowsKeys(d, f, xs[..n]);
      var p := DeviceRows(d, f, xs[..n]);
      if !p.failed && xs[n].first.Some? {
        var k1 := DeviceKey(f.prefix, n, f.firstField);
        var k2 := DeviceKey(f.prefix, n, f.secondField);
        DeviceKeyFirstChar(f, n, f.firstField);
        DeviceKeyFirstChar(f, n, f.secondField);
        var d1 := Put(p.dict, k1, xs[n].first.value);
        PutKeysFrom(p.dict, k1, xs[n].first.value);
        PutKeysFrom(d1, k2, xs[n].second);
        assert DeviceRows(d, f, xs).dict == Put(d1, k2, xs[n].second);
      }
    }
  }

  // ------------------------------------------------------------ what the collection yields

  function CpuKeys(ps: seq<Processor>): seq<string> {
    if ps == [] then [] else ["CPU.Name", "CPU.Manufacturer", "CPU.Cores", "CPU.Threads"]
  }

  /** A processor stage that does not throw records the four fields of the first row only. */
  lemma CpuStageComplete(q: Query<Processor>)
    requires !CpuStage([], q).failed
    ensures q.Answered?
    ensures Keys(CpuStage([], q).dict) == CpuKeys(q.rows)
    ensures q.rows != [] ==>
      && Get(CpuStage([], q).dict, "CPU.Name") == q.rows[0].name
      && Get(CpuStage([], q).dict, "CPU.Manufacturer") == q.rows[0].manufacturer
      && Get(CpuStage([], q).dict, "CPU.Cores") == Some(NatToString(q.rows[0].cores.value))
      && Get(CpuStage([], q).dict, "CPU.Threads") == Some(NatToString(q.rows[0].threads.value))
  {
    if q.rows != [] {
      var p := q.rows[0];
      var a := Put([], "CPU.Name", p.name.value);
      var b := Put(a, "CPU.Manufacturer", p.manufacturer.value);
      var c := Put(b, "CPU.Cores", NatToString(p.cores.value));
      var t := NatToString(p.threads.value);
      forall k ensures Get(CpuStage([], q).dict, k) ==
        if k == "CPU.Threads" then Some(t)
        else if k == "CPU.Cores" then Some(NatToString(p.cores.value))
        else if k == "CPU.Manufacturer" then p.manufacturer
        else if k == "CPU.Name" then p.name
        else None
      {
        PutGet([], "CPU.Name", p.name.value, k);
        PutGet(a, "CPU.Manufacturer", p.manufacturer.value, k);
        PutGet(b, "CPU.Cores", NatToString(p.cores.value), k);
        PutGet(c, "CPU.Threads", t, k);
      }
    }
  }

  /** The four stages of a collection that does not throw, one dictionary after another. */
  function Stages(w: Wmi): (r: seq<Dictionary>)
    requires !CollectPartial(w).failed
    ensures |r| == 4 && r[3] == Collect(w)
    ensures w.memory.Answered? && w.video.Answered? && w.disks.Answered?
  {
    var d1 := CpuStage([], w.processors).dict;
    var d2 := Put(d1, "RAM.Total", RamText(RamTotalMB(w.memory.rows)));
    var d3 := DeviceRows(d2, Gpus, GpuDevices(w.video.rows)).dict;
    [d1, d2, d3, DeviceRows(d3, Disks, DiskDevices(w.disks.rows)).dict]
  }

  /** After the processor and memory stages, no key belongs to the GPU or the disk family. */
  lemma CpuRamKeys(d1: Dictionary, ps: seq<Processor>, total: string)
    requires Keys(d1) == CpuKeys(ps)
    ensures Keys(Put(d1, "RAM.Total", total)) == CpuKeys(ps) + ["RAM.Total"]
    ensures FamilyFree(Put(d1, "RAM.Total", total), Gpus)
    ensures FamilyFree(Put(d1, "RAM.Total", total), Disks)
  {
    var d := Put(d1, "RAM.Total", total);
    CpuKeysInitial(ps);
    assert "RAM.Total"[0] == 'R';
    assert "RAM.Total" !in CpuKeys(ps);
    assert Keys(d) == CpuKeys(ps) + ["RAM.Total"];
    forall k | k in Keys(d) ensures k == [] || (k[0] != 'G' && k[0] != 'D') {
      if k in CpuKeys(ps) {
        assert k[0] == 'C';
      } else {
        assert k == "RAM.Total";
      }
    }
  }

  /** The processor keys all begin with 'C'. */
  lemma CpuKeysInitial(ps: seq<Processor>)
    ensures forall k :: k in CpuKeys(ps) ==> k != [] && k[0] == 'C'
  {
  }

  /** Rows of one family leave another family's keys absent. */
  lemma FamilyFreeAfterRows(d: Dictionary, f: Family, xs: seq<Device>, g: Family)
    requires f.prefix != [] && g.prefix != [] && f.prefix[0] != g.prefix[0]
    requires FamilyFree(d, g)
    ensures FamilyFree(DeviceRows(d, f, xs).dict, g)
  {
    DeviceRowsKeys(d, f, xs);
  }

  /**
   * When no query and no property throws, the inventory has exactly the keys of the
   * first processor, "RAM.Total", then "GPU.i.Name"/"GPU.i.RAM" and then
   * "Disk.i.Model"/"Disk.i.Size" for consecutive i from 0.
   */
  lemma CollectCompleteKeys(w: Wmi)
    requires !CollectPartial(w).failed
    ensures w.processors.Answered? && w.memory.Answered? && w.video.Answered? && w.disks.Answered?
    ensures Keys(Collect(w)) == CpuKeys(w.processors.rows) + ["RAM.Total"]
      + DeviceKeys(Gpus, |w.video.rows|) + DeviceKeys(Disks, |w.disks.rows|)
  {
    var st := Stages(w);
    CpuStageComplete(w.processors);
    CpuRamKeys(st[0], w.processors.rows, RamText(RamTotalMB(w.memory.rows)));
    DeviceRowsCompleteKeys(st[1], Gpus, GpuDevices(w.video.rows));
    FamilyFreeAfterRows(st[1], Gpus, GpuDevices(w.video.rows), Disks);
    DeviceRowsCompleteKeys(st[2], Disks, DiskDevices(w.disks.rows));
  }

  /** The GPU and disk rows leave every other key as the processor and memory stages set it. */
  lemma RowsKeepOthers(w: Wmi, k: string)
    requires !CollectPartial(w).failed
    requires k == [] || k[0] !in "GD"
    ensures Get(Collect(w), k) == Get(Stages(w)[1], k)
  {
    var st := Stages(w);
    DeviceRowsOthers(st[1], Gpus, GpuDevices(w.video.rows), k);
    DeviceRowsOthers(st[2], Disks, DiskDevices(w.disks.rows), k);
  }

  /** ... holding the total of the memory modules ... */
  lemma CollectCompleteRam(w: Wmi)
    requires !CollectPartial(w).failed
    ensures w.memory.Answered?
    ensures Get(Collect(w), "RAM.Total") == Some(RamText(RamTotalMB(w.memory.rows)))
  {
    var st := Stages(w);
    PutGet(st[0], "RAM.Total", RamText(RamTotalMB(w.memory.rows)), "RAM.Total");
    RowsKeepOthers(w, "RAM.Total");
  }

  /** A key the memory stage does not write keeps its processor-stage value. */
  lemma RamKeepsOthers(w: Wmi, k: string)
    requires !CollectPartial(w).failed
    requires k != "RAM.Total" && (k == [] || k[0] !in "GD")
    ensures Get(Collect(w), k) == Get(CpuStage([], w.processors).dict, k)
  {
    var st := Stages(w);
    PutGet(st[0], "RAM.Total", RamText(RamTotalMB(w.memory.rows)), k);
    RowsKeepOthers(w, k);
  }

  /** ... and the four fields of the first processor only. */
  lemma CollectCompleteCpu(w: Wmi)
    requires !CollectPartial(w).failed
    ensures w.processors.Answered?
    ensures w.processors.rows != [] ==>
      && Get(Collect(w), "CPU.Name") == w.processors.rows[0].name
      && Get(Collect(w), "CPU.Manufacturer") == w.processors.rows[0].manufacturer
      && Get(Collect(w), "CPU.Cores") == Some(NatToString(w.processors.rows[0].cores.value))
      && Get(Collect(w), "CPU.Threads") == Some(NatToString(w.processors.rows[0].threads.value))
  {
    CpuStageComplete(w.processors);
    RamKeepsOthers(w, "CPU.Name");
    RamKeepsOthers(w, "CPU.Manufacturer");
    RamKeepsOthers(w, "CPU.Cores");
    RamKeepsOthers(w, "CPU.Threads");
  }

  /** ... and every video controller's and disk drive's name (model) and size. */
  lemma CollectCompleteDevices(w: Wmi)
    requires !CollectPartial(w).failed
    ensures w.video.Answered? && w.disks.Answered?
    ensures forall i :: 0 <= i < |w.video.rows| ==>
      && Get(Collect(w), DeviceKey("GPU", i, "Name")) == w.video.rows[i].name
      && Get(Collect(w), DeviceKey("GPU", i, "RAM")) == Some(GpuRamText(w.video.rows[i]))
    ensures forall i :: 0 <= i < |w.disks.rows| ==>
      && Get(Collect(w), DeviceKey("Disk", i, "Model")) == w.disks.rows[i].model
      && Get(Collect(w), DeviceKey("Disk", i, "Size")) == Some(DiskSizeText(w.disks.rows[i]))
  {
    var st := Stages(w);
    forall i | 0 <= i < |w.video.rows|
      ensures Get(st[3], DeviceKey("GPU", i, "Name")) == w.video.rows[i].name
      ensures Get(st[3], DeviceKey("GPU", i, "RAM")) == Some(GpuRamText(w.video.rows[i]))
    {
      DeviceRowsCompleteValues(st[1], Gpus, GpuDevices(w.video.rows), i);
      DeviceKeyFirstChar(Gpus, i, "Name");
      DeviceKeyFirstChar(Gpus, i, "RAM");
      DeviceRowsOthers(st[2], Disks, DiskDevices(w.disks.rows), DeviceKey("GPU", i, "Name"));
      DeviceRowsOthers(st[2], Disks, DiskDevices(w.disks.rows), DeviceKey("GPU", i, "RAM"));
    }
    forall i | 0 <= i < |w.disks.rows|
      ensures Get(st[3], DeviceKey("Disk", i, "Model")) == w.disks.rows[i].model
      ensures Get(st[3], DeviceKey("Disk", i, "Size")) == Some(DiskSizeText(w.disks.rows[i]))
    {
      DeviceRowsCompleteValues(st[2], Disks, DiskDevices(w.disks.rows), i);
    }
  }

  /** When at least one disk is found, the entry enumerated last is the last disk's size. */
  lemma CollectLastEntry(w: Wmi)
    requires !CollectPartial(w).failed
    ensures w.disks.Answered?
    ensures |w.disks.rows| > 0 ==> (|Collect(w)| > 0 && Collect(w)[|Collect(w)| - 1] ==
      Entry(DeviceKey("Disk", |w.disks.rows| - 1, "Size"), DiskSizeText(w.disks.rows[|w.disks.rows| - 1])))
  {
    var st := Stages(w);
    if |w.disks.rows| > 0 {
      var xs := DiskDevices(w.disks.rows);
      var n := |xs| - 1;
      assert xs[n].second == DiskSizeText(w.disks.rows[n]);
      assert Collect(w) == DeviceRows(st[2], Disks, xs).dict;
      DiskStageFree(w);
      DeviceRowsLastEntry(st[2], Disks, xs);
    }
  }

  /** Before the disk rows, no key belongs to the disk family. */
  lemma DiskStageFree(w: Wmi)
    requires !CollectPartial(w).failed
    ensures FamilyFree(Stages(w)[2], Disks)
  {
    var st := Stages(w);
    CpuStageComplete(w.processors);
    CpuRamKeys(st[0], w.processors.rows, RamText(RamTotalMB(w.memory.rows)));
    FamilyFreeAfterRows(st[1], Gpus, GpuDevices(w.video.rows), Disks);
  }

  /** Rows that all succeed over a dictionary free of the family end with the last row's second field. */
  lemma DeviceRowsLastEntry(d: Dictionary, f: Family, xs: seq<Device>)
    requires ValidFamily(f) && FamilyFree(d, f) && xs != []
    requires !DeviceRows(d, f, xs).failed
    ensures var r := DeviceRows(d, f, xs).dict;
      |r| > 0 && r[|r| - 1] == Entry(DeviceKey(f.prefix, |xs| - 1, f.secondField), xs[|xs| - 1].second)
  {
    var n := |xs| - 1;
    var p := DeviceRows(d, f, xs[..n]);
    assert !p.failed && xs[n].first.Some?;
    DeviceRowsCompleteKeys(d, f, xs[..n]);
    FreshDeviceKeys(Keys(d), f, n);
    var k1, k2 := DeviceKey(f.prefix, n, f.firstField), DeviceKey(f.prefix, n, f.secondField);
    var d1 := Put(p.dict, k1, xs[n].first.value);
    assert k2 !in Keys(d1);
    PutFresh(d1, k2, xs[n].second);
  }

  lemma FallbackGet(d: Dictionary, k: string)
    ensures Get(Fallback(d), k) ==
      if k == "Disk.0.Model" then Some("Unknown Disk")
      else if k == "GPU.0.Name" then Some("Unknown GPU")
      else if k == "RAM.Total" then Some("8192 MB")
      else if k == "CPU.Name" then Some("Unknown CPU")
      else Get(d, k)
  {
    var a := Put(d, "CPU.Name", "Unknown CPU");
    var b := Put(a, "RAM.Total", "8192 MB");
    var c := Put(b, "GPU.0.Name", "Unknown GPU");
    PutGet(d, "CPU.Name", "Unknown CPU", k);
    PutGet(a, "RAM.Total", "8192 MB", k);
    PutGet(b, "GPU.0.Name", "Unknown GPU", k);
    PutGet(c, "Disk.0.Model", "Unknown Disk", k);
  }

  /**
   * When something throws, "CPU.Name", "RAM.Total", "GPU.0.Name" and "Disk.0.Model"
   * hold the placeholders and every other key keeps what was collected before.
   */
  lemma CollectFallback(w: Wmi, k: string)
    requires CollectPartial(w).failed
    ensures Get(Collect(w), k) ==
      if k == "CPU.Name" then Some("Unknown CPU")
      else if k == "RAM.Total" then Some("8192 MB")
      else if k == "GPU.0.Name" then Some("Unknown GPU")
      else if k == "Disk.0.Model" then Some("Unknown Disk")
      else Get(CollectPartial(w).dict, k)
  {
    FallbackGet(CollectPartial(w).dict, k);
  }

  /** The keys the collection can write: the processor's four, "RAM.Total", and GPU or disk keys. */
  predicate KnownKey(k: string) {
    || k in ["CPU.Name", "CPU.Manufacturer", "CPU.Cores", "CPU.Threads", "RAM.Total"]
    || (k != [] && k[0] in "GD")
  }

  predicate KnownKeys(d: Dictionary) {
    forall k :: k in Keys(d) ==> KnownKey(k)
  }

  lemma PutKnown(d: Dictionary, k: string, v: string)
    requires KnownKeys(d) && KnownKey(k)
    ensures KnownKeys(Put(d, k, v))
  {
  }

  lemma CpuStageKnown(q: Query<Processor>)
    ensures KnownKeys(CpuStage([], q).dict)
  {
    if q.Answered? && q.rows != [] {
      var p := q.rows[0];
      if p.name.Some? {
        var a := Put([], "CPU.Name", p.name.value);
        PutKnown([], "CPU.Name", p.name.value);
        if p.manufacturer.Some? {
          var b := Put(a, "CPU.Manufacturer", p.manufacturer.value);
          PutKnown(a, "CPU.Manufacturer", p.manufacturer.value);
          if p.cores.Some? {
            var c := Put(b, "CPU.Cores", NatToString(p.cores.value));
            PutKnown(b, "CPU.Cores", NatToString(p.cores.value));
            if p.threads.Some? {
              PutKnown(c, "CPU.Threads", NatToString(p.threads.value));
            }
          }
        }
      }
    }
  }

  lemma RowsKnown(d: Dictionary, f: Family, xs: seq<Device>)
    requires f.prefix != [] && f.prefix[0] in "GD" && KnownKeys(d)
    ensures KnownKeys(DeviceRows(d, f, xs).dict)
  {
    DeviceRowsKeys(d, f, xs);
  }

  lemma CollectPartialKnown(w: Wmi)
    ensures KnownKeys(CollectPartial(w).dict)
  {
    var p1 := CpuStage([], w.processors);
    CpuStageKnown(w.processors);
    if !p1.failed {
      var p2 := RamStage(p1.dict, w.memory);
      if w.memory.Answered? { PutKnown(p1.dict, "RAM.Total", RamText(RamTotalMB(w.memory.rows))); }
      if !p2.failed {
        var p3 := QueryRows(p2.dict, w.video, GpuRows);
        if w.video.Answered? { RowsKnown(p2.dict, Gpus, GpuDevices(w.video.rows)); }
        if !p3.failed && w.disks.Answered? {
          RowsKnown(p3.dict, Disks, DiskDevices(w.disks.rows));
        }
      }
    }
  }

  /** Every key the collection produces is a known one, so "RAM.Free" is never among them. */
  lemma CollectKnown(w: Wmi)
    ensures KnownKeys(Collect(w))
    ensures "RAM.Free" !in Keys(Collect(w))
  {
    var d := CollectPartial(w).dict;
    CollectPartialKnown(w);
    if CollectPartial(w).failed {
      var a := Put(d, "CPU.Name", "Unknown CPU");
      var b := Put(a, "RAM.Total", "8192 MB");
      var c := Put(b, "GPU.0.Name", "Unknown GPU");
      PutKnown(d, "CPU.Name", "Unknown CPU");
      PutKnown(a, "RAM.Total", "8192 MB");
      PutKnown(b, "GPU.0.Name", "Unknown GPU");
      PutKnown(c, "Disk.0.Model", "Unknown Disk");
    }
    assert !KnownKey("RAM.Free");
  }

  method CollectCpu(q: Query<Processor>, d: Dictionary) returns (result: Dictionary, failed: bool)
    ensures Partial(result, failed) == CpuStage(d, q)
  {
    result, failed := d, false;
    if q.QueryFailed? {
      failed := true;
    } else if |q.rows| > 0 {
      var p := q.rows[0];
      if p.name.None? {
        failed := true;
      } else {
        result := Put(result, "CPU.Name", p.name.value);
        if p.manufacturer.None? {
          failed := true;
        } else {
          result := Put(result, "CPU.Manufacturer", p.manufacturer.value);
          if p.cores.None? {
            failed := true;
          } else {
            result := Put(result, "CPU.Cores", NatToString(p.cores.value));
            if p.threads.None? {
              failed := true;
            } else {
              result := Put(result, "CPU.Threads", NatToString(p.threads.value));
            }
          }
        }
      }
    }
  }

  /** `totalRamMB += Capacity / (1024 * 1024)` over the memory modules. */
  method SumRam(ms: seq<MemoryModule>) returns (totalRamMB: nat)
    ensures totalRamMB == RamTotalMB(ms)
  {
    totalRamMB := 0;
    var i := 0;
    while i < |ms|
      invariant 0 <= i <= |ms|
      invariant totalRamMB == RamTotalMB(ms[..i])
    {
      assert ms[..i + 1][..i] == ms[..i];
      totalRamMB := totalRamMB + OrZero(ms[i].capacity) / BytesPerMB;
      i := i + 1;
    }
    assert ms[..i] == ms;
  }

  /** The video controllers, numbered by `gpuIndex` from 0. */
  method CollectGpus(gs: seq<VideoController>, d: Dictionary) returns (result: Dictionary, failed: bool)
    ensures Partial(result, failed) == GpuRows(d, gs)
  {
    result, failed := d, false;
    var gpuIndex := 0;
    while gpuIndex < |gs| && !failed
      invariant 0 <= gpuIndex <= |gs|
      invariant !failed ==> Partial(result, false) == DeviceRows(d, Gpus, GpuDevices(gs)[..gpuIndex])
      invariant failed ==> gpuIndex < |gs| && Partial(result, true) == DeviceRows(d, Gpus, GpuDevices(gs)[..gpuIndex + 1])
      decreases |gs| - gpuIndex, if failed then 0 else 1
    {
      DeviceRowsSnoc(d, Gpus, GpuDevices(gs), gpuIndex);
      var g := gs[gpuIndex];
      if g.name.None? {
        failed := true;
      } else {
        result := Put(result, DeviceKey("GPU", gpuIndex, "Name"), g.name.value);
        result := Put(result, DeviceKey("GPU", gpuIndex, "RAM"), GpuRamText(g));
        assert Partial(result, false) == AddDevice(DeviceRows(d, Gpus, GpuDevices(gs)[..gpuIndex]).dict, Gpus, gpuIndex, GpuDevices(gs)[gpuIndex]);
        gpuIndex := gpuIndex + 1;
      }
    }
    if failed {
      DeviceRowsFailedStays(d, Gpus, GpuDevices(gs), gpuIndex + 1);
    } else {
      assert GpuDevices(gs)[..gpuIndex] == GpuDevices(gs);
    }
  }

  /** The disk drives, numbered by `diskIndex` from 0. */
  method CollectDisks(ks: seq<DiskDrive>, d: Dictionary) returns (result: Dictionary, failed: bool)
    ensures Partial(result, failed) == DiskRows(d, ks)
  {
    result, failed := d, false;
    var diskIndex := 0;
    while diskIndex < |ks| && !failed
      invariant 0 <= diskIndex <= |ks|
      invariant !failed ==> Partial(result, false) == DeviceRows(d, Disks, DiskDevices(ks)[..diskIndex])
      invariant failed ==> diskIndex < |ks| && Partial(result, true) == DeviceRows(d, Disks, DiskDevices(ks)[..diskIndex + 1])
      decreases |ks| - diskIndex, if failed then 0 else 1
    {
      DeviceRowsSnoc(d, Disks, DiskDevices(ks), diskIndex);
      var k := ks[diskIndex];
      if k.model.None? {
        failed := true;
      } else {
        result := Put(result, DeviceKey("Disk", diskIndex, "Model"), k.model.value);
        result := Put(result, DeviceKey("Disk", diskIndex, "Size"), DiskSizeText(k));
        assert Partial(result, false) == AddDevice(DeviceRows(d, Disks, DiskDevices(ks)[..diskIndex]).dict, Disks, diskIndex, DiskDevices(ks)[diskIndex]);
        diskIndex := diskIndex + 1;
      }
    }
    if failed {
      DeviceRowsFailedStays(d, Disks, DiskDevices(ks), diskIndex + 1);
    } else {
      assert DiskDevices(ks)[..diskIndex] == DiskDevices(ks);
    }
  }

  /** `CollectSystemInfo`: the four queries in order inside one try block. */
  method CollectSystemInfo(w: Wmi) returns (result: Dictionary)
    ensures result == Collect(w)
  {
    var failed;
    result, failed := CollectCpu(w.processors, []);
    if !failed {
      if w.memory.QueryFailed? {
        failed := true;
      } else {
        var totalRamMB := SumRam(w.memory.rows);
        result := Put(result, "RAM.Total", RamText(totalRamMB));
      }
    }
    if !failed {
      if w.video.QueryFailed? {
        failed := true;
      } else {
        result, failed := CollectGpus(w.video.rows, result);
      }
    }
    if !failed {
      if w.disks.QueryFailed? {
        failed := true;
      } else {
        result, failed := CollectDisks(w.disks.rows, result);
      }
    }
    assert Partial(result, failed) == CollectPartial(w);
    if failed {
      result := Put(result, "CPU.Name", "Unknown CPU");
      result := Put(result, "RAM.Total", "8192 MB");
      result := Put(result, "GPU.0.Name", "Unknown GPU");
      result := Put(result, "Disk.0.Model", "Unknown Disk");
    }
  }

  /**
   * The service object: `_systemInfo` is the cache, filled on the first read of
   * `SystemInfo` and replaced by `RefreshSystemInfoAsync`. `collections` counts the
   * runs of the collection.
   */
  class HardwareService {
    var cache: Option<Dictionary>
    ghost var collections: nat

    constructor ()
      ensures cache == None && collections == 0
    {
      cache := None;
      collections := 0;
    }

    /** `SystemInfo => _systemInfo ?? (_systemInfo = CollectSystemInfo())` */
    method SystemInfo(w: Wmi) returns (info: Dictionary)
      modifies this
      ensures old(cache).Some? ==> info == old(cache).value && cache == old(cache) && collections == old(collections)
      ensures old(cache).None? ==> info == Collect(w) && cache == Some(info) && collections == old(collections) + 1
    {
      if cache.Some? {
        info := cache.value;
      } else {
        info := CollectSystemInfo(w);
        cache := Some(info);
        collections := collections + 1;
      }
    }

    /** `RefreshSystemInfoAsync`: collects again and replaces the cache with the result. */
    method RefreshSystemInfo(w: Wmi) returns (info: Dictionary)
      modifies this
      ensures info == Collect(w) && cache == Some(info) && collections == old(collections) + 1
    {
      info := CollectSystemInfo(w);
      cache := Some(info);
      collections := collections + 1;
    }
  }
}

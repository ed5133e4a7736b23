/**
 * The helpers of the first main window: the memory-type table, the SSD/HDD
 * classifier, the storage and RAM summaries it builds from disk and memory records,
 * and the change-notifying properties behind its status and console.
 */
module LegacyWindow {
  import opened Wrappers
  import opened Text

  // ---------------------------------------------------------------- memory type

  /** `GetRamType`: the numbers its switch names for the value of `SMBIOSMemoryType`, "" for any other. */
  function RamType(code: nat): string {
    match code
    case 20 => "DDR"
    case 21 => "DDR2"
    case 22 => "DDR2 FB-DIMM"
    case 24 => "DDR3"
    case 26 => "DDR4"
    case 27 => "DDR5"
    case _ => ""
  }

  predicate KnownRamType(code: nat) {
    code == 20 || code == 21 || code == 22 || code == 24 || code == 26 || code == 27
  }

  /**
   * Exactly six codes have a name (23 and 25 among those without); every name is a DDR
   * generation, and no two codes share one.
   */
  lemma RamTypeTable(code: nat, other: nat)
    ensures RamType(code) != "" <==> KnownRamType(code)
    ensures KnownRamType(code) ==> StartsWith(RamType(code), "DDR")
    ensures KnownRamType(code) && KnownRamType(other) && code != other ==> RamType(code) != RamType(other)
  {
    if KnownRamType(code) && KnownRamType(other) && code != other {
      var a, b := RamType(code), RamType(other);
      assert |a| != |b| || a[3] != b[3] || a != b;
    }
  }

  // ---------------------------------------------------------------- storage

  /** `DetermineStorageType`: a case-sensitive look for four marks of a solid-state drive. */
  function StorageType(model: string): string {
    if Contains(model, "SSD") || Contains(model, "Solid") || Contains(model, "NVME") || Contains(model, "PCIe")
    then "SSD" else "HDD"
  }

  lemma StorageTypeSpec(model: string)
    ensures StorageType(model) == "SSD" || StorageType(model) == "HDD"
    ensures StorageType(model) == "SSD"
        <==> Contains(model, "SSD") || Contains(model, "Solid") || Contains(model, "NVME") || Contains(model, "PCIe")
  {
  }

  /** A `Win32_DiskDrive` record: the model may be missing; the size is in bytes. */
  datatype Drive = Drive(model: Option<string>, size: nat)

  function ModelOf(d: Drive): string {
    if d.model.Some? then d.model.value else ""
  }

  function SizeGB(d: Drive): real {
    d.size as real / 1073741824.0
  }

  predicate IsSsdDrive(d: Drive) {
    StorageType(ModelOf(d)) == "SSD"
  }

  /** The total size of the drives. */
  function TotalGB(ds: seq<Drive>): real {
    if ds == [] then 0.0 else TotalGB(ds[..|ds| - 1]) + SizeGB(ds[|ds| - 1])
  }

  /** The sizes the loop adds to the SSD total. */
  function SsdGB(ds: seq<Drive>): real {
    if ds == [] then 0.0
    else SsdGB(ds[..|ds| - 1]) + (if IsSsdDrive(ds[|ds| - 1]) then SizeGB(ds[|ds| - 1]) else 0.0)
  }

  /** The sizes the loop adds to the HDD total. */
  function HddGB(ds: seq<Drive>): real {
    if ds == [] then 0.0
    else HddGB(ds[..|ds| - 1]) + (if IsSsdDrive(ds[|ds| - 1]) then 0.0 else SizeGB(ds[|ds| - 1]))
  }

  /** Every drive counts towards exactly one of the totals: together they are all the storage. */
  lemma {:induction false} TotalsPartition(ds: seq<Drive>)
    ensures SsdGB(ds) >= 0.0 && HddGB(ds) >= 0.0
    ensures SsdGB(ds) + HddGB(ds) == TotalGB(ds)
  {
    if ds != [] {
      TotalsPartition(ds[..|ds| - 1]);
    }
  }

  /** `Math.Round`: to the nearest integer, a tie to the even one. */
  function Round(x: real): int {
    var f := x.Floor;
    var d := x - f as real;
    if d < 0.5 then f
    else if d > 0.5 then f + 1
    else if f % 2 == 0 then f else f + 1
  }

  lemma RoundNonNegative(x: real)
    requires x >= 0.0
    ensures Round(x) >= 0
  {
  }

  function GBText(x: real): string {
    IntToString(Round(x))
  }

  /** The summary `GetStorageInfo` assembles from the two totals. */
  function StorageText(ssd: real, hdd: real): string {
    var s := if ssd > 0.0 then GBText(ssd) + " GB SSD" else "";
    var r := if hdd > 0.0 then (if |s| > 0 then s + " + " else s) + GBText(hdd) + " GB HDD" else s;
    if r == "" then "Unknown Storage" else r
  }

  lemma NoPlusInGB(x: real)
    requires x >= 0.0
    ensures '+' !in GBText(x) && |GBText(x)| > 0
  {
    RoundNonNegative(x);
    var t := NatToString(Round(x));
    assert GBText(x) == t;
    forall i | 0 <= i < |t| ensures t[i] != '+' {
      assert IsDigit(t[i]);
    }
  }

  /**
   * Without storage the summary is "Unknown Storage"; the SSD part comes first and the
   * HDD part last, and the " + " between them appears exactly when both are present.
   */
  lemma StorageTextSpec(ssd: real, hdd: real)
    requires ssd >= 0.0 && hdd >= 0.0
    ensures StorageText(ssd, hdd) == "Unknown Storage" <==> ssd == 0.0 && hdd == 0.0
    ensures ssd > 0.0 ==> StartsWith(StorageText(ssd, hdd), GBText(ssd) + " GB SSD")
    ensures hdd > 0.0 ==> EndsWith(StorageText(ssd, hdd), GBText(hdd) + " GB HDD")
    ensures '+' in StorageText(ssd, hdd) <==> ssd > 0.0 && hdd > 0.0
  {
    NoPlusInGB(ssd);
    NoPlusInGB(hdd);
    var r := StorageText(ssd, hdd);
    var a := GBText(ssd) + " GB SSD";
    var b := GBText(hdd) + " GB HDD";
    assert '+' !in a && '+' !in b;
    if ssd > 0.0 && hdd > 0.0 {
      assert r == a + " + " + b;
      assert r[|a| + 1] == '+';
      assert r[..|a|] == a;
      assert r[|r| - |b|..] == b;
    } else if ssd > 0.0 {
      assert r == a;
      assert r[..|a|] == a;
      assert r[0] != 'U' by { assert IsDigit(GBText(ssd)[0]); }
    } else if hdd > 0.0 {
      assert r == b;
      assert r[|r| - |b|..] == b;
      assert r[0] != 'U' by { assert IsDigit(GBText(hdd)[0]); }
    } else {
      assert r == "Unknown Storage";
    }
  }

  const StorageError := "Error detecting storage"

  /**
   * `GetStorageInfo`, given the records of the disk query or None when the query
   * throws: each drive's size goes to one total, then the summary is assembled; an
   * exception gives the error text instead.
   */
  method StorageInfo(query: Option<seq<Drive>>) returns (result: string)
    ensures query.None? ==> result == StorageError
    ensures query.Some? ==> result == StorageText(SsdGB(query.value), HddGB(query.value))
  {
    if query.None? {
      return StorageError;
    }
    var drives := query.value;
    var totalSsdGB := 0.0;
    var totalHddGB := 0.0;
    for i := 0 to |drives|
      invariant totalSsdGB == SsdGB(drives[..i]) && totalHddGB == HddGB(drives[..i])
    {
      assert drives[..i + 1][..i] == drives[..i];
      var model := if drives[i].model.Some? then drives[i].model.value else "";
      var sizeGB := drives[i].size as real / 1073741824.0;
      if StorageType(model) == "SSD" {
        totalSsdGB := totalSsdGB + sizeGB;
      } else {
        totalHddGB := totalHddGB + sizeGB;
      }
    }
    assert drives[..|drives|] == drives;
    result := AssembleStorage(totalSsdGB, totalHddGB);
  }

  /** The assembly at the end of `GetStorageInfo`. */
  method AssembleStorage(totalSsdGB: real, totalHddGB: real) returns (result: string)
    ensures result == StorageText(totalSsdGB, totalHddGB)
  {
    result := "";
    if totalSsdGB > 0.0 {
      result := result + GBText(totalSsdGB) + " GB SSD";
    }
    if totalHddGB > 0.0 {
      if |result| > 0 {
        result := result + " + ";
      }
      result := result + GBText(totalHddGB) + " GB HDD";
    }
    result := if result == "" then "Unknown Storage" else result;
  }

  // ---------------------------------------------------------------- RAM

  /** A `Win32_PhysicalMemory` record: capacity in bytes, the type code and an optional speed in MHz. */
  datatype MemoryStick = MemoryStick(capacity: nat, memoryType: nat, speed: Option<nat>)

  function StickGB(m: MemoryStick): real {
    m.capacity as real / 1073741824.0
  }

  function RamGB(ms: seq<MemoryStick>): real {
    if ms == [] then 0.0 else RamGB(ms[..|ms| - 1]) + StickGB(ms[|ms| - 1])
  }

  /** The speed of the first module that reports one, as "<n> MHz", or "". */
  function FirstSpeed(ms: seq<MemoryStick>): string {
    if ms == [] then ""
    else
      var s := FirstSpeed(ms[..|ms| - 1]);
      if s == [] && ms[|ms| - 1].speed.Some? then NatToString(ms[|ms| - 1].speed.value) + " MHz" else s
  }

  lemma {:induction false} FirstSpeedSpec(ms: seq<MemoryStick>)
    ensures FirstSpeed(ms) == "" <==> forall i :: 0 <= i < |ms| ==> ms[i].speed.None?
    ensures FirstSpeed(ms) != "" ==>
      exists i :: (0 <= i < |ms| && ms[i].speed.Some?
        && FirstSpeed(ms) == NatToString(ms[i].speed.value) + " MHz"
        && forall j :: 0 <= j < i ==> ms[j].speed.None?)
  {
    if ms != [] {
      var n := |ms| - 1;
      FirstSpeedSpec(ms[..n]);
      assert forall j :: 0 <= j < n ==> ms[..n][j] == ms[j];
      if FirstSpeed(ms[..n]) != "" {
        var i :| 0 <= i < n && ms[..n][i].speed.Some?
          && FirstSpeed(ms[..n]) == NatToString(ms[..n][i].speed.value) + " MHz"
          && forall j :: 0 <= j < i ==> ms[..n][j].speed.None?;
        assert ms[i] == ms[..n][i];
      }
    }
  }

  /** The summary `GetRamInfo` assembles: size, then the type and the speed when known. */
  function RamText(gb: real, ramType: string, ramSpeed: string): string {
    GBText(gb) + " GB" + (if ramType != "" then " " + ramType else "") + (if ramSpeed != "" then " @ " + ramSpeed else "")
  }

  const RamError := "Error detecting RAM"

  /**
   * `GetRamInfo`, given the records of the memory query or None when the query
   * throws. The type starts as "Unknown", so the guarded lookup in the table never
   * runs and the summary always reports the type as "Unknown"; an exception gives the
   * error text instead.
   */
  method RamInfo(query: Option<seq<MemoryStick>>) returns (result: string)
    ensures query.None? ==> result == RamError
    ensures query.Some? ==> result == RamText(RamGB(query.value), "Unknown", FirstSpeed(query.value))
  {
    if query.None? {
      return RamError;
    }
    var sticks := query.value;
    var totalRamGB := 0.0;
    var ramType := "Unknown";
    var ramSpeed := "";
    for i := 0 to |sticks|
      invariant totalRamGB == RamGB(sticks[..i]) && ramType == "Unknown" && ramSpeed == FirstSpeed(sticks[..i])
    {
      assert sticks[..i + 1][..i] == sticks[..i];
      var stick := sticks[i];
      totalRamGB := totalRamGB + stick.capacity as real / 1073741824.0;
      if ramType == "" {
        ramType := RamType(stick.memoryType);
      }
      if ramSpeed == "" && stick.speed.Some? {
        ramSpeed := NatToString(stick.speed.value) + " MHz";
      }
    }
    assert sticks[..|sticks|] == sticks;
    result := GBText(totalRamGB) + " GB";
    if ramType != "" {
      result := result + " " + ramType;
    }
    if ramSpeed != "" {
      result := result + " @ " + ramSpeed;
    }
  }

  // ---------------------------------------------------------------- lines

  /** Appending one more line after a "\r\n" extends the joined text. */
  lemma {:induction false} JoinLinesSnoc(ls: seq<string>, x: string)
    requires ls != []
    ensures JoinLines(ls + [x]) == JoinLines(ls) + "\r\n" + x
  {
    if |ls| == 1 {
      assert (ls + [x])[1..] == [x];
    } else {
      JoinLinesSnoc(ls[1..], x);
      assert (ls + [x])[1..] == ls[1..] + [x];
    }
  }

  lemma {:induction false} JoinLinesEmpty(ls: seq<string>)
    requires forall k :: 0 <= k < |ls| ==> ls[k] != ""
    ensures JoinLines(ls) == "" <==> ls == []
  {
    if |ls| > 1 {
      assert |JoinLines(ls)| >= |ls[0]|;
    }
  }

  // ---------------------------------------------------------------- the window

  const Initialized := "System Optimizer initialized."
  const ScanningHardware := "Scanning hardware..."

  class Window {
    var isOptimizing: bool
    var consoleText: string
    /** The names the `PropertyChanged` event has carried, in order. */
    var notifications: seq<string>
    /** The messages logged so far, as they appear in the console. */
    ghost var entries: seq<string>

    /** The console is the logged messages joined by line breaks; a null text is "". */
    ghost predicate Valid()
      reads this
    {
      && consoleText == JoinLines(entries)
      && forall k :: 0 <= k < |entries| ==> entries[k] != ""
    }

    /**
     * `MainWindow()`: the console opens with two lines. Setting the four status texts
     * and the console raises one notification each; the progress is set to the 0 it
     * already holds, which raises none.
     */
    constructor ()
      ensures Valid() && !isOptimizing
      ensures entries == [Initialized, ScanningHardware]
      ensures consoleText == Initialized + "\r\n" + ScanningHardware
      ensures notifications == ["WindowsVersion", "SystemStatus", "StatusMessage", "CurrentTask", "ConsoleText"]
    {
      isOptimizing := false;
      consoleText := Initialized + "\r\n" + ScanningHardware;
      notifications := ["WindowsVersion", "SystemStatus", "StatusMessage", "CurrentTask", "ConsoleText"];
      entries := [Initialized, ScanningHardware];
      new;
      assert JoinLines(entries[1..]) == ScanningHardware;
    }

    function IsNotOptimizing(): bool
      reads this
    {
      !isOptimizing
    }

    /**
     * `SetProperty`: the field (passed by reference in the window, returned here) takes
     * the value, and only a real change raises one notification and returns true.
     */
    method SetProperty<T(==)>(storage: T, value: T, propertyName: string) returns (stored: T, changed: bool)
      modifies this`notifications
      ensures stored == value && changed == (storage != value)
      ensures notifications == old(notifications) + (if changed then [propertyName] else [])
    {
      if storage == value {
        return storage, false;
      }
      stored := value;
      notifications := notifications + [propertyName];
      changed := true;
    }

    /** The `IsOptimizing` setter: a real change also announces `IsNotOptimizing`. */
    method SetIsOptimizing(value: bool)
      modifies this`isOptimizing, this`notifications
      ensures isOptimizing == value && IsNotOptimizing() == !value
      ensures notifications == old(notifications)
        + (if old(isOptimizing) != value then ["IsOptimizing", "IsNotOptimizing"] else [])
    {
      var changed;
      isOptimizing, changed := SetProperty(isOptimizing, value, "IsOptimizing");
      if changed {
        notifications := notifications + ["IsNotOptimizing"];
      }
    }

    method SetConsoleText(value: string)
      modifies this`consoleText, this`notifications
      ensures consoleText == value
      ensures notifications == old(notifications) + (if old(consoleText) != value then ["ConsoleText"] else [])
    {
      var changed;
      consoleText, changed := SetProperty(consoleText, value, "ConsoleText");
    }

    /**
     * `LogToConsole`, with the clock's "HH:mm:ss" reading as a parameter: the first
     * message becomes the console text, every later one goes after a line break, so
     * the earlier text is always kept as a prefix.
     */
    method LogToConsole(timestamp: string, message: string)
      requires Valid()
      modifies this
      ensures Valid() && isOptimizing == old(isOptimizing)
      ensures entries == old(entries) + ["[" + timestamp + "] " + message]
      ensures old(consoleText) <= consoleText
      ensures notifications == old(notifications) + ["ConsoleText"]
      ensures (forall k :: 0 <= k < |entries| ==> IsLine(entries[k])) ==> SplitLines(consoleText) == entries
    {
      var formattedMessage := "[" + timestamp + "] " + message;
      JoinLinesEmpty(entries);
      if consoleText == "" {
        SetConsoleText(formattedMessage);
        assert [] + [formattedMessage] == [formattedMessage];
      } else {
        SetConsoleText(consoleText + "\r\n" + formattedMessage);
        JoinLinesSnoc(entries, formattedMessage);
      }
      entries := entries + [formattedMessage];
      if forall k :: 0 <= k < |entries| ==> IsLine(entries[k]) {
        SplitJoinLines(entries);
      }
    }
  }
}

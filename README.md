# WinOptimizer: the optimizer core in Dafny

WinOptimizer is a Windows desktop tool. It reads a hardware inventory, then applies registry and service
tweaks for one of five profiles: Balanced, Gaming, Productivity, PowerSaver and Custom. This project
models its decision and bookkeeping logic and proves properties of that model.

**OptimizationService** (modules `Optimization`, `Tweaks`, `TweakFacts`, `Effects`, `RegistryKeys`,
`ScriptOutput`)
- The sequencer `ScanSystemAndOptimize` is a class with the service's fields:
  - the re-entry guard;
  - the step counters;
  - the result list;
  - the progress and completion events, recorded as lists.
- Each of the five appliers (CPU, GPU, memory, disk, network) is a decision table over the profile
  and the inventory. It produces blocks of abstract steps:
  - registry writes, into a map from (key, value name) to value;
  - external commands (powercfg, sc.exe, PowerShell, schtasks), appended to an ordered action log;
  - status messages, appended to their own log.
- Steps inside a private helper with its own `try`/`catch` form a guarded block. Steps in an
  applier's own `try` form a bare block. In this model, opening a registry key the host denies is
  the only step that throws; starting and waiting for a process always succeeds.
- The power-plan GUID search and the adapter-name parser are loops proved against specification
  functions.
- `Custom` has no case of its own: it takes every `default` branch, exactly as Balanced does.

**HardwareService** (module `Hardware`)
- The inventory builder fills an insertion-ordered dictionary from abstract query answers. A failing
  query, or a null processor name, manufacturer, core or thread count, adapter name or drive model,
  throws. A null memory capacity or drive size counts as 0, and a null adapter RAM reads "Unknown".
- On an exception it keeps the partial entries and writes four placeholders.
- `SystemInfo` memoizes the inventory; `RefreshSystemInfoAsync` replaces it.

**The two windows** (modules `LegacyWindow`, `Views`)
- The memory-type table and the SSD/HDD classifier.
- The storage and RAM summaries.
- The change-notifying setter and the console's append rule.
- The first-matching-key summaries and the value converters.

**Shared modules**
- `Text` gives the .NET string operations the code relies on, as ordinal operations:
  - `Contains`, `StartsWith`, `Trim` (the white space of `char.IsWhiteSpace`);
  - `Replace(pat, "")`;
  - `long.TryParse`, which skips only tab to carriage return and space around the number;
  - `Split` on line breaks;
  - `ToString` of integers.
- `Inventory` models a `Dictionary<string, string>` that is only ever added to. It is the sequence of
  its entries in insertion order, which is the order .NET enumerates them in.

**Behaviour kept as written in the source**
- The adapter parser keeps every line after the header. So the dashed rule PowerShell prints under the
  header becomes an adapter name, as in the source.
- The GUID pattern accepts lowercase hexadecimal only. It is the textual UUID form of section 3 of
  RFC 4122, restricted to lowercase.
- The memory-type numbers are exactly the ones the source's switch names, applied to the value of
  `SMBIOSMemoryType`; the model makes no claim about which encoding they belong to.

## Model

| member | source | states |
|---|---|---|
| Text.TrimStart | WinOptimizer/WinOptimizer/Services/OptimizationService.cs:1088 | the result is a suffix of the input; every character dropped before it is white space, and its own first character is not |
| Text.TrimEnd | WinOptimizer/WinOptimizer/Services/OptimizationService.cs:1088 | the result is a prefix of the input; every character dropped after it is white space, and its own last character is not |
| Text.TrimKeeps | WinOptimizer/WinOptimizer/Services/OptimizationService.cs:1088 | trimming never drops a character that is not white space |
| Text.TrimNoWhiteSpace | WinOptimizer/WinOptimizer/Services/OptimizationService.cs:1088 | text without white space is left unchanged by trimming |
| Text.UpperIdempotent | WinOptimizer/WinOptimizer/Services/OptimizationService.cs:922 | upper-casing twice is upper-casing once |
| Text.ContainsIgnoreCaseOfContains | WinOptimizer/WinOptimizer/Services/OptimizationService.cs:922 | an exact occurrence is also found by the `OrdinalIgnoreCase` search |
| Text.ContainsIgnoreCaseOfUpper | WinOptimizer/WinOptimizer/Services/OptimizationService.cs:922 | the `OrdinalIgnoreCase` search gives the same answer on the upper-cased text |
| Text.RemoveAll | WinOptimizer/WinOptimizer/Services/OptimizationService.cs:110 | `Replace(" MB", "")` never lengthens the text, and leaves text without the pattern's first character unchanged |
| Text.RemoveAllDropsOccurrence | WinOptimizer/WinOptimizer/Services/OptimizationService.cs:110 | an occurrence after a prefix free of the pattern's first character is removed and removal goes on after it |
| Text.RemoveAllKeepsPrefix | WinOptimizer/WinOptimizer/Services/OptimizationService.cs:110 | a prefix free of the pattern's first character passes through unchanged and removal goes on in the rest |
| Text.NatToString | WinOptimizer/WinOptimizer/Services/HardwareService.cs:48 | the decimal rendering is non-empty and all digits |
| Text.DigitsValueOfNatToString | WinOptimizer/WinOptimizer/Services/HardwareService.cs:48 | reading the rendered digits back gives the number |
| Text.NatToStringInjective | WinOptimizer/WinOptimizer/Services/HardwareService.cs:57 | different numbers render differently |
| Text.ParseLong | WinOptimizer/WinOptimizer/Services/OptimizationService.cs:110 | `long.TryParse` (integer style) only succeeds with a value in the 64-bit range |
| Text.ParseLongRejects | WinOptimizer/WinOptimizer/Services/OptimizationService.cs:110 | a character that is neither a digit, a sign nor one of the white-space characters the integer style skips (tab to carriage return, space) makes parsing fail; U+0085 and U+00A0 are not skipped |
| Text.ParseLongOfDigits | WinOptimizer/WinOptimizer/Services/OptimizationService.cs:110 | a non-empty digit string within range parses to its value |
| Text.ParseLongOfNatToString | WinOptimizer/WinOptimizer/Services/OptimizationService.cs:110 | parsing the rendering of n gives n back (round trip) |
| Text.SplitLines | WinOptimizer/WinOptimizer/Services/OptimizationService.cs:920 | splitting with empty entries removed yields only non-empty lines without line breaks |
| Text.SplitJoinLines | WinOptimizer/WinOptimizer/Services/OptimizationService.cs:920 | splitting lines joined by "\r\n" recovers exactly those lines (round trip) |
| Inventory.Keys | WinOptimizer/WinOptimizer/Services/OptimizationService.cs:105 | `Keys` enumerates one key per entry, in entry order |
| Inventory.Get | WinOptimizer/WinOptimizer/Services/OptimizationService.cs:100 | lookup is absent exactly when the key is absent, and otherwise returns the value of an entry with that key |
| Inventory.Put | WinOptimizer/WinOptimizer/Services/HardwareService.cs:31 | `d[k] = v` keeps the key order when k is present and appends k at the end otherwise |
| Inventory.PutKeysFrom | WinOptimizer/WinOptimizer/Services/HardwareService.cs:31 | an assignment adds no key but its own |
| Inventory.PutGet | WinOptimizer/WinOptimizer/Services/HardwareService.cs:31 | after `d[k] = v`, k maps to v and every other key keeps its value |
| Inventory.PutPutKeys | WinOptimizer/WinOptimizer/Services/HardwareService.cs:57-59 | two fresh, distinct keys are appended in the order assigned |
| Inventory.PutFresh | WinOptimizer/WinOptimizer/Services/HardwareService.cs:31 | assigning a fresh key appends exactly its entry at the end |
| Inventory.PutKeepsDistinct | WinOptimizer/WinOptimizer/Services/HardwareService.cs:31 | assignment never creates a second entry for a key |
| Inventory.WithPrefix | WinOptimizer/WinOptimizer/Services/OptimizationService.cs:355 | `Keys.Where(k => k.StartsWith(p))` is non-empty exactly when some key has the prefix |
| Inventory.WithPrefixSnoc | WinOptimizer/WinOptimizer/Services/OptimizationService.cs:355 | adding an entry extends the filter by that entry exactly when its key has the prefix, in enumeration order |
| Inventory.WithPrefixMembers | WinOptimizer/WinOptimizer/Services/OptimizationService.cs:355 | the filter keeps exactly the entries whose key has the prefix |
| Inventory.WithPrefixLast | WinOptimizer/WinOptimizer/Services/OptimizationService.cs:546 | when the last entry has the prefix, it is also the filter's last |
| Effects.SetAllLookup | WinOptimizer/WinOptimizer/Services/OptimizationService.cs:1137-1159 | successive `SetValue`s on one key: the last write to a name wins, and other keys are untouched |
| Effects.RunStep | WinOptimizer/WinOptimizer/Services/OptimizationService.cs:287-290 | a step throws exactly when it opens a key the host denies |
| Effects.RunStepsOk | WinOptimizer/WinOptimizer/Services/OptimizationService.cs:284-300 | a helper's steps complete exactly when none of them opens a denied key |
| Effects.GuardedNeverFails | WinOptimizer/WinOptimizer/Services/OptimizationService.cs:302-305 | helpers that catch their own exceptions never make their caller fail |
| Effects.RunStepsPreserves | WinOptimizer/WinOptimizer/Services/OptimizationService.cs:592-605 | steps that never assign a value leave it as it was |
| Effects.RunBlocksPreserves | WinOptimizer/WinOptimizer/Services/OptimizationService.cs:566-567 | blocks that never assign a value leave it as it was |
| Effects.RunStepsAppend | WinOptimizer/WinOptimizer/Services/OptimizationService.cs:1137-1169 | running two step lists in turn is running their concatenation, stopping at the first throw |
| Effects.RunBlocksAppend | WinOptimizer/WinOptimizer/Services/OptimizationService.cs:1030-1040 | running two block lists in turn is running their concatenation |
| Effects.RunStepsAppends | WinOptimizer/WinOptimizer/Services/OptimizationService.cs:1018-1021 | the action and status logs only grow at the end |
| Effects.RunBlocksAppends | WinOptimizer/WinOptimizer/Services/OptimizationService.cs:1018-1021 | the same for whole blocks |
| Effects.FirstWriteSticks | WinOptimizer/WinOptimizer/Services/OptimizationService.cs:1137-1148 | a value set by a helper's first write survives when no later step assigns it |
| Effects.RunStepsOnlyWrites | WinOptimizer/WinOptimizer/Services/OptimizationService.cs:844-850 | registry writes start no command and raise no status |
| Effects.Machine.Status | WinOptimizer/WinOptimizer/Services/OptimizationService.cs:1018-1021 | `UpdateStatus` appends the message to the status log and changes nothing else |
| Effects.Machine.Start | WinOptimizer/WinOptimizer/Services/OptimizationService.cs:647-665 | starting a command appends it to the action log and changes nothing else |
| Effects.Machine.SetValues | WinOptimizer/WinOptimizer/Services/OptimizationService.cs:294-300 | the loop of `SetValue`s leaves the registry equal to the last-write-wins assignment |
| Effects.Machine.Perform | WinOptimizer/WinOptimizer/Services/OptimizationService.cs:287-290 | one step in place agrees with `RunStep` on the new state and on whether it throws |
| Effects.Machine.PerformSteps | WinOptimizer/WinOptimizer/Services/OptimizationService.cs:284-305 | the steps in place, stopping at the first throw, agree with `RunSteps` |
| Effects.Machine.PerformBlocks | WinOptimizer/WinOptimizer/Services/OptimizationService.cs:1026-1058 | the blocks in place agree with `RunBlocks`: a guarded block swallows its failure, a bare one ends the applier |
| ScriptOutput.FirstGuidFrom | WinOptimizer/WinOptimizer/Services/OptimizationService.cs:925 | the match returned is the leftmost GUID at or after the position; with none, no position holds one |
| ScriptOutput.FirstGuid | WinOptimizer/WinOptimizer/Services/OptimizationService.cs:925 | `Regex.Match` returns a lowercase 8-4-4-4-12 hex GUID |
| ScriptOutput.FirstWhere | WinOptimizer/WinOptimizer/Services/OptimizationService.cs:920-932 | the index found is in range and its element satisfies the test |
| ScriptOutput.FirstWhereSpec | WinOptimizer/WinOptimizer/Services/OptimizationService.cs:920-932 | nothing is found exactly when no element satisfies the test; no earlier element does |
| ScriptOutput.AfterFirstSpec | WinOptimizer/WinOptimizer/Services/OptimizationService.cs:1084-1093 | the elements after the first match, mapped in order, and none without a match |
| ScriptOutput.PlanGuidSpec | WinOptimizer/WinOptimizer/Services/OptimizationService.cs:919-932 | there is a GUID exactly when a line names the plan case-insensitively and holds one; it is the leftmost GUID of the first such line |
| ScriptOutput.FindPlanGuid | WinOptimizer/WinOptimizer/Services/OptimizationService.cs:919-932 | the search loop with `break` returns the plan's GUID as specified |
| ScriptOutput.HeaderIndexSpec | WinOptimizer/WinOptimizer/Services/OptimizationService.cs:1086-1089 | the header is the first line whose trimmed text starts with "Name" |
| ScriptOutput.AdapterNamesSpec | WinOptimizer/WinOptimizer/Services/OptimizationService.cs:1080-1093 | no header gives no adapters; otherwise every line after the header, trimmed, in order, and not the header itself |
| ScriptOutput.ParseAdapterNames | WinOptimizer/WinOptimizer/Services/OptimizationService.cs:1080-1093 | the loop with its `headerPassed` flag returns exactly the specified adapter list |
| Hardware.DeviceRowsFailedStays | WinOptimizer/WinOptimizer/Services/HardwareService.cs:54-61 | once a row throws, later rows add nothing |
| Hardware.DeviceKeyInjective | WinOptimizer/WinOptimizer/Services/HardwareService.cs:57-58 | different (index, field) pairs give different "<prefix>.<i>.<field>" keys |
| Hardware.DeviceKeyPrefix | WinOptimizer/WinOptimizer/Services/HardwareService.cs:70-71 | every device key starts with its family's prefix |
| Hardware.AddDeviceGet | WinOptimizer/WinOptimizer/Services/HardwareService.cs:57-59 | one device adds its two values under its two keys and changes nothing else |
| Hardware.DeviceRowsOthers | WinOptimizer/WinOptimizer/Services/HardwareService.cs:51-74 | device rows never touch a key outside their family's initial letter |
| Hardware.DeviceRowsPresent | WinOptimizer/WinOptimizer/Services/HardwareService.cs:56 | rows that all succeed had every name (model) present |
| Hardware.DeviceRowsCompleteKeys | WinOptimizer/WinOptimizer/Services/HardwareService.cs:51-74 | successful rows append exactly the keys for i = 0, 1, ... in order |
| Hardware.DeviceRowsCompleteValues | WinOptimizer/WinOptimizer/Services/HardwareService.cs:51-74 | ... holding each row's name (model) and second value |
| Hardware.DeviceRowsKeys | WinOptimizer/WinOptimizer/Services/HardwareService.cs:51-74 | whatever happens, every key the rows add starts with the family's initial letter |
| Hardware.CpuStageComplete | WinOptimizer/WinOptimizer/Services/HardwareService.cs:27-37 | a processor stage that does not throw records exactly the four fields of the first row |
| Hardware.CollectCompleteKeys | WinOptimizer/WinOptimizer/Services/HardwareService.cs:20-75 | without an exception: the processor keys, "RAM.Total", then GPU and disk keys with consecutive indices from 0 |
| Hardware.CollectCompleteCpu | WinOptimizer/WinOptimizer/Services/HardwareService.cs:27-37 | ... with the first processor's name, manufacturer, cores and threads |
| Hardware.CollectCompleteRam | WinOptimizer/WinOptimizer/Services/HardwareService.cs:40-48 | ... with "RAM.Total" the per-module sum of whole megabytes, as "<n> MB" |
| Hardware.CollectCompleteDevices | WinOptimizer/WinOptimizer/Services/HardwareService.cs:51-74 | ... with each controller's name and RAM text and each drive's model and "<n> GB" size |
| Hardware.DeviceRowsLastEntry | WinOptimizer/WinOptimizer/Services/HardwareService.cs:68-73 | successful rows over a dictionary free of the family end with the last row's second value |
| Hardware.CollectLastEntry | WinOptimizer/WinOptimizer/Services/HardwareService.cs:65-74 | with at least one disk, the last entry enumerated is the last disk's size |
| Hardware.FallbackGet | WinOptimizer/WinOptimizer/Services/HardwareService.cs:80-83 | the catch block sets the four placeholders and leaves every other key |
| Hardware.CollectFallback | WinOptimizer/WinOptimizer/Services/HardwareService.cs:76-84 | after an exception the partial entries stay and the four placeholders, "8192 MB" among them, are set |
| Hardware.CollectKnown | WinOptimizer/WinOptimizer/Services/HardwareService.cs:20-87 | every key collected is a processor key, "RAM.Total" or a GPU/disk key, so "RAM.Free" never appears |
| Hardware.CollectCpu | WinOptimizer/WinOptimizer/Services/HardwareService.cs:27-37 | the imperative processor stage agrees with the stage function |
| Hardware.SumRam | WinOptimizer/WinOptimizer/Services/HardwareService.cs:40-47 | the `totalRamMB +=` loop computes the per-module sum of whole megabytes |
| Hardware.CollectGpus | WinOptimizer/WinOptimizer/Services/HardwareService.cs:51-62 | the `gpuIndex` loop agrees with the GPU rows, including a throw part-way through |
| Hardware.CollectDisks | WinOptimizer/WinOptimizer/Services/HardwareService.cs:65-74 | the `diskIndex` loop agrees with the disk rows, including a throw part-way through |
| Hardware.CollectSystemInfo | WinOptimizer/WinOptimizer/Services/HardwareService.cs:20-87 | the imperative collection returns the collected inventory, placeholders included |
| Hardware.HardwareService.constructor | WinOptimizer/WinOptimizer/Services/HardwareService.cs:15-18 | a new service has no cached inventory |
| Hardware.HardwareService.SystemInfo | WinOptimizer/WinOptimizer/Services/HardwareService.cs:13 | the first read collects and caches; later reads return the cache without collecting again |
| Hardware.HardwareService.RefreshSystemInfo | WinOptimizer/WinOptimizer/Services/HardwareService.cs:89-95 | refreshing collects again, replaces the cache and returns the new inventory |
| Tweaks.NagleSteps | WinOptimizer/WinOptimizer/Services/OptimizationService.cs:1235-1250 | one Nagle step per interface subkey, in order |
| TweakFacts.GpuEntriesGuarded | WinOptimizer/WinOptimizer/Services/OptimizationService.cs:355-396 | the per-GPU work is made only of helpers that catch their own errors |
| TweakFacts.GpuOutcome | WinOptimizer/WinOptimizer/Services/OptimizationService.cs:351-421 | the GPU applier fails exactly when the DirectX key is denied; otherwise DirectXUserGlobalSettings ends as the VRR string, overwriting the NVIDIA helper's value |
| TweakFacts.NetworkNeverFails | WinOptimizer/WinOptimizer/Services/OptimizationService.cs:1024-1059 | the network applier never fails, raises its status first and only extends the logs |
| TweakFacts.TcpOptions | WinOptimizer/WinOptimizer/Services/OptimizationService.cs:1137-1160 | Tcp1323Opts ends as 0 under Gaming (written 1 then 0) and 1 otherwise; retransmissions 3, TTL 64 |
| TweakFacts.DiskEntriesGuarded | WinOptimizer/WinOptimizer/Services/OptimizationService.cs:546-564 | the per-disk work is made only of helpers that catch their own errors |
| TweakFacts.DiskNeverFails | WinOptimizer/WinOptimizer/Services/OptimizationService.cs:542-585 | the disk applier never fails |
| TweakFacts.SsdEntryRun | WinOptimizer/WinOptimizer/Services/OptimizationService.cs:551-558 | an SSD entry runs `fsutil` to enable TRIM, then disables the scheduled defrag task, raises no status and leaves TimeoutValue alone |
| TweakFacts.HddEntryRun | WinOptimizer/WinOptimizer/Services/OptimizationService.cs:587-612 | a hard-disk entry runs no command, raises no status and sets TimeoutValue to 60 under PowerSaver, 30 otherwise, unless that key is denied |
| TweakFacts.DiskEntryCache | WinOptimizer/WinOptimizer/Services/OptimizationService.cs:549-623 | one disk entry never fails; it leaves LargeSystemCache 0 for an SSD or under Gaming, 1 otherwise; it adds the TRIM and defrag commands exactly for an SSD; and it sets the hard-disk TimeoutValue (60 under PowerSaver, else 30) exactly for a non-SSD entry whose key is not denied |
| TweakFacts.DiskCache | WinOptimizer/WinOptimizer/Services/OptimizationService.cs:546-567 | the last "Disk" entry alone decides LargeSystemCache; when it is not an SSD, TimeoutValue ends as its hard-disk setting |
| TweakFacts.LastDiskEntryCache | WinOptimizer/WinOptimizer/Services/OptimizationService.cs:546-563 | when the inventory's last entry is a non-SSD "Disk" entry, the hard-disk settings of LargeSystemCache and TimeoutValue stay |
| TweakFacts.SizeIsNotSsd | WinOptimizer/WinOptimizer/Services/OptimizationService.cs:549 | a recorded size "<n> GB" is never taken for an SSD |
| TweakFacts.CollectedDiskCache | WinOptimizer/WinOptimizer/Services/OptimizationService.cs:546-563 | on a collected inventory with disks, LargeSystemCache and TimeoutValue end as for a hard disk, whatever the drives |
| TweakFacts.CollectedLastIsDiskSize | WinOptimizer/WinOptimizer/Services/HardwareService.cs:65-74 | such an inventory ends with a "Disk" size entry that is not an SSD |
| TweakFacts.RamMBOfRamText | WinOptimizer/WinOptimizer/Services/OptimizationService.cs:110 | the appliers read back the size the collector wrote: "<n> MB" parses to n |
| TweakFacts.CollectedRamMB | WinOptimizer/WinOptimizer/Services/HardwareService.cs:40-84 | on a collected inventory the RAM size parses: to the modules' total, or to 8192 after an exception |
| TweakFacts.CollectedMemoryApplies | WinOptimizer/WinOptimizer/Services/OptimizationService.cs:484-503 | the memory applier's own `long.Parse` never throws on a collected inventory |
| TweakFacts.MemoryActions | WinOptimizer/WinOptimizer/Services/OptimizationService.cs:476-503 | the memory applier never fails, raises no status and starts the compression command exactly when the profile's rule asks |
| TweakFacts.CollectedCompression | WinOptimizer/WinOptimizer/Services/OptimizationService.cs:476-503 | after a failed collection compression goes off exactly under Gaming; otherwise always under Gaming, above 16384 MB (Productivity) or 32768 MB (Balanced, Custom) of collected RAM, never under PowerSaver |
| TweakFacts.PageFileSizeSpec | WinOptimizer/WinOptimizer/Services/OptimizationService.cs:838-842 | the page file is the RAM size times the multiplier with the fraction dropped, capped at 32768 |
| TweakFacts.PageFileSizeMonotone | WinOptimizer/WinOptimizer/Services/OptimizationService.cs:838-842 | more RAM never gives a smaller page file |
| TweakFacts.PageFileWritten | WinOptimizer/WinOptimizer/Services/OptimizationService.cs:834-850 | PagingFiles ends as "C:\pagefile.sys <n> <n>" with the computed size as initial and maximum |
| TweakFacts.SetPowerPlanRun | WinOptimizer/WinOptimizer/Services/OptimizationService.cs:899-963 | SetPowerPlan never fails or writes the registry; it activates g exactly when g is the plan's GUID, and duplicates the Ultimate scheme exactly when no GUID and no mention |
| TweakFacts.SetPowerPlanSteps | WinOptimizer/WinOptimizer/Services/OptimizationService.cs:899-956 | the commands SetPowerPlan starts, in order, in each of its three cases |
| TweakFacts.CpuBlocksGuarded | WinOptimizer/WinOptimizer/Services/OptimizationService.cs:213-260 | every piece of the CPU applier's work is a helper that catches its own errors |
| TweakFacts.CpuOutcome | WinOptimizer/WinOptimizer/Services/OptimizationService.cs:207-279 | the CPU applier runs exactly when "CPU.Name" is present and then never fails; a processor neither Intel nor AMD is left untouched except under PowerSaver |
| TweakFacts.ProcessorIndices | WinOptimizer/WinOptimizer/Services/OptimizationService.cs:213-260 | ACSettingIndex is 100/90/50/80 by profile; DCSettingIndex the same, halved (25) under PowerSaver |
| TweakFacts.NagleStepRun | WinOptimizer/WinOptimizer/Services/OptimizationService.cs:1237-1247 | one interface: both values set to 1 exactly when it has an IPAddress |
| TweakFacts.NagleRun | WinOptimizer/WinOptimizer/Services/OptimizationService.cs:1227-1257 | Nagle off on exactly the listed interfaces with an IP address; every other interface keeps its values |
| Optimization.IfEnabled | WinOptimizer/WinOptimizer/Services/OptimizationService.cs:99-122 | a component counts exactly when it is selected and its hardware test holds |
| Optimization.EnabledUpToSpec | WinOptimizer/WinOptimizer/Services/OptimizationService.cs:99-122 | among the first k of the order, exactly the selected, applicable components |
| Optimization.EnabledMembers | WinOptimizer/WinOptimizer/Services/OptimizationService.cs:132-172 | the sequencer runs exactly the selected, applicable components |
| Optimization.EnabledOrdered | WinOptimizer/WinOptimizer/Services/OptimizationService.cs:132-172 | ... each once, in the order CPU, GPU, memory, disk, network |
| Optimization.ResultOf | WinOptimizer/WinOptimizer/Services/OptimizationService.cs:263-277 | an applier's result records whether it completed, under its component's name |
| Optimization.CountUp | WinOptimizer/WinOptimizer/Services/OptimizationService.cs:1013-1016 | the progress events of n steps are 1, 2, ..., n |
| Optimization.StepsResults | WinOptimizer/WinOptimizer/Services/OptimizationService.cs:132-172 | each component run appends exactly one result, its own, in order |
| Optimization.ApplierSucceeds | WinOptimizer/WinOptimizer/Services/OptimizationService.cs:398-421 | an applicable component's applier fails only for the GPU with the DirectX key denied |
| Optimization.CpuApplierOk | WinOptimizer/WinOptimizer/Services/OptimizationService.cs:207-279 | the CPU applier completes whenever the CPU test held |
| Optimization.GpuApplierOk | WinOptimizer/WinOptimizer/Services/OptimizationService.cs:398-421 | the GPU applier completes exactly when the DirectX key opens |
| Optimization.MemoryApplierOk | WinOptimizer/WinOptimizer/Services/OptimizationService.cs:472-522 | the memory applier completes whenever the memory test held |
| Optimization.DiskApplierOk | WinOptimizer/WinOptimizer/Services/OptimizationService.cs:542-585 | the disk applier always completes |
| Optimization.NetworkApplierOk | WinOptimizer/WinOptimizer/Services/OptimizationService.cs:1024-1059 | the network applier always completes |
| Optimization.StepsOnlyGpuFails | WinOptimizer/WinOptimizer/Services/OptimizationService.cs:132-172 | results fail exactly where the component is the GPU and the GPU fails |
| Optimization.ScanShape | WinOptimizer/WinOptimizer/Services/OptimizationService.cs:98-175 | total = enabled count; with none, no results and no completion; else one result each in order, progress 1..total, last status the completion |
| Optimization.EnabledAppliers | WinOptimizer/WinOptimizer/Services/OptimizationService.cs:132-172 | every enabled component's applier fails only as the GPU with the DirectX key denied |
| Optimization.ScanOnlyGpuFails | WinOptimizer/WinOptimizer/Services/OptimizationService.cs:131-175 | every result of a run succeeds, except the GPU result when the DirectX key is denied |
| Optimization.NetworkAlwaysRuns | WinOptimizer/WinOptimizer/Services/OptimizationService.cs:119-172 | with network selected the run always completes, with a successful network result last |
| Optimization.CollectedMemoryStep | WinOptimizer/WinOptimizer/Services/OptimizationService.cs:109-113 | on a collected inventory, memory is enabled exactly when collection succeeded with more than 8192 MB; the "8192 MB" placeholder never enables it |
| Optimization.OptimizationService.constructor | WinOptimizer/WinOptimizer/Services/OptimizationService.cs:32-48 | fields start idle: no run, step 0 of 0, Balanced, no results or events |
| Optimization.OptimizationService.CreateSystemRestorePoint | WinOptimizer/WinOptimizer/Services/OptimizationService.cs:744-811 | nothing without admin rights; else status, status query, and unless disabled the checkpoint and its outcome's status |
| Optimization.OptimizationService.Optimize | WinOptimizer/WinOptimizer/Services/OptimizationService.cs:263-277 | one applier leaves the host as its plan does and appends exactly its one result |
| Optimization.OptimizationService.Advance | WinOptimizer/WinOptimizer/Services/OptimizationService.cs:135-138 | one branch: status, applier, step increment and progress event extend the run by that component |
| Optimization.OptimizationService.PrepareRun | WinOptimizer/WinOptimizer/Services/OptimizationService.cs:83-90 | the admin warning when needed, then the restore point, then its status |
| Optimization.OptimizationService.CountSteps | WinOptimizer/WinOptimizer/Services/OptimizationService.cs:99-122 | the counting pass sets the total to the number of enabled components |
| Optimization.OptimizationService.Branch | WinOptimizer/WinOptimizer/Services/OptimizationService.cs:132-139 | the k-th branch runs its component exactly when enabled |
| Optimization.OptimizationService.RunComponents | WinOptimizer/WinOptimizer/Services/OptimizationService.cs:131-172 | the five branches in order run exactly the enabled components, with progress 1..n |
| Optimization.OptimizationService.RunScan | WinOptimizer/WinOptimizer/Services/OptimizationService.cs:98-175 | count, then stop with the nothing-to-do status, or run all and fire the completion event |
| Optimization.OptimizationService.ScanSystemAndOptimize | WinOptimizer/WinOptimizer/Services/OptimizationService.cs:72-193 | a call during a run changes nothing; otherwise the run ends idle with the new profile; a missing inventory gives one "System" failure, the error status and a completion; else the state is the scan over the memoized inventory after the restore-point preparation |
| LegacyWindow.RamTypeTable | MainWindow.xaml.cs:292-304 | exactly codes 20, 21, 22, 24, 26, 27 have names, each a distinct DDR generation; 23, 25 and all others give "" |
| LegacyWindow.StorageTypeSpec | MainWindow.xaml.cs:771-777 | "SSD" exactly when the model contains "SSD", "Solid", "NVME" or "PCIe", else "HDD" |
| LegacyWindow.TotalsPartition | MainWindow.xaml.cs:346-356 | every drive adds to exactly one total; the two totals sum to all storage |
| LegacyWindow.StorageTextSpec | MainWindow.xaml.cs:359-370 | "Unknown Storage" exactly without storage; SSD part first, HDD part last, " + " exactly when both |
| LegacyWindow.StorageInfo | MainWindow.xaml.cs:336-377 | the loop over drives, then the assembly, gives the summary of the two totals; a failing query gives "Error detecting storage" |
| LegacyWindow.AssembleStorage | MainWindow.xaml.cs:359-370 | the `+=` assembly builds the specified storage summary |
| LegacyWindow.FirstSpeedSpec | MainWindow.xaml.cs:272-273 | the speed is that of the first module reporting one, or "" if none does |
| LegacyWindow.RamInfo | MainWindow.xaml.cs:253-290 | the RAM summary always reports the type "Unknown", since the `IsNullOrEmpty` guard never lets the table run; a failing query gives "Error detecting RAM" |
| LegacyWindow.Window.constructor | MainWindow.xaml.cs:154-172 | the console opens with the two lines "System Optimizer initialized." and "Scanning hardware..."; the four status texts and the console each notify once, the progress (already 0) does not |
| LegacyWindow.JoinLinesSnoc | MainWindow.xaml.cs:745 | appending after a line break extends the joined console text |
| LegacyWindow.Window.SetProperty | MainWindow.xaml.cs:36-44 | an equal value changes nothing and returns false; a different one is stored, notified once, returns true |
| LegacyWindow.Window.SetIsOptimizing | MainWindow.xaml.cs:109-120 | IsNotOptimizing is always the negation; a real change notifies IsOptimizing then IsNotOptimizing |
| LegacyWindow.Window.SetConsoleText | MainWindow.xaml.cs:124-133 | the console takes the value and notifies only on a change |
| LegacyWindow.Window.LogToConsole | MainWindow.xaml.cs:732-748 | an empty console takes the message, else it goes after a line break; old text stays a prefix; split lines give the messages back |
| Views.FirstWithPrefixFilter | WinOptimizer/WinOptimizer/Views/MainWindow.xaml.cs:37-47 | the first-match loop equals the head of the prefix filter, or the fallback when there is none |
| Views.FirstWithPrefixAt | WinOptimizer/WinOptimizer/Views/MainWindow.xaml.cs:39-45 | the loop returns the value of the first key with the prefix, in enumeration order |
| Views.GpuSummary | WinOptimizer/WinOptimizer/Views/MainWindow.xaml.cs:37-47 | the first "GPU..." value, or "GPU information not available" |
| Views.StorageSummary | WinOptimizer/WinOptimizer/Views/MainWindow.xaml.cs:49-58 | the first "Disk..." value, or "Storage information not available" |
| Views.HardwareSummary | WinOptimizer/WinOptimizer/Views/MainWindow.xaml.cs:25-31 | built exactly when "CPU.Name", "RAM.Total" and "RAM.Free" are present, with the keys CPU, GPU, RAM, Storage |
| Views.Summary | WinOptimizer/WinOptimizer/Views/MainWindow.xaml.cs:25-31 | the four summary lines in the order the constructor adds them, each with its value |
| Views.CollectedSummaryFails | WinOptimizer/WinOptimizer/Views/MainWindow.xaml.cs:29 | on every inventory the collector builds, the "RAM.Free" lookup fails, so the summary cannot be built |
| Views.ToVisibility | WinOptimizer/WinOptimizer/Views/MainWindow.xaml.cs:64-67 | Visible exactly for true, never Hidden |
| Views.FromVisibility | WinOptimizer/WinOptimizer/Views/MainWindow.xaml.cs:69-72 | true exactly for Visible |
| Views.VisibilityRoundTrip | WinOptimizer/WinOptimizer/Views/MainWindow.xaml.cs:62-73 | every bool round-trips; a visibility round-trips exactly when it is not Hidden |
| Views.Invert | WinOptimizer/WinOptimizer/Views/MainWindow.xaml.cs:77-80 | Convert negates |
| Views.InvertBack | WinOptimizer/WinOptimizer/Views/MainWindow.xaml.cs:82-85 | ConvertBack negates |
| Views.InverseRoundTrip | WinOptimizer/WinOptimizer/Views/MainWindow.xaml.cs:75-86 | Convert and ConvertBack undo each other in both orders |

## Left out

**Side effects and the host**
- The registry, processes and management queries are abstract. Registry values and command
  invocations are recorded as data, and query answers are inputs (`Hardware.Wmi`, `Tweaks.Host`).
- Registry keys are named by the `RegistryKeys.RegKey` datatype. Their literal paths live in
  `RegistryKeys.PathOf`. The model does not prove that the sixteen fixed paths differ from one another.
- Registry key names are compared exactly; Windows compares them case-insensitively.
- Whether restore points are enabled, and how the checkpoint command ends, are inputs. Exception
  messages that go into statuses and result messages are not modelled: a failure result keeps only
  its fixed prefix.
- Optimization.OptimizationService.ScanSystemAndOptimize: the catch-all is modelled only for a
  missing inventory. An exception from an event handler or from `Debug.WriteLine` is not modelled.
- `CheckAdminPrivileges` is a constructor parameter (`isAdministrator`).
- Starting or waiting for a process never throws in this model. So these paths are left out:
  - `SetPowerPlan`'s catch, which raises "Error setting power plan: …"
    (OptimizationService.cs:958-961);
  - the rest of a helper's steps after a failing command, which its catch skips.
- `CreateSystemRestorePoint`'s catch, which raises "Error creating system restore point: …"
  (OptimizationService.cs:806-810), is left out for the same reason: the checkpoint command's
  outcome is an input that cannot be an exception.
- Optimization.OptimizationService.ScanSystemAndOptimize: the completion event and
  `GetOptimizationResults` hand out the live `_optimizationResults` list, which the next run's
  `Clear()` empties. The model records a copy of the list, so this aliasing is not modelled.
- The clock reading of `LogToConsole` is a parameter.

**Simplified or left out**
- The `SetPowerPlan` retry after duplicating the Ultimate Performance scheme is one logged action
  (`RetrySetPowerPlan`). The recursive call terminates only if powercfg cooperates.
- `SetNvidiaPowerManagement` and `SetAmdPowerProfile` only write to the debug output. They are
  recorded as actions.
- `RevertOptimizations` is not part of this model: it is an unconditional list of OS calls and
  touches no run state.
- ProfileService is not part of this model: JSON and file I/O.
- `ScanSystemAndOptimizeAsync`, `Task.Run`, `Dispatcher.Invoke`, the log lock and the check-then-set
  guard are not modelled as concurrent. Calls are sequential.
- `ScrollConsoleToEnd` is left out.
- LegacyWindow.StorageInfo and LegacyWindow.RamInfo: their "Detecting …" console lines and the
  console lines of their catch blocks are left out; the console is modelled only by the `Window`
  class.
- LegacyWindow.Window.constructor: `InitializeComponent`, the data context, the command and the
  background hardware scan are left out; the four status texts are recorded only by their
  notifications.
- The getters `GetCurrentOptimizationStep`, `GetTotalOptimizationSteps` and `GetOptimizationResults`
  are plain field reads of the class.

**Floating point and integer width**
- LegacyWindow.StorageInfo: sizes are exact reals, not doubles, so rounding errors of double
  division and addition are not modelled. `Math.Round` is modelled as round-half-to-even.
- LegacyWindow.RamInfo: the same for the RAM total.
- TweakFacts.PageFileSizeSpec: `ramMB * multiplier` is computed as an exact fraction. The double
  product is not modelled.
- Hardware.SumRam: 64-bit overflow of `totalRamMB` and of the byte counts is not modelled. The
  lemmas that parse the total back (TweakFacts.CollectedRamMB, TweakFacts.CollectedCompression,
  Optimization.CollectedMemoryStep) require it to fit in a `long`.
- `int.Parse` of the fixed percentages is not modelled; the percentages are numbers.

**Text**
- `StartsWith` is culture-sensitive in .NET. It is modelled as ordinal, and so is `Contains`.
- `OrdinalIgnoreCase` comparison is modelled as ASCII upper-casing.
- `char.IsWhiteSpace` is modelled for ASCII and Latin-1 only.

**UI and plumbing**
- MainViewModel.cs, DashboardViewModel.cs, MainForm.cs, App.xaml.cs and Program.cs are not part of
  this model.
- The GHz, GPU and OS queries of the first window (`GetCpuInfo`, `GetGpuInfo`, `GetOsInfo`) and its
  restore-point code (MainWindow.xaml.cs:490-549) are not part of this model.
- `BoolToColorConverter` is not part of this model.
- The window constructor's reflection call that stores the summary is not modelled. A null
  `ConsoleText` is modelled as "".

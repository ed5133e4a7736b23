/**
 * The operating-system side effects of the optimizer, made abstract. The registry
 * is a map from (hive, key path, value name) to a value; every external command
 * (powercfg, sc.exe, PowerShell, schtasks) is an entry appended to an ordered
 * action log; status messages are appended to their own log.
 *
 * A private helper of the optimizer that catches its own exceptions is a
 * `Guarded` block: its steps run until one throws, the effects made so far stay,
 * and the caller carries on. Steps written directly in an applier's own `try` are a
 * `Bare` block: a step that throws there ends the applier with a failure result.
 * The only step that can throw is opening a registry key the host denies.
 */
module Effects {
  import opened Wrappers
  import opened RegistryKeys

  datatype RegName = RegName(key: RegKey, name: string)

  datatype RegValue = DWord(n: int) | Str(s: string)

  /** One `key.SetValue(name, value)`. */
  datatype Assignment = Assignment(name: string, value: RegValue)

  type Registry = map<RegName, RegValue>

  /** External commands, in the order they are started. */
  datatype Action =
    | PowerCfgList
    | PowerCfgSetActive(guid: string)
    | PowerCfgDuplicateUltimate
    | RetrySetPowerPlan(plan: string)
    | ScConfig(service: string, startType: string)
    | DisableMemoryCompression
    | EnableTrim
    | DisableScheduledDefrag
    | ListUpAdapters
    | DisableLso(adapter: string)
    | DisableChecksumOffload(adapter: string)
    | LimitRss(adapter: string)
    | DisableInterruptModeration(adapter: string)
    | ClearDnsCache
    | SetDnscacheAutomatic
    | StartDnscache
    | NvidiaPowerManagement(mode: string)
    | AmdPowerProfile(profile: string)
    | QueryRestorePoint
    | CreateRestorePoint(description: string)

  datatype World = World(registry: Registry, actions: seq<Action>, statuses: seq<string>)

  datatype Step =
      /** Open (create) `key` and assign the values in order. */
    | Write(key: RegKey, values: seq<Assignment>)
      /** Open `key` for writing; assign the values only when it already holds `probe`. */
    | WriteIfPresent(key: RegKey, probe: string, values: seq<Assignment>)
    | Exec(action: Action)
    | Notify(status: string)

  datatype Block = Guarded(steps: seq<Step>) | Bare(steps: seq<Step>)

  datatype Outcome = Outcome(world: World, ok: bool)

  function Lookup(r: Registry, n: RegName): Option<RegValue> {
    if n in r then Some(r[n]) else None
  }

  /** The assignments to `key`, one after the other: a later one overwrites an earlier one. */
  function SetAll(r: Registry, key: RegKey, vs: seq<Assignment>): Registry {
    if vs == [] then r
    else
      var last := vs[|vs| - 1];
      SetAll(r, key, vs[..|vs| - 1])[RegName(key, last.name) := last.value]
  }

  /** The value of the last assignment to `name` in `vs`, if any. */
  function LastValue(vs: seq<Assignment>, name: string): Option<RegValue> {
    if vs == [] then None
    else if vs[|vs| - 1].name == name then Some(vs[|vs| - 1].value)
    else LastValue(vs[..|vs| - 1], name)
  }

  /** Last write wins, and a key's assignments touch no other key. */
  lemma {:induction false} SetAllLookup(r: Registry, key: RegKey, vs: seq<Assignment>, n: RegName)
    ensures Lookup(SetAll(r, key, vs), n) ==
      if n.key == key && LastValue(vs, n.name).Some? then LastValue(vs, n.name) else Lookup(r, n)
  {
    if vs != [] {
      SetAllLookup(r, key, vs[..|vs| - 1], n);
    }
  }

  /** The registry key a step opens, if it opens one. */
  function StepKey(s: Step): Option<RegKey> {
    match s
    case Write(key, _) => Some(key)
    case WriteIfPresent(key, _, _) => Some(key)
    case _ => None
  }

  function RunStep(w: World, denied: set<RegKey>, s: Step): (o: Outcome)
    ensures !o.ok <==> StepKey(s).Some? && StepKey(s).value in denied
  {
    match s
    case Write(key, vs) =>
      if key in denied then Outcome(w, false)
      else Outcome(w.(registry := SetAll(w.registry, key, vs)), true)
    case WriteIfPresent(key, probe, vs) =>
      if key in denied then Outcome(w, false)
      else if RegName(key, probe) in w.registry then Outcome(w.(registry := SetAll(w.registry, key, vs)), true)
      else Outcome(w, true)
    case Exec(a) => Outcome(w.(actions := w.actions + [a]), true)
    case Notify(m) => Outcome(w.(statuses := w.statuses + [m]), true)
  }

  /** Steps run in order until one throws. */
  function RunSteps(w: World, denied: set<RegKey>, steps: seq<Step>): Outcome {
    if steps == [] then Outcome(w, true)
    else
      var o := RunSteps(w, denied, steps[..|steps| - 1]);
      if !o.ok then o else RunStep(o.world, denied, steps[|steps| - 1])
  }

  function RunBlock(w: World, denied: set<RegKey>, b: Block): Outcome {
    var o := RunSteps(w, denied, b.steps);
    if b.Guarded? then Outcome(o.world, true) else o
  }

  /** Blocks run in order; a guarded block never stops the run, a bare one that throws does. */
  function RunBlocks(w: World, denied: set<RegKey>, bs: seq<Block>): Outcome {
    if bs == [] then Outcome(w, true)
    else
      var o := RunBlocks(w, denied, bs[..|bs| - 1]);
      if !o.ok then o else RunBlock(o.world, denied, bs[|bs| - 1])
  }

  predicate Opens(s: Step, denied: set<RegKey>) {
    StepKey(s).Some? && StepKey(s).value in denied
  }

  /** A list of steps completes exactly when none of them opens a denied key. */
  lemma {:induction false} RunStepsOk(w: World, denied: set<RegKey>, steps: seq<Step>)
    ensures RunSteps(w, denied, steps).ok <==> forall i :: 0 <= i < |steps| ==> !Opens(steps[i], denied)
  {
    if steps != [] {
      var n := |steps| - 1;
      RunStepsOk(w, denied, steps[..n]);
      assert forall i :: 0 <= i < n ==> steps[..n][i] == steps[i];
    }
  }

  predicate AllGuarded(bs: seq<Block>) {
    forall i :: 0 <= i < |bs| ==> bs[i].Guarded?
  }

  /** Helpers that catch their own exceptions never make their caller fail. */
  lemma {:induction false} GuardedNeverFails(w: World, denied: set<RegKey>, bs: seq<Block>)
    requires AllGuarded(bs)
    ensures RunBlocks(w, denied, bs).ok
  {
    if bs != [] {
      var n := |bs| - 1;
      assert AllGuarded(bs[..n]) by {
        forall i | 0 <= i < n ensures bs[..n][i].Guarded? {
          assert bs[..n][i] == bs[i];
        }
      }
      GuardedNeverFails(w, denied, bs[..n]);
    }
  }

  /** The step assigns the value `n`. */
  predicate Assigns(s: Step, n: RegName) {
    match s
    case Write(key, vs) => key == n.key && LastValue(vs, n.name).Some?
    case WriteIfPresent(key, _, vs) => key == n.key && LastValue(vs, n.name).Some?
    case _ => false
  }

  predicate StepsAvoid(steps: seq<Step>, n: RegName) {
    forall i :: 0 <= i < |steps| ==> !Assigns(steps[i], n)
  }

  predicate BlocksAvoid(bs: seq<Block>, n: RegName) {
    forall i :: 0 <= i < |bs| ==> StepsAvoid(bs[i].steps, n)
  }

  lemma RunStepLookup(w: World, denied: set<RegKey>, s: Step, n: RegName)
    requires !Assigns(s, n)
    ensures Lookup(RunStep(w, denied, s).world.registry, n) == Lookup(w.registry, n)
  {
    match s
    case Write(key, vs) => SetAllLookup(w.registry, key, vs, n);
    case WriteIfPresent(key, _, vs) => SetAllLookup(w.registry, key, vs, n);
    case Exec(_) =>
    case Notify(_) =>
  }

  /** Steps that never assign a value leave it as it was. */
  lemma {:induction false} RunStepsPreserves(w: World, denied: set<RegKey>, steps: seq<Step>, n: RegName)
    requires StepsAvoid(steps, n)
    ensures Lookup(RunSteps(w, denied, steps).world.registry, n) == Lookup(w.registry, n)
  {
    if steps != [] {
      var k := |steps| - 1;
      assert StepsAvoid(steps[..k], n) by {
        forall i | 0 <= i < k ensures !Assigns(steps[..k][i], n) {
          assert steps[..k][i] == steps[i];
        }
      }
      RunStepsPreserves(w, denied, steps[..k], n);
      var o := RunSteps(w, denied, steps[..k]);
      if o.ok {
        RunStepLookup(o.world, denied, steps[k], n);
      }
    }
  }

  lemma {:induction false} RunBlocksPreserves(w: World, denied: set<RegKey>, bs: seq<Block>, n: RegName)
    requires BlocksAvoid(bs, n)
    ensures Lookup(RunBlocks(w, denied, bs).world.registry, n) == Lookup(w.registry, n)
  {
    if bs != [] {
      var k := |bs| - 1;
      assert BlocksAvoid(bs[..k], n) by {
        forall i | 0 <= i < k ensures StepsAvoid(bs[..k][i].steps, n) {
          assert bs[..k][i] == bs[i];
        }
      }
      RunBlocksPreserves(w, denied, bs[..k], n);
      var o := RunBlocks(w, denied, bs[..k]);
      if o.ok {
        RunStepsPreserves(o.world, denied, bs[k].steps, n);
      }
    }
  }

  /** Running two lists of steps one after the other is running their concatenation. */
  lemma {:induction false} RunStepsAppend(w: World, denied: set<RegKey>, s1: seq<Step>, s2: seq<Step>)
    ensures RunSteps(w, denied, s1 + s2) ==
      var o := RunSteps(w, denied, s1);
      if !o.ok then o else RunSteps(o.world, denied, s2)
  {
    if s2 != [] {
      var k := |s2| - 1;
      assert (s1 + s2)[..|s1 + s2| - 1] == s1 + s2[..k];
      RunStepsAppend(w, denied, s1, s2[..k]);
    } else {
      assert s1 + s2 == s1;
    }
  }

  /** Running two lists of blocks one after the other is running their concatenation. */
  lemma {:induction false} RunBlocksAppend(w: World, denied: set<RegKey>, b1: seq<Block>, b2: seq<Block>)
    ensures RunBlocks(w, denied, b1 + b2) ==
      var o := RunBlocks(w, denied, b1);
      if !o.ok then o else RunBlocks(o.world, denied, b2)
  {
    if b2 != [] {
      var k := |b2| - 1;
      assert (b1 + b2)[..|b1 + b2| - 1] == b1 + b2[..k];
      RunBlocksAppend(w, denied, b1, b2[..k]);
    } else {
      assert b1 + b2 == b1;
    }
  }

  /** The action and status logs only ever grow at the end. */
  lemma {:induction false} RunStepsAppends(w: World, denied: set<RegKey>, steps: seq<Step>)
    ensures w.actions <= RunSteps(w, denied, steps).world.actions
    ensures w.statuses <= RunSteps(w, denied, steps).world.statuses
  {
    if steps != [] {
      RunStepsAppends(w, denied, steps[..|steps| - 1]);
    }
  }

  lemma {:induction false} RunBlocksAppends(w: World, denied: set<RegKey>, bs: seq<Block>)
    ensures w.actions <= RunBlocks(w, denied, bs).world.actions
    ensures w.statuses <= RunBlocks(w, denied, bs).world.statuses
  {
    if bs != [] {
      var k := |bs| - 1;
      RunBlocksAppends(w, denied, bs[..k]);
      var o := RunBlocks(w, denied, bs[..k]);
      if o.ok {
        RunStepsAppends(o.world, denied, bs[k].steps);
      }
    }
  }
  lemma RunStepsOne(w: World, denied: set<RegKey>, s: Step)
    ensures RunSteps(w, denied, [s]) == RunStep(w, denied, s)
  {
    assert [s][..0] == [];
  }

  lemma RunStepsTwo(w: World, denied: set<RegKey>, a: Step, b: Step)
    ensures RunSteps(w, denied, [a, b]) ==
      var o := RunStep(w, denied, a);
      if !o.ok then o else RunStep(o.world, denied, b)
  {
    RunStepsAppend(w, denied, [a], [b]);
    assert [a] + [b] == [a, b];
    RunStepsOne(w, denied, a);
    var o := RunStep(w, denied, a);
    if o.ok { RunStepsOne(o.world, denied, b); }
  }

  lemma RunBlocksOne(w: World, denied: set<RegKey>, b: Block)
    ensures RunBlocks(w, denied, [b]) == RunBlock(w, denied, b)
  {
    assert [b][..0] == [];
  }

  /** The value of the last assignment to a name is the one at the last index that names it. */
  lemma {:induction false} LastValueAt(vs: seq<Assignment>, name: string, i: nat)
    requires i < |vs| && vs[i].name == name
    requires forall j :: i < j < |vs| ==> vs[j].name != name
    ensures LastValue(vs, name) == Some(vs[i].value)
  {
    if i < |vs| - 1 {
      LastValueAt(vs[..|vs| - 1], name, i);
    }
  }

  lemma {:induction false} LastValueAbsent(vs: seq<Assignment>, name: string)
    requires forall j :: 0 <= j < |vs| ==> vs[j].name != name
    ensures LastValue(vs, name).None?
  {
    if vs != [] {
      LastValueAbsent(vs[..|vs| - 1], name);
    }
  }

  /** A value set by a list's first write stays when no later step assigns it. */
  lemma FirstWriteSticks(w: World, denied: set<RegKey>, key: RegKey, vs: seq<Assignment>, rest: seq<Step>, n: RegName)
    requires key !in denied && n.key == key && LastValue(vs, n.name).Some?
    requires StepsAvoid(rest, n)
    ensures Lookup(RunSteps(w, denied, [Write(key, vs)] + rest).world.registry, n) == LastValue(vs, n.name)
  {
    RunStepsAppend(w, denied, [Write(key, vs)], rest);
    assert [Write(key, vs)][..0] == [];
    var o := RunSteps(w, denied, [Write(key, vs)]);
    SetAllLookup(w.registry, key, vs, n);
    RunStepsPreserves(o.world, denied, rest, n);
  }

  predicate OnlyWrites(steps: seq<Step>) {
    forall i :: 0 <= i < |steps| ==> steps[i].Write? || steps[i].WriteIfPresent?
  }

  /** Registry writes start no command and raise no status message. */
  lemma {:induction false} RunStepsOnlyWrites(w: World, denied: set<RegKey>, steps: seq<Step>)
    requires OnlyWrites(steps)
    ensures RunSteps(w, denied, steps).world.actions == w.actions
    ensures RunSteps(w, denied, steps).world.statuses == w.statuses
  {
    if steps != [] {
      var k := |steps| - 1;
      assert OnlyWrites(steps[..k]) by {
        forall i | 0 <= i < k ensures steps[..k][i].Write? || steps[..k][i].WriteIfPresent? {
          assert steps[..k][i] == steps[i];
        }
      }
      RunStepsOnlyWrites(w, denied, steps[..k]);
    }
  }

  // ---------------------------------------------------------------- in place

  /**
   * The host while the optimizer runs: the registry it writes and the logs of
   * started commands and status events, updated in place. `denied` holds the keys
   * whose opening throws.
   */
  class Machine {
    const denied: set<RegKey>
    var registry: Registry
    var actions: seq<Action>
    var statuses: seq<string>

    function State(): World
      reads this
    {
      World(registry, actions, statuses)
    }

    constructor (denied: set<RegKey>, registry: Registry)
      ensures this.denied == denied && State() == World(registry, [], [])
    {
      this.denied := denied;
      this.registry := registry;
      actions := [];
      statuses := [];
    }

    /** Raises a status event. */
    method Status(m: string)
      modifies this
      ensures State() == old(State()).(statuses := old(statuses) + [m])
    {
      statuses := statuses + [m];
    }

    /** Starts an external command. */
    method Start(a: Action)
      modifies this
      ensures State() == old(State()).(actions := old(actions) + [a])
    {
      actions := actions + [a];
    }

    /** `key.SetValue(name, value)` for each assignment in turn. */
    method SetValues(key: RegKey, vs: seq<Assignment>)
      modifies this
      ensures State() == old(State()).(registry := SetAll(old(registry), key, vs))
    {
      for i := 0 to |vs|
        invariant State() == old(State()).(registry := SetAll(old(registry), key, vs[..i]))
      {
        assert vs[..i + 1][..i] == vs[..i];
        registry := registry[RegName(key, vs[i].name) := vs[i].value];
      }
      assert vs[..|vs|] == vs;
    }

    method Perform(s: Step) returns (ok: bool)
      modifies this
      ensures Outcome(State(), ok) == RunStep(old(State()), denied, s)
    {
      match s
      case Write(key, vs) =>
        ok := key !in denied;
        if ok {
          SetValues(key, vs);
        }
      case WriteIfPresent(key, probe, vs) =>
        ok := key !in denied;
        if ok && RegName(key, probe) in registry {
          SetValues(key, vs);
        }
      case Exec(a) =>
        Start(a);
        ok := true;
      case Notify(m) =>
        Status(m);
        ok := true;
    }

    /** The steps in order, stopping at the first that throws. */
    method PerformSteps(steps: seq<Step>) returns (ok: bool)
      modifies this
      ensures Outcome(State(), ok) == RunSteps(old(State()), denied, steps)
    {
      ok := true;
      var i := 0;
      while i < |steps| && ok
        invariant 0 <= i <= |steps|
        invariant Outcome(State(), ok) == RunSteps(old(State()), denied, steps[..i])
      {
        assert steps[..i + 1][..i] == steps[..i];
        ok := Perform(steps[i]);
        i := i + 1;
      }
      RunStepsAppend(old(State()), denied, steps[..i], steps[i..]);
      assert steps[..i] + steps[i..] == steps;
    }

    /** The blocks in order; a guarded block swallows its failure, a bare one ends the run. */
    method PerformBlocks(bs: seq<Block>) returns (ok: bool)
      modifies this
      ensures Outcome(State(), ok) == RunBlocks(old(State()), denied, bs)
    {
      ok := true;
      var i := 0;
      while i < |bs| && ok
        invariant 0 <= i <= |bs|
        invariant Outcome(State(), ok) == RunBlocks(old(State()), denied, bs[..i])
      {
        assert bs[..i + 1][..i] == bs[..i];
        var stepsOk := PerformSteps(bs[i].steps);
        ok := bs[i].Guarded? || stepsOk;
        i := i + 1;
      }
      RunBlocksAppend(old(State()), denied, bs[..i], bs[i..]);
      assert bs[..i] + bs[i..] == bs;
    }
  }
}

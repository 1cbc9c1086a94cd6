/**
 * `V8Engine`: the entry point that passes flags to V8 and wires up a new
 * runtime (its monitor, its four caches and its native context).
 */
module Engine {
  import opened Wrappers
  import opened JavaTypes
  import opened JSTypes
  import Boundary
  import opened HandleCache
  import opened References
  import opened Monitor
  import opened V8Bridge
  import opened Accessors
  import opened Runtimes

  /** The pause, in milliseconds, of the monitor every new runtime gets. */
  const RUNTIME_MILLIS_PAUSE: Long := 50

  /** The flag line: each flag followed by one space, in input order. */
  function FlagLine(flags: seq<string>): string
    decreases |flags|
  {
    if |flags| == 0 then "" else FlagLine(flags[..|flags| - 1]) + flags[|flags| - 1] + " "
  }

  /** The total length of the flags. */
  function TotalLength(flags: seq<string>): nat
    decreases |flags|
  {
    if |flags| == 0 then 0 else TotalLength(flags[..|flags| - 1]) + |flags[|flags| - 1]|
  }

  /** The `StringBuilder` loop of `setFlags`: appends each flag and a space. */
  method JoinFlags(flags: array<string>) returns (line: string)
    ensures line == FlagLine(flags[..])
  {
    line := "";
    for i := 0 to flags.Length
      invariant line == FlagLine(flags[..i])
    {
      assert flags[..i + 1][..i] == flags[..i];
      line := line + flags[i] + " ";
    }
    assert flags[..flags.Length] == flags[..];
  }

  /** `setFlags(flags)`: one `V8.setFlags` call with the joined line. */
  method SetFlags(natives: Boundary.Natives, flags: array<string>)
    modifies natives
    ensures natives.calls == old(natives.calls) + [Boundary.SetFlags(FlagLine(flags[..]))]
  {
    var line := JoinFlags(flags);
    natives.Invoke(Boundary.SetFlags(line));
  }

  /** No flags give the empty line. */
  lemma FlagLineOfNone()
    ensures FlagLine([]) == ""
  {
  }

  /** The line of two runs of flags is the line of the first followed by the line of the second. */
  lemma {:induction false} FlagLineAppend(a: seq<string>, b: seq<string>)
    ensures FlagLine(a + b) == FlagLine(a) + FlagLine(b)
    decreases |b|
  {
    if |b| == 0 {
      assert a + b == a;
    } else {
      var b' := b[..|b| - 1];
      assert (a + b)[..|a + b| - 1] == a + b';
      assert (a + b)[|a + b| - 1] == b[|b| - 1];
      FlagLineAppend(a, b');
    }
  }

  /** The line is as long as the flags together plus one space per flag. */
  lemma {:induction false} FlagLineLength(flags: seq<string>)
    ensures |FlagLine(flags)| == TotalLength(flags) + |flags|
    decreases |flags|
  {
    if |flags| > 0 {
      FlagLineLength(flags[..|flags| - 1]);
    }
  }

  /** A non-empty line ends with a space. */
  lemma FlagLineEndsWithSpace(flags: seq<string>)
    requires |flags| > 0
    ensures |FlagLine(flags)| > 0 && FlagLine(flags)[|FlagLine(flags)| - 1] == ' '
  {
  }

  /** Each flag appears whole, in its place, followed by its space. */
  lemma FlagLineOfOne(flag: string)
    ensures FlagLine([flag]) == flag + " "
  {
    assert [flag][..0] == [];
  }

  /**
   * `newRuntime()`: the V8 instance (a failure to initialise it propagates),
   * then a fresh non-started monitor pausing 50 ms, four fresh empty caches,
   * one `createRuntime` call carrying them, and a `Runtime` over the handle
   * it returns, which starts the monitor. The monitor is a daemon in the
   * current generation, and in the legacy one when the calling thread is.
   */
  method NewRuntime(v8Static: V8Static, locate: string -> string, ids: IdCounter, dateFormat: DateFormat,
                    creatorIsDaemon: bool)
    returns (r: Result<Runtime, Exception>)
    requires v8Static.Valid()
    modifies v8Static, v8Static.natives
    ensures v8Static.Valid()
    ensures r.Ok? ==>
              fresh(r.value) && fresh(r.value.referenceMonitor) && fresh(r.value.accessorsFactory) &&
              r.value.generation == v8Static.generation && r.value.v8 == v8Static.instance &&
              r.value.v8.natives == v8Static.natives && !r.value.closed && r.value.Valid()
    ensures r.Ok? ==>
              var monitor := r.value.referenceMonitor;
              monitor.ids == ids && monitor.millisPause == RUNTIME_MILLIS_PAUSE &&
              monitor.daemon == (v8Static.generation == Generation.Current || creatorIsDaemon) &&
              monitor.phase == Running && !monitor.interrupted &&
              monitor.references == map[] && monitor.performed == []
    ensures r.Ok? ==>
              |v8Static.natives.calls| > 0 &&
              var c := v8Static.natives.calls[|v8Static.natives.calls| - 1];
              c.CreateRuntime? && c.referenceMonitor == r.value.referenceMonitor &&
              fresh(c.functionsCache) && fresh(c.typeGetterCache) &&
              fresh(c.equalityCheckerCache) && fresh(c.externalCache) &&
              c.functionsCache.entries == map[] && c.typeGetterCache.entries == map[] &&
              c.equalityCheckerCache.entries == map[] && c.externalCache.entries == map[] &&
              r.value.runtimeHandle == v8Static.natives.oracle.longs(v8Static.natives.calls[..|v8Static.natives.calls| - 1], c)
    ensures r.Ok? <==>
              old(v8Static.instance) != null || v8Static.generation == Generation.Legacy ||
              v8Static.natives.oracle.flags(old(v8Static.natives.calls), Boundary.InitializeV8(locate(ICU_DATA_FILE)))
    ensures var init := if old(v8Static.instance) == null && v8Static.generation == Generation.Current
                        then [Boundary.InitializeV8(locate(ICU_DATA_FILE))] else [];
            if r.Ok? then
              |v8Static.natives.calls| == |old(v8Static.natives.calls)| + |init| + 1 &&
              v8Static.natives.calls[..|v8Static.natives.calls| - 1] == old(v8Static.natives.calls) + init
            else
              v8Static.natives.calls == old(v8Static.natives.calls) + init
    ensures r.Err? ==> r == Err(RuntimeException("Cannot initialize V8 with " + locate(ICU_DATA_FILE)))
  {
    var instance := v8Static.GetInstance(locate);
    if instance.Err? {
      return Err(instance.error);
    }
    var v8 := instance.value;
    var monitor := new ReferenceMonitor<Reference, ReleaseAction>(v8Static.generation, RUNTIME_MILLIS_PAUSE, ids, creatorIsDaemon);
    var functions := new Cache<object>();
    var typeGetters := new Cache<object>();
    var checkers := new Cache<object>();
    var externals := new Cache<object>();
    var creation := Boundary.CreateRuntime(monitor, functions, typeGetters, checkers, externals);
    var runtimeHandle := v8.natives.AskLong(creation);
    var runtime := new Runtime(v8Static.generation, v8, runtimeHandle, monitor, dateFormat);
    r := Ok(runtime);
  }
}

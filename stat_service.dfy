/**
 * `ProfilerStatService`: the process monitor. Each sample of the process's
 * CPU and memory use updates two running statistics sharing one sample
 * count (`hops`), becomes the current statistic, is attached to every
 * active request, and decides the delay before the next sample: none once
 * monitoring is stopped, the idle delay once no request is active, the
 * current delay otherwise.
 *
 * The sampled values, the profiler's answers (`isEnabled`,
 * `getProfilerConfig`) and the random draw of the collection trigger are
 * parameters; scheduling, persistence and garbage collection are not part
 * of this model. CPU use is measured in hundredths of a percent.
 */
module ProfilerStatService {
  import opened Wrappers
  import opened Dict
  import Js
  import Tally
  import opened ProfilerRequestService

  /** `DELAY_REQUEST`, `DELAY_IDLE` and `DELAY_STOP`, in milliseconds. */
  const DelayRequestDefault: int := 50
  const DelayIdleDefault: int := 1000
  const DelayStop: int := -1

  /** The number of iterations after which the iteration counter restarts. */
  const IterationLimit: nat := 200

  /** `Math.round` of a percentage given in hundredths: the nearest whole percent, halves rounded up. */
  function Round(centi: int): (r: int)
    ensures 100 * r - 50 <= centi < 100 * r + 50
  {
    (centi + 50) / 100
  }

  /** Every sample rounded to a whole percent, in order. */
  function RoundedAll(centis: seq<int>): (r: seq<int>)
    ensures |r| == |centis| && forall i | 0 <= i < |centis| :: r[i] == Round(centis[i])
    decreases |centis|
  {
    if centis == [] then [] else RoundedAll(centis[..|centis| - 1]) + [Round(centis[|centis| - 1])]
  }

  /** `config.monitoring` read from an object. */
  function Monitoring(config: Js.Value): Js.Value
    requires Js.IsObject(config)
  {
    Js.Prop(config, "monitoring").value
  }

  /**
   * Whether the configuration turns monitoring on: it is an object whose
   * `monitoring` is either absent or an object with a truthy `enabled`.
   */
  predicate MonitoringConfigured(config: Js.Value) {
    && Js.IsObject(config)
    && (Monitoring(config).Undefined?
        || (Js.IsObject(Monitoring(config)) && Js.Truthy(Js.Prop(Monitoring(config), "enabled").value)))
  }

  /** `config.monitoring.<key>`: a TypeError when the configuration has no `monitoring` section. */
  function MonitoringValue(config: Js.Value, key: string): (r: Result<Js.Value, Js.JsError>)
    ensures Js.IsObject(config) && Monitoring(config).Undefined? ==> r == Failure(Js.TypeError)
    ensures Js.IsObject(config) && Js.IsObject(Monitoring(config)) ==> r.Success?
  {
    match Js.Prop(config, "monitoring")
    case Failure(e) => Failure(e)
    case Success(m) => Js.Prop(m, key)
  }

  /** The two configurable delays. */
  datatype DelayKind = Idle | Busy {
    function Key(): string {
      match this
      case Idle => "delay_idle"
      case Busy => "delay_request"
    }
    function Default(): int {
      match this
      case Idle => DelayIdleDefault
      case Busy => DelayRequestDefault
    }
  }

  /** `configured || default`. */
  function OrDefault(v: Js.Value, default: int): (r: Js.Value)
    requires default != 0
    ensures Js.Truthy(r)
    ensures Js.Truthy(v) ==> r == v
  {
    if Js.Truthy(v) then v else Js.Num(default)
  }

  /** The delay a getter settles on when monitoring is on: the configured one if truthy, else the default. */
  function ConfiguredDelay(config: Js.Value, kind: DelayKind): (r: Result<Js.Value, Js.JsError>)
    ensures r.Success? ==> Js.Truthy(r.value)
  {
    match MonitoringValue(config, kind.Key())
    case Failure(e) => Failure(e)
    case Success(v) => Success(OrDefault(v, kind.Default()))
  }

  /**
   * The delay before the next sample: none when monitoring was stopped;
   * the idle delay when no request is active; the current delay otherwise.
   */
  function NextDelay(current: Js.Value, idle: Js.Value, activeCount: int): (r: Option<Js.Value>)
    ensures r.None? <==> current == Js.Num(DelayStop)
    ensures r.Some? && activeCount == 0 ==> r.value == idle
    ensures r.Some? && activeCount != 0 ==> r.value == current
  {
    if current == Js.Num(DelayStop) then None
    else if current != idle && activeCount == 0 then Some(idle)
    else Some(current)
  }

  /**
   * What the `DELAY_IDLE` / `DELAY_REQUEST` getter answers, from its cached
   * value and the cached monitoring answer `wasOn`: a truthy cached value;
   * otherwise, with monitoring on, the configured delay (a TypeError without
   * a `monitoring` section); otherwise the default.
   */
  function GetterDelay(cached: Js.Value, kind: DelayKind, wasOn: bool, enabled: bool, config: Js.Value): (r: Result<Js.Value, Js.JsError>)
    ensures r.Success? ==> Js.Truthy(r.value)
    ensures Js.Truthy(cached) ==> r == Success(cached)
    ensures !Js.Truthy(cached) && !enabled ==> r == Success(Js.Num(kind.Default()))
    ensures r.Failure? <==>
      !Js.Truthy(cached) && enabled && (wasOn || MonitoringConfigured(config)) && MonitoringValue(config, kind.Key()).Failure?
  {
    if Js.Truthy(cached) then Success(cached)
    else if enabled && (wasOn || MonitoringConfigured(config)) then ConfiguredDelay(config, kind)
    else Success(Js.Num(kind.Default()))
  }

  /** The cached monitoring answer after a getter ran: only an uncached getter asks `isMonitoringEnabled`. */
  function LatchAfter(cached: Js.Value, wasOn: bool, enabled: bool, config: Js.Value): bool {
    if Js.Truthy(cached) || !enabled || wasOn then wasOn else MonitoringConfigured(config)
  }

  /**
   * The outcome of the end of the sampling callback: no next sample once
   * the delay is `DELAY_STOP`; otherwise the `DELAY_IDLE` getter's failure,
   * or `NextDelay` with the getter's answer.
   */
  function ScheduledDelay(current: Js.Value, cachedIdle: Js.Value, wasOn: bool, enabled: bool, config: Js.Value, activeCount: int)
    : (r: Result<Option<Js.Value>, Js.JsError>)
    ensures r == Success(None) <==> current == Js.Num(DelayStop)
    ensures r.Failure? <==> current != Js.Num(DelayStop) && GetterDelay(cachedIdle, Idle, wasOn, enabled, config).Failure?
    ensures r.Success? && r.value.Some? && activeCount == 0 ==>
      r.value.value == GetterDelay(cachedIdle, Idle, wasOn, enabled, config).value
    ensures r.Success? && r.value.Some? && activeCount != 0 ==> r.value.value == current
    ensures current != Js.Num(DelayStop) && Js.Truthy(cachedIdle) ==> r == Success(NextDelay(current, cachedIdle, activeCount))
    ensures current != Js.Num(DelayStop) && !Js.Truthy(cachedIdle) && !(enabled && (wasOn || MonitoringConfigured(config))) ==>
      r == Success(NextDelay(current, Js.Num(DelayIdleDefault), activeCount))
  {
    if current == Js.Num(DelayStop) then Success(None)
    else
      match GetterDelay(cachedIdle, Idle, wasOn, enabled, config)
      case Failure(e) => Failure(e)
      case Success(v) => Success(NextDelay(current, v, activeCount))
  }

  /** Each active request's document with `stat` appended to its statistics. */
  function WithStat(active: seq<(string, RequestDoc)>, stat: ProcessStat): (r: seq<(string, RequestDoc)>)
    ensures |r| == |active|
    ensures forall i | 0 <= i < |r| :: r[i].0 == active[i].0 && r[i].1 == active[i].1.(stats := active[i].1.stats + [stat])
  {
    seq(|active|, i requires 0 <= i < |active| => (active[i].0, active[i].1.(stats := active[i].1.stats + [stat])))
  }

  /** Entries with the same keys in the same order leave the same keys present. */
  lemma {:induction false} SameKeys<V>(d: seq<(string, V)>, e: seq<(string, V)>)
    requires |d| == |e| && forall i | 0 <= i < |d| :: d[i].0 == e[i].0
    ensures forall k :: HasKey(d, k) <==> HasKey(e, k)
    ensures Dict.Valid(d) <==> Dict.Valid(e)
  {
    if d != [] {
      SameKeys(d[1..], e[1..]);
    }
  }

  /** The process monitor's state: the two statistics, the counters, the delay and the cached configuration answers. */
  class StatService {
    const requests: RequestService
    /** `_cpu` (in hundredths of a percent, mode over whole percents) and `_memory` (in bytes). */
    const cpu: Tally.Accumulator
    const memory: Tally.Accumulator
    var hops: nat
    /** `_intv_count`: iterations since the counter last restarted. */
    var intvCount: nat
    /** `_delay`: the delay of the running monitor, `null` before the first start. */
    var delay: Js.Value
    var currentStat: Option<ProcessStat>
    var monitoringEnabled: bool
    var delayIdle: Js.Value
    var delayRequest: Js.Value

    /**
     * Both statistics cover exactly the `hops` samples, the CPU mode keys
     * being the rounded samples, with means `total / hops`; the iteration
     * counter stays below its limit.
     */
    ghost predicate Valid()
      reads this, cpu, memory, requests, requests.time
    {
      && cpu != memory && cpu != requests.time && memory != requests.time
      && requests.Valid()
      && StatsValid()
    }

    /** The statistics half of `Valid`. */
    ghost predicate StatsValid()
      reads this, cpu, memory
    {
      CpuValid() && MemoryValid() && intvCount < IterationLimit
    }

    /** The CPU statistics cover the `hops` samples, keyed by their rounded values. */
    ghost predicate CpuValid()
      reads this, cpu
    {
      && cpu.Valid() && |cpu.samples| == hops
      && cpu.keys == RoundedAll(cpu.samples)
      && (hops > 0 ==> cpu.mean == Tally.Fraction(cpu.total, hops))
    }

    /** The memory statistics cover the `hops` samples, keyed by themselves. */
    ghost predicate MemoryValid()
      reads this, memory
    {
      && memory.Valid() && |memory.samples| == hops
      && memory.keys == memory.samples
      && (hops > 0 ==> memory.mean == Tally.Fraction(memory.total, hops))
    }

    constructor(requests: RequestService)
      requires requests.Valid()
      ensures Valid() && this.requests == requests && fresh(cpu) && fresh(memory)
      ensures hops == 0 && intvCount == 0 && delay == Js.Null && currentStat == None
      ensures !monitoringEnabled && delayIdle == Js.Undefined && delayRequest == Js.Undefined
    {
      this.requests := requests;
      cpu := new Tally.Accumulator();
      memory := new Tally.Accumulator();
      hops := 0;
      intvCount := 0;
      delay := Js.Null;
      currentStat := None;
      monitoringEnabled := false;
      delayIdle := Js.Undefined;
      delayRequest := Js.Undefined;
    }

    /**
     * `isMonitoringEnabled()`: false while the profiler is disabled; true
     * once a true answer has been cached; otherwise whether the
     * configuration turns monitoring on, which is cached.
     */
    method IsMonitoringEnabled(enabled: bool, config: Js.Value) returns (r: bool)
      modifies this
      ensures r == (enabled && (old(monitoringEnabled) || MonitoringConfigured(config)))
      ensures monitoringEnabled == (if enabled && !old(monitoringEnabled) then r else old(monitoringEnabled))
      ensures delay == old(delay) && hops == old(hops) && intvCount == old(intvCount) && currentStat == old(currentStat)
      ensures delayIdle == old(delayIdle) && delayRequest == old(delayRequest)
    {
      if !enabled {
        return false;
      }
      if monitoringEnabled {
        return true;
      }
      var isEnabled := MonitoringConfigured(config);
      monitoringEnabled := isEnabled;
      return isEnabled;
    }

    /** The cached value of `kind`'s getter. */
    function Cached(kind: DelayKind): Js.Value
      reads this
    {
      match kind
      case Idle => delayIdle
      case Busy => delayRequest
    }

    /**
     * The `DELAY_IDLE` / `DELAY_REQUEST` getters: a cached truthy value is
     * returned as it is; otherwise the default or, when monitoring is on,
     * the configured delay (the default if that is falsy) is cached and
     * returned. Reading a configuration without a `monitoring` section
     * throws, and nothing is cached then.
     */
    method Delay(kind: DelayKind, enabled: bool, config: Js.Value) returns (r: Result<Js.Value, Js.JsError>)
      modifies this
      ensures Js.Truthy(old(Cached(kind))) ==>
        r == Success(old(Cached(kind))) && monitoringEnabled == old(monitoringEnabled)
      ensures !Js.Truthy(old(Cached(kind))) ==>
        var on := enabled && (old(monitoringEnabled) || MonitoringConfigured(config));
        && monitoringEnabled == (if enabled && !old(monitoringEnabled) then on else old(monitoringEnabled))
        && r == (if on then ConfiguredDelay(config, kind) else Success(Js.Num(kind.Default())))
      ensures r == GetterDelay(old(Cached(kind)), kind, old(monitoringEnabled), enabled, config)
      ensures monitoringEnabled == LatchAfter(old(Cached(kind)), old(monitoringEnabled), enabled, config)
      ensures r.Success? ==> Js.Truthy(r.value) && Cached(kind) == r.value
      ensures r.Failure? ==> Cached(kind) == old(Cached(kind))
      ensures Cached(if kind == Idle then Busy else Idle) == old(Cached(if kind == Idle then Busy else Idle))
      ensures delay == old(delay) && hops == old(hops) && intvCount == old(intvCount) && currentStat == old(currentStat)
    {
      if Js.Truthy(Cached(kind)) {
        return Success(Cached(kind));
      }
      var d := Js.Num(kind.Default());
      var on := IsMonitoringEnabled(enabled, config);
      if on {
        var v := ConfiguredDelay(config, kind);
        if v.Failure? {
          return v;
        }
        d := v.value;
      }
      if kind == Idle {
        delayIdle := d;
      } else {
        delayRequest := d;
      }
      r := Success(d);
    }

    /**
     * `startMonitoring(delay)` up to the sampling call: nothing happens
     * while monitoring is off (`Success(false)`); otherwise the delay is
     * recorded and a sample is requested (`Success(true)`), unless reading
     * the persistence setting throws.
     */
    method StartMonitoring(d: Js.Value, enabled: bool, config: Js.Value) returns (r: Result<bool, Js.JsError>)
      modifies this
      ensures var on := enabled && (old(monitoringEnabled) || MonitoringConfigured(config));
        && (!on ==> r == Success(false) && delay == old(delay))
        && (on ==> delay == d && (r.Success? <==> MonitoringValue(config, "persist").Success?) && (r.Success? ==> r.value))
      ensures monitoringEnabled == (if enabled && !old(monitoringEnabled) then MonitoringConfigured(config) else old(monitoringEnabled))
      ensures hops == old(hops) && intvCount == old(intvCount) && currentStat == old(currentStat)
      ensures delayIdle == old(delayIdle) && delayRequest == old(delayRequest)
    {
      var on := IsMonitoringEnabled(enabled, config);
      if !on {
        return Success(false);
      }
      delay := d;
      var persist := MonitoringValue(config, "persist");
      if persist.Failure? {
        return Failure(persist.error);
      }
      r := Success(true);
    }

    /** `stopMonitoring()`: the delay becomes `DELAY_STOP`, so no further sample is scheduled. */
    method StopMonitoring()
      modifies this
      ensures IsMonitorDelay(Js.Num(DelayStop))
      ensures hops == old(hops) && intvCount == old(intvCount) && currentStat == old(currentStat)
      ensures monitoringEnabled == old(monitoringEnabled) && delayIdle == old(delayIdle) && delayRequest == old(delayRequest)
    {
      delay := Js.Num(DelayStop);
    }

    /** `isMonitorDelay(d)`: strict equality with the current delay. */
    predicate IsMonitorDelay(d: Js.Value)
      reads this
    {
      d == delay
    }

    /**
     * The cached idle delay after the callback's end: the getter's answer
     * when it was asked and succeeded, the old cache otherwise.
     */
    predicate IdleAfterSchedule(current: Js.Value, cachedIdle: Js.Value, wasOn: bool, enabled: bool, config: Js.Value)
      reads this
    {
      var g := GetterDelay(cachedIdle, Idle, wasOn, enabled, config);
      delayIdle == if current != Js.Num(DelayStop) && g.Success? then g.value else cachedIdle
    }

    /**
     * The sampling callback: one more sample of `cpuCenti` and `mem` (with
     * the `cpuUsage` that `pidusage` reports beside them, passed on as it is), a new
     * current statistic attached to every active request, the iteration
     * counter restarted at its limit (or, past 10, on the random draw), and
     * the delay of the next sample.
     */
    method OnSample(cpuCenti: int, cpuUsage: Js.Value, mem: int, randomDraw: bool, enabled: bool, config: Js.Value)
      returns (next: Result<Option<Js.Value>, Js.JsError>)
      requires Valid()
      modifies this, cpu, memory, requests
      ensures Valid()
      ensures hops == old(hops) + 1
      ensures cpu.samples == old(cpu.samples) + [cpuCenti] && memory.samples == old(memory.samples) + [mem]
      ensures cpu.total == old(cpu.total) + cpuCenti && cpu.max == Tally.Max(old(cpu.max), cpuCenti)
      ensures memory.total == old(memory.total) + mem && memory.max == Tally.Max(old(memory.max), mem)
      ensures currentStat == Some(Snapshot(requests, cpuCenti, cpuUsage, mem, old(intvCount) + 1, old(delay)))
      ensures currentStat.value.cpu == cpuCenti && currentStat.value.cpuUsage == cpuUsage && currentStat.value.memory == mem
      ensures requests.active == WithStat(old(requests.active), currentStat.value)
      ensures intvCount == if old(intvCount) + 1 >= IterationLimit || (randomDraw && old(intvCount) + 1 > 10) then 0 else old(intvCount) + 1
      ensures delay == old(delay)
      ensures next == ScheduledDelay(old(delay), old(delayIdle), old(monitoringEnabled), enabled, config, old(requests.activeCount))
      ensures IsMonitorDelay(Js.Num(DelayStop)) ==> next == Success(None)
      ensures !IsMonitorDelay(Js.Num(DelayStop)) && next.Success? ==>
        delayIdle != Js.Undefined && next.value == NextDelay(delay, delayIdle, requests.activeCount)
      ensures IdleAfterSchedule(old(delay), old(delayIdle), old(monitoringEnabled), enabled, config)
      ensures monitoringEnabled ==
        if old(delay) == Js.Num(DelayStop) then old(monitoringEnabled)
        else LatchAfter(old(delayIdle), old(monitoringEnabled), enabled, config)
      ensures delayRequest == old(delayRequest)
    {
      Sample(cpuCenti, cpuUsage, mem, randomDraw);
      next := ScheduleNext(enabled, config);
    }

    /**
     * The statistic a sample yields: the request service's counters and
     * request-time statistics, the sample (its `cpuUsage` copied as it is)
     * and the updated CPU and memory statistics, the iteration count and
     * the running delay.
     */
    function Snapshot(rs: RequestService, cpuCenti: int, cpuUsage: Js.Value, mem: int, iterations: nat, speed: Js.Value): ProcessStat
      reads cpu, memory, rs.time, rs`activeCount, rs`maxActiveCount
    {
      ProcessStat(
        rs.activeCount, rs.maxActiveCount,
        rs.time.mean, rs.time.mode, rs.time.max,
        cpuCenti, cpu.mean, cpu.mode, cpu.max, cpuUsage,
        mem, memory.mean, memory.mode, memory.max,
        iterations, speed)
    }

    /** Everything a sample changes before the next delay is chosen. */
    method Sample(cpuCenti: int, cpuUsage: Js.Value, mem: int, randomDraw: bool)
      requires Valid()
      modifies this`hops, this`intvCount, this`currentStat, cpu, memory, requests
      ensures Valid()
      ensures hops == old(hops) + 1
      ensures cpu.samples == old(cpu.samples) + [cpuCenti] && memory.samples == old(memory.samples) + [mem]
      ensures cpu.total == old(cpu.total) + cpuCenti && cpu.max == Tally.Max(old(cpu.max), cpuCenti)
      ensures memory.total == old(memory.total) + mem && memory.max == Tally.Max(old(memory.max), mem)
      ensures currentStat == Some(Snapshot(requests, cpuCenti, cpuUsage, mem, old(intvCount) + 1, old(delay)))
      ensures currentStat.value.cpu == cpuCenti && currentStat.value.cpuUsage == cpuUsage && currentStat.value.memory == mem
      ensures requests.active == WithStat(old(requests.active), currentStat.value)
      ensures requests.activeCount == old(requests.activeCount)
      ensures intvCount == if old(intvCount) + 1 >= IterationLimit || (randomDraw && old(intvCount) + 1 > 10) then 0 else old(intvCount) + 1
    {
      Accumulate(cpuCenti, mem);
      ghost var cs, ct, cm, ms, mt, mm := cpu.samples, cpu.total, cpu.max, memory.samples, memory.total, memory.max;
      var stat := Snapshot(requests, cpuCenti, cpuUsage, mem, intvCount + 1, delay);
      Publish(stat, randomDraw);
      assert cpu.samples == cs && cpu.total == ct && cpu.max == cm;
      assert memory.samples == ms && memory.total == mt && memory.max == mm;
      assert stat == Snapshot(requests, cpuCenti, cpuUsage, mem, old(intvCount) + 1, old(delay));
    }

    /** Makes `stat` the current statistic, attaches it to the active requests and advances the iteration counter. */
    method Publish(stat: ProcessStat, randomDraw: bool)
      requires Valid()
      modifies this`intvCount, this`currentStat, requests
      ensures Valid()
      ensures currentStat == Some(stat)
      ensures requests.active == WithStat(old(requests.active), stat)
      ensures requests.activeCount == old(requests.activeCount) && requests.maxActiveCount == old(requests.maxActiveCount)
      ensures intvCount == if old(intvCount) + 1 >= IterationLimit || (randomDraw && old(intvCount) + 1 > 10) then 0 else old(intvCount) + 1
    {
      intvCount := intvCount + 1;
      currentStat := Some(stat);
      AttachToActive(stat);
      if intvCount >= IterationLimit || (randomDraw && intvCount > 10) {
        intvCount := 0;
      }
    }

    /** The end of the sampling callback: no next sample once stopped, else `NextDelay` with the idle delay. */
    method ScheduleNext(enabled: bool, config: Js.Value) returns (next: Result<Option<Js.Value>, Js.JsError>)
      requires Valid()
      modifies this
      ensures Valid()
      ensures hops == old(hops) && intvCount == old(intvCount) && currentStat == old(currentStat) && delay == old(delay)
      ensures next == ScheduledDelay(old(delay), old(delayIdle), old(monitoringEnabled), enabled, config, requests.activeCount)
      ensures IsMonitorDelay(Js.Num(DelayStop)) ==> next == Success(None)
      ensures !IsMonitorDelay(Js.Num(DelayStop)) && next.Success? ==>
        delayIdle != Js.Undefined && next.value == NextDelay(delay, delayIdle, requests.activeCount)
      ensures IdleAfterSchedule(old(delay), old(delayIdle), old(monitoringEnabled), enabled, config)
      ensures monitoringEnabled ==
        if old(delay) == Js.Num(DelayStop) then old(monitoringEnabled)
        else LatchAfter(old(delayIdle), old(monitoringEnabled), enabled, config)
      ensures delayRequest == old(delayRequest)
    {
      if IsMonitorDelay(Js.Num(DelayStop)) {
        return Success(None);
      }
      var idle := Delay(Idle, enabled, config);
      if idle.Failure? {
        return Failure(idle.error);
      }
      next := Success(NextDelay(delay, idle.value, requests.activeCount));
    }

    /** Records one sample in both statistics, which share the sample count. */
    method Accumulate(cpuCenti: int, mem: int)
      requires Valid()
      modifies this`hops, cpu, memory
      ensures Valid()
      ensures hops == old(hops) + 1
      ensures cpu.samples == old(cpu.samples) + [cpuCenti] && memory.samples == old(memory.samples) + [mem]
      ensures cpu.total == old(cpu.total) + cpuCenti && cpu.max == Tally.Max(old(cpu.max), cpuCenti)
      ensures memory.total == old(memory.total) + mem && memory.max == Tally.Max(old(memory.max), mem)
    {
      ghost var cs := cpu.samples;
      assert (cs + [cpuCenti])[..|cs|] == cs;
      hops := hops + 1;
      cpu.Record(cpuCenti, Round(cpuCenti), hops);
      memory.Record(mem, mem, hops);
      assert requests.Valid();
    }

    /** Appends `stat` to the statistics of every active request's document. */
    method AttachToActive(stat: ProcessStat)
      requires requests.Valid()
      modifies requests
      ensures requests.Valid()
      ensures requests.active == WithStat(old(requests.active), stat)
      ensures requests.activeCount == old(requests.activeCount) && requests.maxActiveCount == old(requests.maxActiveCount)
      ensures requests.totalRequestCount == old(requests.totalRequestCount)
    {
      var entries := requests.active;
      var updated: seq<(string, RequestDoc)> := [];
      var i := 0;
      while i < |entries|
        invariant 0 <= i <= |entries|
        invariant updated == WithStat(entries[..i], stat)
      {
        var entry := entries[i];
        assert entries[..i + 1] == entries[..i] + [entry];
        updated := updated + [(entry.0, entry.1.(stats := entry.1.stats + [stat]))];
        i := i + 1;
      }
      assert entries[..|entries|] == entries;
      SameKeys(entries, updated);
      assert forall j | 0 <= j < |updated| :: updated[j].1.profilerId == updated[j].0;
      requests.active := updated;
    }
  }
}

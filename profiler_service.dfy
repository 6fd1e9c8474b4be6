/**
 * `ProfilerService`: the profiler's switch and its cached lookups. The
 * application configuration, the profiler section of it, the storage
 * manager and the "enabled" answer are each looked up on first use and
 * kept; "enabled", once true, stays true.
 *
 * The service container is given by what it returns: the configuration
 * service (whose `get(key)` is a lookup in a plain object) and the
 * identity of the manager a new storage session would hand out.
 */
module ProfilerService {
  import opened Wrappers
  import Js
  import Dict

  /** A storage manager, by identity. */
  type ManagerId = nat

  /** `configService.get('profiler')`: a lookup in the configuration object; any other value has no `get` to call. */
  function ProfilerSection(configService: Js.Value): (r: Result<Js.Value, Js.JsError>)
    ensures r.Failure? <==> !configService.Obj?
    ensures configService.Obj? && !Dict.HasKey(configService.fields, "profiler") ==> r == Success(Js.Undefined)
  {
    if configService.Obj? then Js.Prop(configService, "profiler") else Failure(Js.TypeError)
  }

  /**
   * `config instanceof Object && (config.enabled === undefined || config.enabled)`:
   * the value the expression yields, which is truthy exactly when the
   * configuration is an object that does not switch the profiler off.
   */
  function EnabledValue(config: Js.Value): (r: Js.Value)
    ensures Js.Truthy(r) <==>
      Js.IsObject(config) && (Js.Prop(config, "enabled").value.Undefined? || Js.Truthy(Js.Prop(config, "enabled").value))
    ensures !Js.IsObject(config) ==> r == Js.Bool(false)
    ensures Js.IsObject(config) && Js.Prop(config, "enabled").value.Undefined? ==> r == Js.Bool(true)
  {
    if !Js.IsObject(config) then Js.Bool(false)
    else
      var e := Js.Prop(config, "enabled").value;
      if e.Undefined? then Js.Bool(true) else e
  }

  /** `bass.manager` is configured: the profiler section has a truthy `bass` with a truthy `manager`. */
  function ManagerConfigured(profilerConfig: Js.Value): (r: Result<bool, Js.JsError>)
    ensures r.Failure? <==> profilerConfig.Undefined? || profilerConfig.Null?
    ensures r == Success(true) ==> Js.IsObject(profilerConfig) || profilerConfig.Str?
  {
    match Js.Prop(profilerConfig, "bass")
    case Failure(e) => Failure(e)
    case Success(bass) => Success(Js.Truthy(bass) && Js.Truthy(Js.Prop(bass, "manager").value))
  }

  /** `getConfig()` from the cached `_config`: a truthy cached value is kept, otherwise the container's. */
  function ConfigRead(cachedConfig: Js.Value, containerConfig: Js.Value): (r: Js.Value)
    ensures Js.Truthy(cachedConfig) ==> r == cachedConfig
    ensures !Js.Truthy(cachedConfig) ==> r == containerConfig
  {
    if Js.Truthy(cachedConfig) then cachedConfig else containerConfig
  }

  /** `getProfilerConfig()` from the caches: a truthy cached section, or the section read from `getConfig()`. */
  function ProfilerConfigRead(cachedSection: Js.Value, cachedConfig: Js.Value, containerConfig: Js.Value): (r: Result<Js.Value, Js.JsError>)
    ensures Js.Truthy(cachedSection) ==> r == Success(cachedSection)
    ensures r.Failure? <==> !Js.Truthy(cachedSection) && !ConfigRead(cachedConfig, containerConfig).Obj?
  {
    if Js.Truthy(cachedSection) then Success(cachedSection) else ProfilerSection(ConfigRead(cachedConfig, containerConfig))
  }

  /**
   * The answer of `isEnabled()` from the caches: `true` once a truthy answer
   * is cached; otherwise the enabled expression over the profiler section,
   * or the TypeError of reading it without a configuration service.
   */
  function EnabledAnswer(cachedEnabled: Js.Value, cachedSection: Js.Value, cachedConfig: Js.Value, containerConfig: Js.Value)
    : (r: Result<Js.Value, Js.JsError>)
    ensures Js.Truthy(cachedEnabled) ==> r == Success(Js.Bool(true))
    ensures r.Failure? <==> !Js.Truthy(cachedEnabled) && ProfilerConfigRead(cachedSection, cachedConfig, containerConfig).Failure?
    ensures !Js.Truthy(cachedEnabled) && r.Success? ==>
      var section := ProfilerConfigRead(cachedSection, cachedConfig, containerConfig).value;
      (Js.Truthy(r.value) <==>
        Js.IsObject(section) && (Js.Prop(section, "enabled").value.Undefined? || Js.Truthy(Js.Prop(section, "enabled").value)))
  {
    if Js.Truthy(cachedEnabled) then Success(Js.Bool(true))
    else
      match ProfilerConfigRead(cachedSection, cachedConfig, containerConfig)
      case Failure(e) => Failure(e)
      case Success(section) => Success(EnabledValue(section))
  }

  /**
   * The answer of `getStorageManager(newSession)` from the caches, a new
   * session handing out `created`: the cached manager unless a new session
   * is asked for; otherwise `null` exactly when the profiler section has no
   * truthy `bass.manager`, `created` when it has, and a TypeError when the
   * section cannot be read or is `undefined`/`null`.
   */
  function StorageAnswer(newSession: bool, cachedManager: Option<ManagerId>, cachedSection: Js.Value, cachedConfig: Js.Value,
                         containerConfig: Js.Value, created: ManagerId): (r: Result<Option<ManagerId>, Js.JsError>)
    ensures !newSession && cachedManager.Some? ==> r == Success(cachedManager)
    ensures (newSession || cachedManager.None?) ==>
      var section := ProfilerConfigRead(cachedSection, cachedConfig, containerConfig);
      && (r.Failure? <==> section.Failure? || ManagerConfigured(section.value).Failure?)
      && (r == Success(None) <==> section.Success? && ManagerConfigured(section.value) == Success(false))
      && (r.Success? && r.value.Some? ==> r.value == Some(created))
  {
    if !newSession && cachedManager.Some? then Success(cachedManager)
    else
      match ProfilerConfigRead(cachedSection, cachedConfig, containerConfig)
      case Failure(e) => Failure(e)
      case Success(section) =>
        match ManagerConfigured(section)
        case Failure(e) => Failure(e)
        case Success(configured) => if configured then Success(Some(created)) else Success(None)
  }

  class Service {
    /** `_enabled`: the last answer of `isEnabled`. */
    var enabled: Js.Value
    /** `_config`: the configuration service, once looked up. */
    var config: Js.Value
    /** `_profilerConfig`: the profiler section, once looked up. */
    var profilerConfig: Js.Value
    /** `_manager`: the first storage manager handed out. */
    var manager: Option<ManagerId>

    constructor()
      ensures enabled == Js.Bool(false) && config == Js.Undefined && profilerConfig == Js.Undefined && manager == None
    {
      enabled := Js.Bool(false);
      config := Js.Undefined;
      profilerConfig := Js.Undefined;
      manager := None;
    }

    /** `getConfig()`, the container holding `containerConfig` under `config`: a truthy cached value is kept. */
    method GetConfig(containerConfig: Js.Value) returns (r: Js.Value)
      modifies this
      ensures config == (if Js.Truthy(old(config)) then old(config) else containerConfig)
      ensures r == config
      ensures enabled == old(enabled) && profilerConfig == old(profilerConfig) && manager == old(manager)
    {
      if !Js.Truthy(config) {
        config := containerConfig;
      }
      return config;
    }

    /**
     * `getProfilerConfig()`: a truthy cached section is returned as it is;
     * otherwise the section is read (a TypeError when there is no
     * configuration service) and cached.
     */
    method GetProfilerConfig(containerConfig: Js.Value) returns (r: Result<Js.Value, Js.JsError>)
      modifies this
      ensures Js.Truthy(old(profilerConfig)) ==>
        r == Success(old(profilerConfig)) && config == old(config) && profilerConfig == old(profilerConfig)
      ensures !Js.Truthy(old(profilerConfig)) ==>
        && config == (if Js.Truthy(old(config)) then old(config) else containerConfig)
        && r == ProfilerSection(config)
        && profilerConfig == (if r.Success? then r.value else old(profilerConfig))
      ensures enabled == old(enabled) && manager == old(manager)
    {
      if Js.Truthy(profilerConfig) {
        return Success(profilerConfig);
      }
      var c := GetConfig(containerConfig);
      r := ProfilerSection(c);
      if r.Success? {
        profilerConfig := r.value;
      }
    }

    /** The caches after `getProfilerConfig()` ran from the cached `cachedSection` and `cachedConfig`. */
    predicate CachesAfterRead(cachedSection: Js.Value, cachedConfig: Js.Value, containerConfig: Js.Value)
      reads this
    {
      var read := ProfilerConfigRead(cachedSection, cachedConfig, containerConfig);
      && config == (if Js.Truthy(cachedSection) then cachedConfig else ConfigRead(cachedConfig, containerConfig))
      && profilerConfig == (if read.Success? then read.value else cachedSection)
    }

    /**
     * `getStorageManager(newSession)`, a new session handing out `created`:
     * the cached manager unless a new session is asked for; `null` when no
     * `bass.manager` is configured; otherwise the new session's manager,
     * which is cached only when none was.
     */
    method GetStorageManager(newSession: bool, containerConfig: Js.Value, created: ManagerId)
      returns (r: Result<Option<ManagerId>, Js.JsError>)
      modifies this
      ensures !newSession && old(manager).Some? ==> r == Success(old(manager)) && manager == old(manager)
      ensures r.Success? && r.value.Some? && (newSession || old(manager).None?) ==> r.value == Some(created)
      ensures manager == (if old(manager).None? && r.Success? && r.value.Some? then r.value else old(manager))
      ensures (newSession || old(manager).None?) && r.Success? ==>
        (r.value.Some? <==> ManagerConfigured(profilerConfig) == Success(true))
      ensures enabled == old(enabled)
      ensures r == StorageAnswer(newSession, old(manager), old(profilerConfig), old(config), containerConfig, created)
      ensures !newSession && old(manager).Some? ==> config == old(config) && profilerConfig == old(profilerConfig)
      ensures newSession || old(manager).None? ==> CachesAfterRead(old(profilerConfig), old(config), containerConfig)
    {
      if !newSession && manager.Some? {
        return Success(manager);
      }
      var pc := GetProfilerConfig(containerConfig);
      if pc.Failure? {
        return Failure(pc.error);
      }
      var configured := ManagerConfigured(pc.value);
      if configured.Failure? {
        return Failure(configured.error);
      }
      if !configured.value {
        return Success(None);
      }
      if manager.None? {
        manager := Some(created);
      }
      return Success(Some(created));
    }

    /**
     * `isEnabled()`: true once a truthy answer is cached, without reading
     * the configuration; otherwise the answer for the profiler section,
     * which is cached.
     */
    method IsEnabled(containerConfig: Js.Value) returns (r: Result<Js.Value, Js.JsError>)
      modifies this
      ensures Js.Truthy(old(enabled)) ==>
        r == Success(Js.Bool(true)) && enabled == old(enabled) && config == old(config) && profilerConfig == old(profilerConfig)
      ensures !Js.Truthy(old(enabled)) && r.Success? ==> r.value == EnabledValue(profilerConfig) && enabled == r.value
      ensures r.Failure? ==> enabled == old(enabled) && r.error == Js.TypeError
      ensures manager == old(manager)
      ensures r == EnabledAnswer(old(enabled), old(profilerConfig), old(config), containerConfig)
      ensures !Js.Truthy(old(enabled)) ==>
        CachesAfterRead(old(profilerConfig), old(config), containerConfig) && enabled == (if r.Success? then r.value else old(enabled))
    {
      if Js.Truthy(enabled) {
        return Success(Js.Bool(true));
      }
      var pc := GetProfilerConfig(containerConfig);
      if pc.Failure? {
        return Failure(pc.error);
      }
      var isEnabled := EnabledValue(pc.value);
      enabled := isEnabled;
      return Success(isEnabled);
    }
  }
}

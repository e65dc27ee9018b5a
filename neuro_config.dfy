/**
 * The standalone agent service's configuration
 * (server/neuro_simulator/neuro_sama/config.py): the `neuro_sama` section
 * names an LLM service and a TTS service by id, both are looked up in the
 * `general` section's service lists, and each must carry its credentials.
 */
module NeuroConfig {
  import opened Wrappers
  import opened Json
  import Dict
  import Text

  /** The `ValueError`s `Config.__init__` raises, and `Crashed` for any other exception. */
  datatype ConfigError =
    | MissingSetting(path: string)
    | ServiceNotFound(kind: string, serviceId: Json)
    | MissingServiceField(kind: string, serviceId: Json, field: string)
    | NoWorkingDir
    | Crashed

  /** The attributes a successful constructor sets. */
  datatype Config = Config(
    openaiApiKey: Json, openaiBaseUrl: Json, openaiModel: Json,
    azureTtsKey: Json, azureTtsRegion: Json, azureTtsTimeout: Json,
    host: Json, port: Json,
    promptPath: string, coreMemoryPath: string, initMemoryPath: string, tempMemoryPath: string)

  datatype ConfigResult = Failed(error: ConfigError) | Loaded(config: Config)

  /** `d.get(k, default)` on a value that must be a dict; `None` when it is not (`AttributeError`). */
  function GetOr(d: Json, k: string, default: Json): (r: Option<Json>)
    ensures r.Some? <==> d.JObj?
    ensures d.JObj? && Dict.HasKey(d.fields, k) ==> r == Dict.Get(d.fields, k)
    ensures d.JObj? && !Dict.HasKey(d.fields, k) ==> r == Some(default)
  {
    if d.JObj? then Some(Dict.Get(d.fields, k).GetOr(default)) else None
  }

  /** `k in d and d[k]`: the key is present with a truthy value. */
  predicate PresentAndTruthy(d: Json, k: string)
    requires d.JObj?
  {
    Dict.HasKey(d.fields, k) && Truthy(Dict.Get(d.fields, k).value)
  }

  /**
   * What a `for` loop visits: a list's items, a dict's keys, a string's
   * characters; `None` for a value that is not iterable (`TypeError`).
   */
  function Items(j: Json): (r: Option<seq<Json>>)
    ensures j.JArr? ==> r == Some(j.items)
    ensures r.Some? <==> j.JArr? || j.JObj? || j.JStr?
  {
    match j
    case JArr(xs) => Some(xs)
    case JObj(fs) => Some(seq(|fs|, i requires 0 <= i < |fs| => JStr(fs[i].0)))
    case JStr(s) => Some(seq(|s|, i requires 0 <= i < |s| => JStr([s[i]])))
    case _ => None
  }

  /** The outcome of the service search loop. */
  datatype Lookup = Found(service: Json) | NotFound | NotADict

  /** `service.get("id") == service_id`. */
  predicate Matches(service: Json, serviceId: Json)
    requires service.JObj?
  {
    PyEq(Dict.Get(service.fields, "id").GetOr(JNull), serviceId)
  }

  /**
   * The search: the first entry whose `id` equals the wanted one; an entry
   * that is not a dict, met before any match, makes `.get` fail.
   */
  function FirstService(services: seq<Json>, serviceId: Json): (r: Lookup)
    ensures r.Found? ==> exists i :: (0 <= i < |services| && services[i] == r.service
      && services[i].JObj? && Matches(services[i], serviceId)
      && forall j :: 0 <= j < i ==> services[j].JObj? && !Matches(services[j], serviceId))
    ensures r.NotFound? <==> forall j :: 0 <= j < |services| ==> services[j].JObj? && !Matches(services[j], serviceId)
  {
    if services == [] then NotFound
    else if !services[0].JObj? then NotADict
    else if Matches(services[0], serviceId) then Found(services[0])
    else
      var r := FirstService(services[1..], serviceId);
      assert forall j :: 1 <= j < |services| ==> services[j] == services[1..][j - 1];
      assert r.Found? ==> exists i :: (0 <= i < |services| && services[i] == r.service
        && services[i].JObj? && Matches(services[i], serviceId)
        && forall j :: 0 <= j < i ==> services[j].JObj? && !Matches(services[j], serviceId))
      by {
        if r.Found? {
          var i :| 0 <= i < |services[1..]| && services[1..][i] == r.service
            && services[1..][i].JObj? && Matches(services[1..][i], serviceId)
            && forall j :: 0 <= j < i ==> services[1..][j].JObj? && !Matches(services[1..][j], serviceId);
          assert services[i + 1] == r.service;
          assert forall j :: 0 <= j < i + 1 ==> services[j].JObj? && !Matches(services[j], serviceId) by {
            forall j | 0 <= j < i + 1 ensures services[j].JObj? && !Matches(services[j], serviceId) {
              if j > 0 { assert services[j] == services[1..][j - 1]; }
            }
          }
        }
      }
      r
  }

  /** The `for service in ...: if ...: break` loop. */
  method FindService(services: seq<Json>, serviceId: Json) returns (r: Lookup)
    ensures r == FirstService(services, serviceId)
  {
    var i := 0;
    while i < |services|
      invariant 0 <= i <= |services|
      invariant FirstService(services, serviceId) == FirstService(services[i..], serviceId)
    {
      var service := services[i];
      if !service.JObj? {
        return NotADict;
      }
      if Matches(service, serviceId) {
        return Found(service);
      }
      assert services[i..][1..] == services[i + 1..];
      i := i + 1;
    }
    return NotFound;
  }

  /** `os.path.join(base, a, b)` for relative parts without separators inside. */
  function PathJoin(base: string, a: string, b: string): (p: string)
    ensures base != "" && base[|base| - 1] != '/' ==> p == base + "/" + a + "/" + b
    ensures base != "" && base[|base| - 1] == '/' ==> p == base + a + "/" + b
  {
    var sep := if base != "" && base[|base| - 1] == '/' then "" else "/";
    base + sep + a + "/" + b
  }

  /**
   * Python's `k in c`: a key of a dict, an item of a list, a substring of a
   * string; `None` for any other value, where the test raises `TypeError`.
   */
  function InTest(c: Json, k: string): (r: Option<bool>)
    ensures r.Some? <==> c.JObj? || c.JArr? || c.JStr?
    ensures c.JObj? ==> r == Some(Dict.HasKey(c.fields, k))
    ensures c.JArr? ==> r == Some(exists i :: 0 <= i < |c.items| && PyEq(c.items[i], JStr(k)))
    ensures c.JStr? ==> r == Some(Text.Contains(c.s, k))
  {
    match c
    case JObj(fs) => Some(Dict.HasKey(fs, k))
    case JArr(xs) => Some(exists i :: 0 <= i < |xs| && PyEq(xs[i], JStr(k)))
    case JStr(s) => Some(Text.Contains(s, k))
    case _ => None
  }

  /**
   * `"host" not in server or not server["host"]` on a `server_settings`
   * that is not a dict: a list or string without `host` fails the check,
   * and one with it cannot be indexed by a string (`TypeError`).
   */
  function HostOfNonDict(server: Json): (r: ConfigResult)
    requires !server.JObj?
    ensures r.Failed?
    ensures r.error == MissingSetting(HostPath) <==> InTest(server, "host") == Some(false)
    ensures r.error != Crashed ==> r.error == MissingSetting(HostPath)
  {
    var has := InTest(server, "host");
    if has == Some(false) then Failed(MissingSetting(HostPath)) else Failed(Crashed)
  }

  /** Look a service up in `general.<listKey>`; errors become the constructor's failures. */
  function ServiceFrom(general: Json, listKey: string, kind: string, serviceId: Json): (r: Result<Json>)
    requires general.JObj?
    ensures r.Ok? ==> r.value.JObj? && Matches(r.value, serviceId)
    ensures r.Err? ==> r.error == Crashed || r.error == ServiceNotFound(kind, serviceId)
    ensures r == Err(ServiceNotFound(kind, serviceId)) <==>
      var items := Items(Dict.Get(general.fields, listKey).GetOr(JArr([])));
      && items.Some?
      && forall j :: 0 <= j < |items.value| ==> items.value[j].JObj? && !Matches(items.value[j], serviceId)
  {
    var services := Dict.Get(general.fields, listKey).GetOr(JArr([]));
    var items := Items(services);
    if items.None? then Err(Crashed)
    else
      match FirstService(items.value, serviceId)
      case NotADict => Err(Crashed)
      case NotFound => Err(ServiceNotFound(kind, serviceId))
      case Found(s) => Ok(s)
  }

  datatype Result<T> = Ok(value: T) | Err(error: ConfigError)

  const HostPath := "neuro_sama.server_settings.host"
  const PortPath := "neuro_sama.server_settings.port"

  /** `global_config.get(name, {})`, or `{}` for a configuration that is not a dict. */
  function Section(globalConfig: Json, name: string): (section: Json)
    ensures globalConfig.JObj? && !Dict.HasKey(globalConfig.fields, name) ==> section == JObj([])
  {
    if globalConfig.JObj? then Dict.Get(globalConfig.fields, name).GetOr(JObj([])) else JObj([])
  }

  /** `neuro_sama.get(key, default)`, or the default when the section is not a dict. */
  function Setting(globalConfig: Json, key: string, default: Json): (value: Json)
    ensures !Section(globalConfig, "neuro_sama").JObj? ==> value == default
  {
    var neuro := Section(globalConfig, "neuro_sama");
    if neuro.JObj? then Dict.Get(neuro.fields, key).GetOr(default) else default
  }

  /** The LLM service has a truthy key, url and model; the TTS service a truthy key and region and some timeout. */
  predicate CredentialsValid(llm: Json, tts: Json)
    requires llm.JObj? && tts.JObj?
  {
    && PresentAndTruthy(llm, "key") && PresentAndTruthy(llm, "url") && PresentAndTruthy(llm, "model")
    && PresentAndTruthy(tts, "key") && PresentAndTruthy(tts, "region") && Dict.HasKey(tts.fields, "timeout")
  }

  /** `"host" not in server or not server["host"]` holds without raising. */
  predicate HostMissing(server: Json) {
    InTest(server, "host") == Some(false) || (server.JObj? && !PresentAndTruthy(server, "host"))
  }

  /** The server section is a dict with a truthy host and some port. */
  predicate ServerValid(server: Json) {
    server.JObj? && PresentAndTruthy(server, "host") && Dict.HasKey(server.fields, "port")
  }

  predicate WorkingDirGiven(workingDir: Option<string>) {
    workingDir.Some? && workingDir.value != ""
  }

  /**
   * `Config.__init__`, check by check in the order the constructor makes
   * them; the first failing check decides the error.  The ids are checked
   * here, the rest in the stages below.
   */
  function NewConfig(globalConfig: Json, workingDir: Option<string>): (r: ConfigResult)
    ensures r.Loaded? <==> Valid(globalConfig, workingDir)
    ensures r.Loaded? ==>
      && Truthy(r.config.openaiApiKey) && Truthy(r.config.openaiBaseUrl) && Truthy(r.config.openaiModel)
      && Truthy(r.config.azureTtsKey) && Truthy(r.config.azureTtsRegion) && Truthy(r.config.host)
    ensures r.Loaded? ==>
      && r.config.promptPath == PathJoin(workingDir.value, "prompts", "neuro_prompt.txt")
      && r.config.coreMemoryPath == PathJoin(workingDir.value, "memory", "core_memory.json")
      && r.config.initMemoryPath == PathJoin(workingDir.value, "memory", "init_memory.json")
      && r.config.tempMemoryPath == PathJoin(workingDir.value, "memory", "temp_memory.json")
    ensures r == Failed(MissingSetting("neuro_sama.llm_service_id")) <==>
      globalConfig.JObj? && Section(globalConfig, "neuro_sama").JObj?
      && !Truthy(Setting(globalConfig, "llm_service_id", JStr("")))
    ensures r == Failed(MissingSetting("neuro_sama.tts_service_id")) <==>
      globalConfig.JObj? && Section(globalConfig, "neuro_sama").JObj?
      && Truthy(Setting(globalConfig, "llm_service_id", JStr("")))
      && !Truthy(Setting(globalConfig, "tts_service_id", JStr("")))
  {
    if !globalConfig.JObj? || !Section(globalConfig, "neuro_sama").JObj? then Failed(Crashed)
    else if !Truthy(Setting(globalConfig, "llm_service_id", JStr(""))) then
      Failed(MissingSetting("neuro_sama.llm_service_id"))
    else if !Truthy(Setting(globalConfig, "tts_service_id", JStr(""))) then
      Failed(MissingSetting("neuro_sama.tts_service_id"))
    else WithServices(globalConfig, workingDir)
  }

  /**
   * From the service lookups on: the LLM service is looked up first, then
   * the TTS service, both in the `general` section.
   */
  function WithServices(globalConfig: Json, workingDir: Option<string>): (r: ConfigResult)
    requires globalConfig.JObj? && Section(globalConfig, "neuro_sama").JObj?
    ensures r.Failed? && r.error.MissingSetting? ==> r.error.path == HostPath || r.error.path == PortPath
    ensures var general := Section(globalConfig, "general");
      var llmId := Setting(globalConfig, "llm_service_id", JStr(""));
      var ttsId := Setting(globalConfig, "tts_service_id", JStr(""));
      && (!general.JObj? ==> r == Failed(Crashed))
      && (general.JObj? ==>
            var llm := ServiceFrom(general, "llm_services", "LLM", llmId);
            var tts := ServiceFrom(general, "tts_services", "TTS", ttsId);
            && (llm.Err? ==> r == Failed(llm.error))
            && (llm.Ok? && tts.Err? ==> r == Failed(tts.error))
            && (llm.Ok? && tts.Ok? ==>
                  r == WithCredentials(llm.value, tts.value, llmId, ttsId, ServerSettings(globalConfig), workingDir)))
  {
    var general := Section(globalConfig, "general");
    if !general.JObj? then Failed(Crashed)
    else
      var llmId := Setting(globalConfig, "llm_service_id", JStr(""));
      var ttsId := Setting(globalConfig, "tts_service_id", JStr(""));
      var llm := ServiceFrom(general, "llm_services", "LLM", llmId);
      if llm.Err? then Failed(llm.error)
      else
        var tts := ServiceFrom(general, "tts_services", "TTS", ttsId);
        if tts.Err? then Failed(tts.error)
        else WithCredentials(llm.value, tts.value, llmId, ttsId, ServerSettings(globalConfig), workingDir)
  }

  /** `neuro_sama.get("server_settings", {})`. */
  function ServerSettings(globalConfig: Json): (server: Json)
    ensures !Section(globalConfig, "neuro_sama").JObj? ==> server == JObj([])
  {
    Setting(globalConfig, "server_settings", JObj([]))
  }

  /**
   * The credential checks, LLM key, url and model, then TTS key, region and
   * timeout; `MissingServiceField` names the first that fails.
   */
  function WithCredentials(llm: Json, tts: Json, llmId: Json, ttsId: Json, server: Json, workingDir: Option<string>)
    : (r: ConfigResult)
    requires llm.JObj? && tts.JObj?
    ensures CredentialsValid(llm, tts) ==> r == WithServer(llm, tts, server, workingDir)
    ensures !CredentialsValid(llm, tts) <==> r.Failed? && r.error.MissingServiceField?
    ensures r.Failed? && r.error.MissingServiceField? ==>
      && (r.error.kind == "LLM" || r.error.kind == "TTS")
      && (r.error.kind == "LLM" ==> r.error.serviceId == llmId && !PresentAndTruthy(llm, r.error.field))
      && (r.error.kind == "TTS" ==>
            && r.error.serviceId == ttsId
            && PresentAndTruthy(llm, "key") && PresentAndTruthy(llm, "url") && PresentAndTruthy(llm, "model")
            && if r.error.field == "timeout" then !Dict.HasKey(tts.fields, "timeout")
               else !PresentAndTruthy(tts, r.error.field))
  {
    if !PresentAndTruthy(llm, "key") then Failed(MissingServiceField("LLM", llmId, "key"))
    else if !PresentAndTruthy(llm, "url") then Failed(MissingServiceField("LLM", llmId, "url"))
    else if !PresentAndTruthy(llm, "model") then Failed(MissingServiceField("LLM", llmId, "model"))
    else if !PresentAndTruthy(tts, "key") then Failed(MissingServiceField("TTS", ttsId, "key"))
    else if !PresentAndTruthy(tts, "region") then Failed(MissingServiceField("TTS", ttsId, "region"))
    else if !Dict.HasKey(tts.fields, "timeout") then Failed(MissingServiceField("TTS", ttsId, "timeout"))
    else WithServer(llm, tts, server, workingDir)
  }

  /** The server checks, host then port, then the working directory, and the attributes set. */
  function WithServer(llm: Json, tts: Json, server: Json, workingDir: Option<string>): (r: ConfigResult)
    requires llm.JObj? && tts.JObj? && CredentialsValid(llm, tts)
    ensures r == Failed(MissingSetting(HostPath)) <==> HostMissing(server)
    ensures r == Failed(MissingSetting(PortPath)) <==>
      server.JObj? && PresentAndTruthy(server, "host") && !Dict.HasKey(server.fields, "port")
    ensures r == Failed(NoWorkingDir) <==> ServerValid(server) && !WorkingDirGiven(workingDir)
    ensures r == Failed(Crashed) <==> !server.JObj? && InTest(server, "host") != Some(false)
    ensures r.Loaded? <==> ServerValid(server) && WorkingDirGiven(workingDir)
    ensures r.Failed? ==> r.error in {MissingSetting(HostPath), MissingSetting(PortPath), NoWorkingDir, Crashed}
    ensures r.Loaded? ==>
      && r.config.openaiApiKey == Dict.Get(llm.fields, "key").value
      && r.config.openaiModel == Dict.Get(llm.fields, "model").value
      && Truthy(r.config.openaiApiKey) && Truthy(r.config.openaiBaseUrl) && Truthy(r.config.openaiModel)
      && Truthy(r.config.azureTtsKey) && Truthy(r.config.azureTtsRegion) && Truthy(r.config.host)
      && r.config.promptPath == PathJoin(workingDir.value, "prompts", "neuro_prompt.txt")
      && r.config.coreMemoryPath == PathJoin(workingDir.value, "memory", "core_memory.json")
      && r.config.initMemoryPath == PathJoin(workingDir.value, "memory", "init_memory.json")
      && r.config.tempMemoryPath == PathJoin(workingDir.value, "memory", "temp_memory.json")
  {
    if !server.JObj? then HostOfNonDict(server)
    else if !PresentAndTruthy(server, "host") then Failed(MissingSetting(HostPath))
    else if !Dict.HasKey(server.fields, "port") then Failed(MissingSetting(PortPath))
    else if !WorkingDirGiven(workingDir) then Failed(NoWorkingDir)
    else
      var wd := workingDir.value;
      Loaded(Config(
        Dict.Get(llm.fields, "key").value, Dict.Get(llm.fields, "url").value,
        Dict.Get(llm.fields, "model").value,
        Dict.Get(tts.fields, "key").value, Dict.Get(tts.fields, "region").value,
        Dict.Get(tts.fields, "timeout").value,
        Dict.Get(server.fields, "host").value, Dict.Get(server.fields, "port").value,
        PathJoin(wd, "prompts", "neuro_prompt.txt"),
        PathJoin(wd, "memory", "core_memory.json"),
        PathJoin(wd, "memory", "init_memory.json"),
        PathJoin(wd, "memory", "temp_memory.json")))
  }

  /**
   * Everything the constructor checks, stated without the check order: the
   * configuration and its `neuro_sama` section are dicts, both ids are set,
   * both services are listed with their credentials, the server has a host
   * and a port, and a working directory is given.
   */
  predicate Valid(globalConfig: Json, workingDir: Option<string>) {
    && globalConfig.JObj? && Section(globalConfig, "neuro_sama").JObj?
    && var llmId := Setting(globalConfig, "llm_service_id", JStr(""));
    && var ttsId := Setting(globalConfig, "tts_service_id", JStr(""));
    && Truthy(llmId) && Truthy(ttsId)
    && var general := Section(globalConfig, "general");
    && general.JObj?
    && var llm := ServiceFrom(general, "llm_services", "LLM", llmId);
    && var tts := ServiceFrom(general, "tts_services", "TTS", ttsId);
    && llm.Ok? && tts.Ok? && CredentialsValid(llm.value, tts.value)
    && ServerValid(ServerSettings(globalConfig)) && WorkingDirGiven(workingDir)
  }

  /**
   * A loaded configuration took its LLM settings from the first listed
   * service with the wanted id, and that service has a truthy key, url and
   * model; the TTS service has a truthy key and region and some timeout,
   * which may be 0.
   */
  lemma LoadedServices(globalConfig: Json, workingDir: Option<string>)
    requires NewConfig(globalConfig, workingDir).Loaded?
    ensures var c := NewConfig(globalConfig, workingDir).config;
      var neuro := Dict.Get(globalConfig.fields, "neuro_sama").GetOr(JObj([]));
      var general := Dict.Get(globalConfig.fields, "general").GetOr(JObj([]));
      && general.JObj? && neuro.JObj?
      && var llmId := Dict.Get(neuro.fields, "llm_service_id").GetOr(JStr(""));
      && var services := Dict.Get(general.fields, "llm_services").GetOr(JArr([]));
      && Items(services).Some?
      && var found := FirstService(Items(services).value, llmId);
      && found.Found?
      && Truthy(c.openaiApiKey) && Truthy(c.openaiBaseUrl) && Truthy(c.openaiModel)
      && Dict.Get(found.service.fields, "key") == Some(c.openaiApiKey)
      && Dict.Get(found.service.fields, "model") == Some(c.openaiModel)
      && Truthy(c.azureTtsKey) && Truthy(c.azureTtsRegion)
  {
  }
}

/**
 * The configuration side of the studio process
 * (server/neuro_simulator/vedal_studio/config.py and
 * server/neuro_simulator/vedal_studio/api.py): the structural check a
 * loaded config must pass, which modules a config change concerns, and
 * the form schema generated from a config tree.
 */
module Studio {
  import opened Wrappers
  import opened Json
  import Dict
  import Text

  /* ---------- ConfigManager._is_config_valid ---------- */

  /**
   * A config is usable when it is a dict whose `general` entry is a dict
   * whose `server_settings` entry is a dict holding both `host` and `port`.
   */
  function IsConfigValid(config: Json): (valid: bool)
    ensures valid <==>
      && config.JObj?
      && Field(config, "general").Some? && Field(config, "general").value.JObj?
      && var general := Field(config, "general").value;
      && Field(general, "server_settings").Some? && Field(general, "server_settings").value.JObj?
      && var server := Field(general, "server_settings").value;
      && Dict.HasKey(server.fields, "host") && Dict.HasKey(server.fields, "port")
  {
    if !config.JObj? then false
    else if !Dict.HasKey(config.fields, "general") then false
    else
      var general := Dict.Get(config.fields, "general").value;
      if !general.JObj? then false
      else if !Dict.HasKey(general.fields, "server_settings") then false
      else
        var server := Dict.Get(general.fields, "server_settings").value;
        if !server.JObj? then false
        else Dict.HasKey(server.fields, "host") && Dict.HasKey(server.fields, "port")
  }

  /* ---------- _get_changed_modules ---------- */

  /** `old.get(k) != new.get(k)` on two dicts. */
  predicate Differs(oldConfig: seq<(string, Json)>, newConfig: seq<(string, Json)>, k: string) {
    !PyEqOpt(Dict.Get(oldConfig, k), Dict.Get(newConfig, k))
  }

  /** `xs` keeps some of the elements of `ys`, in their order. */
  predicate Subsequence(xs: seq<string>, ys: seq<string>) {
    xs == [] || (ys != [] && ((xs[0] == ys[0] && Subsequence(xs[1..], ys[1..])) || Subsequence(xs, ys[1..])))
  }

  /** The loop over `new_config.keys()` that collects changed module sections. */
  function ChangedKeys(keys: seq<string>, oldConfig: seq<(string, Json)>, newConfig: seq<(string, Json)>): (r: seq<string>)
    ensures forall k :: k in r <==> k in keys && k != "general" && k != "stream" && Differs(oldConfig, newConfig, k)
    ensures Subsequence(r, keys)
  {
    if keys == [] then []
    else
      var rest := ChangedKeys(keys[1..], oldConfig, newConfig);
      assert forall k :: k in keys <==> k == keys[0] || k in keys[1..];
      var k := keys[0];
      if k != "general" && k != "stream" && Differs(oldConfig, newConfig, k) then
        var r := [k] + rest;
        assert r[1..] == rest;
        r
      else
        rest
  }

  /**
   * `_get_changed_modules`: nothing for non-dict configs; only `neuro_sama`
   * when `general` changed (it concerns every module); otherwise the keys of
   * the new config, in order and without `general` and `stream`, whose
   * section differs from the old config's.
   */
  function ChangedModules(oldConfig: Json, newConfig: Json): (r: seq<string>)
    ensures !oldConfig.JObj? || !newConfig.JObj? ==> r == []
    ensures oldConfig.JObj? && newConfig.JObj? && Differs(oldConfig.fields, newConfig.fields, "general") ==>
      r == ["neuro_sama"]
    ensures oldConfig.JObj? && newConfig.JObj? && !Differs(oldConfig.fields, newConfig.fields, "general") ==>
      && Subsequence(r, Dict.Keys(newConfig.fields))
      && forall k :: k in r <==> k in Dict.Keys(newConfig.fields) && k != "general" && k != "stream"
                                  && Differs(oldConfig.fields, newConfig.fields, k)
  {
    if !oldConfig.JObj? || !newConfig.JObj? then []
    else if Differs(oldConfig.fields, newConfig.fields, "general") then ["neuro_sama"]
    else ChangedKeys(Dict.Keys(newConfig.fields), oldConfig.fields, newConfig.fields)
  }

  /** A section present only in the old config is never reported. */
  lemma RemovedSectionNotReported(oldConfig: Json, newConfig: Json, k: string)
    requires oldConfig.JObj? && newConfig.JObj? && !Dict.HasKey(newConfig.fields, k) && k != "neuro_sama"
    ensures k !in ChangedModules(oldConfig, newConfig)
  {
    Dict.KeysHasKey(newConfig.fields, k);
  }

  /* ---------- generate_config_schema ---------- */

  /** Python type names as JSON-schema type names; other names pass through. */
  function SchemaTypeName(pyType: string): (t: string)
    ensures pyType == "str" ==> t == "string"
    ensures pyType == "int" ==> t == "integer"
    ensures pyType == "float" ==> t == "number"
    ensures pyType == "bool" ==> t == "boolean"
    ensures pyType !in {"str", "int", "float", "bool"} ==> t == pyType
  {
    if pyType == "str" then "string"
    else if pyType == "int" then "integer"
    else if pyType == "float" then "number"
    else if pyType == "bool" then "boolean"
    else pyType
  }

  /** The schema type a config value gets. */
  function Kind(value: Json): string {
    if value.JObj? then "object" else if value.JArr? then "array" else SchemaTypeName(TypeName(value))
  }

  /** `(title + " " if title else "") + key.replace('_', ' ').title()`. */
  function Caption(title: Option<string>, key: string): string {
    (if title.Some? && title.value != "" then title.value + " " else "") + Text.Title(Text.ReplaceChar(key, '_', ' '))
  }

  /** `generate_config_schema(config, title)`. */
  function GenerateSchema(config: Json, title: Option<string>): (s: Json)
    ensures !config.JObj? ==> s == JObj([])
    ensures config.JObj? ==>
      && Field(s, "type") == Some(JStr("object"))
      && Field(s, "properties").Some? && Field(s, "properties").value.JObj?
      && var props := Field(s, "properties").value.fields;
      && Dict.Keys(props) == Dict.Keys(config.fields)
      && forall i :: 0 <= i < |props| ==> Field(props[i].1, "type") == Some(JStr(Kind(config.fields[i].1)))
    decreases config, 1
  {
    if !config.JObj? then JObj([])
    else
      var fs := config.fields;
      var props := Properties(config, title);
      JObj([("type", JStr("object")), ("properties", JObj(props))])
  }

  /** The `properties` dict: one entry per key of the config, in key order. */
  function Properties(config: Json, title: Option<string>): (props: seq<(string, Json)>)
    requires config.JObj?
    ensures |props| == |config.fields|
    ensures Dict.Keys(props) == Dict.Keys(config.fields)
    ensures forall i :: 0 <= i < |props| ==> Field(props[i].1, "type") == Some(JStr(Kind(config.fields[i].1)))
    decreases config, 0
  {
    var fs := config.fields;
    var props := seq(|fs|, i requires 0 <= i < |fs| => (fs[i].0, Entry(fs[i].0, fs[i].1, title)));
    KeysOfPairs(props, fs);
    props
  }

  lemma {:induction false} KeysOfPairs(props: seq<(string, Json)>, fs: seq<(string, Json)>)
    requires |props| == |fs| && forall i :: 0 <= i < |fs| ==> props[i].0 == fs[i].0
    ensures Dict.Keys(props) == Dict.Keys(fs)
  {
    if fs != [] {
      KeysOfPairs(props[1..], fs[1..]);
    }
  }

  /**
   * The schema of one config entry: nested dicts recurse (their own
   * properties, a "Settings" title), non-empty lists describe their first
   * element, an empty list gets no `items`, and scalars carry their value as
   * the default.
   */
  function Entry(key: string, value: Json, title: Option<string>): (e: Json)
    ensures Field(e, "type") == Some(JStr(Kind(value)))
    ensures value.JObj? ==> (Field(e, "title") == Some(JStr(Caption(title, key) + " Settings"))
      && Field(e, "properties") == Field(GenerateSchema(value, None), "properties"))
    ensures value.JArr? && value.items != [] ==> Field(e, "items").Some?
    ensures value.JArr? && value.items == [] ==> Field(e, "items").None?
    ensures !value.JObj? && !value.JArr? ==> Field(e, "default") == Some(value)
    decreases value, 2
  {
    var caption := Caption(title, key);
    match value
    case JObj(_) =>
      var nested := GenerateSchema(value, None);
      JObj(Triple("type", JStr("object"), "title", JStr(caption + " Settings"), "properties", Field(nested, "properties").value))
    case JArr(items) =>
      if items != [] then
        var first := items[0];
        if first.JObj? then
          JObj(Triple("type", JStr("array"), "title", JStr(caption), "items", GenerateSchema(first, None)))
        else
          JObj(Triple("type", JStr("array"), "title", JStr(caption), "items", JObj([("type", JStr(SchemaTypeName(TypeName(first))))])))
      else
        JObj([("type", JStr("array")), ("title", JStr(caption))])
    case _ =>
      JObj(Triple("type", JStr(Kind(value)), "title", JStr(caption), "default", value))
  }

  /** A three-entry dict literal with distinct keys. */
  function Triple(k1: string, v1: Json, k2: string, v2: Json, k3: string, v3: Json): (d: seq<(string, Json)>)
    requires k1 != k2 && k1 != k3 && k2 != k3
    ensures Dict.Get(d, k1) == Some(v1) && Dict.Get(d, k2) == Some(v2) && Dict.Get(d, k3) == Some(v3)
    ensures forall k :: k != k1 && k != k2 && k != k3 ==> Dict.Get(d, k) == None
  {
    var d := [(k1, v1), (k2, v2), (k3, v3)];
    assert d[1..][1..] == [(k3, v3)];
    d
  }

  /** A list's items schema describes its first element only. */
  lemma ListItemsFromFirst(key: string, items: seq<Json>, title: Option<string>)
    requires items != []
    ensures var e := Entry(key, JArr(items), title);
      Field(e, "items") == Some(if items[0].JObj? then GenerateSchema(items[0], None)
                                else JObj([("type", JStr(SchemaTypeName(TypeName(items[0]))))]))
  {
  }
}

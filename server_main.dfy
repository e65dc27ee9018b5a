/**
 * The pieces of the web server's entry module (server/main.py) that are
 * logic rather than plumbing: the panel token check, the filter that keeps
 * only the editable settings of a config update, the parser that turns the
 * audience LLM's text into chat messages, and the log tail endpoint.
 */
module ServerMain {
  import opened Wrappers
  import opened Json
  import Dict
  import Text
  import Slices

  /* ---------- get_api_token ---------- */

  /** The outcome of the token dependency: access, or HTTP 401. */
  datatype Access = Granted | Unauthorized(status: nat)

  /**
   * `get_api_token`: with no panel password (unset or empty) every
   * request passes; otherwise the `X-API-Token` header must be present,
   * non-empty and equal to the password.
   */
  function GetApiToken(password: Option<string>, headerToken: Option<string>): (r: Access)
    ensures r.Granted? <==> password.None? || password.value == "" || headerToken == password
    ensures r.Unauthorized? ==> r.status == 401
  {
    if password.None? || password.value == "" then Granted
    else if headerToken.Some? && headerToken.value != "" && headerToken.value == password.value then Granted
    else Unauthorized(401)
  }

  /** Once a password is set, a request without the header is always refused. */
  lemma MissingTokenRefused(password: string)
    requires password != ""
    ensures GetApiToken(Some(password), None) == Unauthorized(401)
  {
  }

  /* ---------- filter_nested_dict ---------- */

  /** The dotted paths `section.field` for each of `fields`. */
  function Section(section: string, fields: seq<string>): set<string> {
    set f | f in fields :: section + "." + f
  }

  /** The settings a config update may change, as dotted paths, grouped by section. */
  const AllowedPaths: set<string> :=
    Section("stream_metadata", ["stream_title", "stream_category", "stream_tags"]) +
    Section("neuro_behavior", ["input_chat_sample_size", "post_speech_cooldown_sec", "initial_greeting"]) +
    Section("audience_simulation", ["llm_provider", "gemini_model", "openai_model", "llm_temperature",
                                    "chat_generation_interval_sec", "chats_per_batch", "max_output_tokens",
                                    "username_blocklist", "username_pool"]) +
    Section("performance", ["neuro_input_queue_max_size", "audience_chat_buffer_max_size",
                            "initial_chat_backlog_limit"])

  /** The dotted path of `key` under `prefix`; an empty prefix is no prefix. */
  function FullPath(prefix: string, key: string): (path: string)
    ensures prefix != "" ==> |path| > |prefix| && path[..|prefix| + 1] == prefix + "."
  {
    if prefix != "" then
      var path := prefix + "." + key;
      assert path[..|prefix| + 1] == prefix + ".";
      path
    else key
  }

  /** Some allowed path lies strictly below `prefix`. */
  predicate Below(allowed: set<string>, prefix: string) {
    exists a :: a in allowed && |a| > |prefix| && a[..|prefix| + 1] == prefix + "."
  }

  /** A path strictly below `path`, which itself lies below a non-empty `prefix`, lies below `prefix` too. */
  lemma BelowParent(allowed: set<string>, prefix: string, key: string)
    requires prefix != "" && Below(allowed, FullPath(prefix, key))
    ensures Below(allowed, prefix)
  {
    var path := FullPath(prefix, key);
    var a :| a in allowed && |a| > |path| && a[..|path| + 1] == path + ".";
    assert a[..|prefix| + 1] == a[..|path| + 1][..|prefix| + 1];
  }

  /**
   * What one entry of `filter_nested_dict`'s loop adds: the entry itself
   * when its full path is allowed; for a dict, its filtered form when that
   * is not empty; nothing otherwise.
   */
  function KeptEntry(prefix: string, key: string, value: Json, allowed: set<string>): (r: seq<(string, Json)>)
    ensures |r| <= 1 && forall j :: 0 <= j < |r| ==> r[j].0 == key
    ensures FullPath(prefix, key) in allowed ==> r == [(key, value)]
    ensures FullPath(prefix, key) !in allowed && r != [] ==>
      && r[0].1.JObj? && r[0].1.fields != []
      && (FullPath(prefix, key) != "" ==> Below(allowed, FullPath(prefix, key)))
    ensures prefix != "" && r != [] ==> Below(allowed, prefix)
    decreases value, 2, 0
  {
    var path := FullPath(prefix, key);
    if path in allowed then [(key, value)]
    else if value.JObj? then
      var nested := FilterNestedDict(value, path, allowed);
      if nested == [] then []
      else
        assert prefix != "" ==> Below(allowed, prefix) by {
          if prefix != "" {
            BelowParent(allowed, prefix, key);
          }
        }
        [(key, JObj(nested))]
    else []
  }

  /**
   * `filter_nested_dict`'s loop over the entries of `obj` from index `i`.
   * Keys keep their order.
   */
  function FilterFrom(obj: Json, prefix: string, allowed: set<string>, i: nat): (r: seq<(string, Json)>)
    requires obj.JObj? && i <= |obj.fields|
    ensures forall j :: 0 <= j < |r| ==> r[j].0 in Dict.Keys(obj.fields[i..])
    ensures forall j :: 0 <= j < |r| ==>
      FullPath(prefix, r[j].0) in allowed || (r[j].1.JObj? && r[j].1.fields != [])
    ensures forall j :: 0 <= j < |r| && FullPath(prefix, r[j].0) !in allowed && FullPath(prefix, r[j].0) != "" ==>
      Below(allowed, FullPath(prefix, r[j].0))
    ensures prefix != "" && r != [] ==> Below(allowed, prefix)
    decreases obj, 0, |obj.fields| - i
  {
    if i == |obj.fields| then []
    else
      var (key, value) := obj.fields[i];
      assert Dict.Keys(obj.fields[i..]) == [key] + Dict.Keys(obj.fields[i + 1..]) by {
        assert obj.fields[i..] == [obj.fields[i]] + obj.fields[i + 1..];
      }
      KeptEntry(prefix, key, value, allowed) + FilterFrom(obj, prefix, allowed, i + 1)
  }

  /**
   * `filter_nested_dict(obj, prefix)`: every key it keeps is a key of
   * `obj`, and either its full path is allowed or it holds a non-empty
   * filtered dict lying on the way to an allowed path.
   */
  function FilterNestedDict(obj: Json, prefix: string, allowed: set<string>): (r: seq<(string, Json)>)
    requires obj.JObj?
    ensures forall j :: 0 <= j < |r| ==> Dict.HasKey(obj.fields, r[j].0)
    ensures forall j :: 0 <= j < |r| ==>
      FullPath(prefix, r[j].0) in allowed || (r[j].1.JObj? && r[j].1.fields != [])
    ensures forall j :: 0 <= j < |r| && FullPath(prefix, r[j].0) !in allowed && FullPath(prefix, r[j].0) != "" ==>
      Below(allowed, FullPath(prefix, r[j].0))
    ensures prefix != "" && r != [] ==> Below(allowed, prefix)
    decreases obj, 1, 0
  {
    var r := FilterFrom(obj, prefix, allowed, 0);
    assert obj.fields[0..] == obj.fields;
    forall j | 0 <= j < |r| ensures Dict.HasKey(obj.fields, r[j].0) {
      Dict.KeysHasKey(obj.fields, r[j].0);
    }
    r
  }

  /** An entry whose full path is allowed is kept with its value unchanged. */
  lemma {:induction false} AllowedKept(obj: Json, prefix: string, allowed: set<string>, i: nat, m: nat)
    requires obj.JObj? && i <= m < |obj.fields|
    requires FullPath(prefix, obj.fields[m].0) in allowed
    ensures obj.fields[m] in FilterFrom(obj, prefix, allowed, i)
    decreases |obj.fields| - i
  {
    if i < m {
      AllowedKept(obj, prefix, allowed, i + 1, m);
    }
  }

  /** A dict entry whose path is not allowed is kept, filtered, when its filtered form is not empty. */
  lemma {:induction false} NestedKept(obj: Json, prefix: string, allowed: set<string>, i: nat, m: nat)
    requires obj.JObj? && i <= m < |obj.fields|
    requires var (key, value) := obj.fields[m];
      FullPath(prefix, key) !in allowed && value.JObj?
      && FilterNestedDict(value, FullPath(prefix, key), allowed) != []
    ensures var (key, value) := obj.fields[m];
      (key, JObj(FilterNestedDict(value, FullPath(prefix, key), allowed))) in FilterFrom(obj, prefix, allowed, i)
    decreases |obj.fields| - i
  {
    if i < m {
      NestedKept(obj, prefix, allowed, i + 1, m);
    }
  }

  /**
   * A top-level key that is neither an allowed path nor the start of one
   * never reaches the settings update, whatever it holds.
   */
  lemma TopLevelDropped(obj: Json, allowed: set<string>, key: string)
    requires obj.JObj? && key != ""
    requires key !in allowed && !Below(allowed, key)
    ensures key !in Dict.Keys(FilterNestedDict(obj, "", allowed))
  {
    var r := FilterNestedDict(obj, "", allowed);
    forall j | 0 <= j < |r| ensures Dict.Keys(r)[j] != key {
      Dict.KeyAt(r, j);
      assert FullPath("", r[j].0) == r[j].0;
    }
  }

  /** Every allowed path starts with a section name other than `server`. */
  lemma AllowedSectionStart(a: string)
    requires a in AllowedPaths
    ensures |a| >= 2 && (a[0] != 's' || a[1] == 't')
  {
  }

  /** A set of paths none of which starts with `se` holds neither `server` nor anything below it. */
  lemma NoneBelowServer(allowed: set<string>)
    requires forall a :: a in allowed ==> |a| >= 2 && (a[0] != 's' || a[1] == 't')
    ensures "server" !in allowed && !Below(allowed, "server")
  {
    assert "server" + "." == "server.";
    forall a | a in allowed ensures !(|a| > 6 && a[..7] == "server.") {
      if |a| > 6 {
        assert a[..7][0] == a[0] && a[..7][1] == a[1];
      }
    }
  }

  /** No allowed path is `server` or lies below it. */
  lemma ServerPathsNotAllowed()
    ensures "server" !in AllowedPaths && !Below(AllowedPaths, "server")
  {
    forall a | a in AllowedPaths ensures |a| >= 2 && (a[0] != 's' || a[1] == 't') {
      AllowedSectionStart(a);
    }
    NoneBelowServer(AllowedPaths);
  }

  /** The server settings, which hold the panel password, can never be changed through a config update. */
  lemma ServerSettingsProtected(obj: Json)
    requires obj.JObj?
    ensures "server" !in Dict.Keys(FilterNestedDict(obj, "", AllowedPaths))
  {
    ServerPathsNotAllowed();
    TopLevelDropped(obj, AllowedPaths, "server");
  }

  /* ---------- the audience chat parser ---------- */

  /** A generated audience chat. */
  datatype Chat = Chat(username: string, text: string)

  /** What one line of the LLM's text contributes. */
  datatype LineOutcome =
    | NoChat                 // skipped
    | OneChat(chat: Chat)
    | PoolEmpty              // `random.choice` on an empty pool raised

  /**
   * One (already stripped) line.  With a colon, the part before the first
   * colon, stripped, is the username (a blocklisted one is replaced by the
   * pool name `pick` selects) and the stripped rest is the text; both must
   * be non-empty.  Without a colon a non-empty line is the text of a chat
   * from a pool name.
   */
  function ParseLine(line: string, blocklist: seq<string>, pool: seq<string>, pick: nat): (r: LineOutcome)
    ensures r.OneChat? ==> r.chat.text != ""
    ensures r.OneChat? ==> r.chat.username in pool || (r.chat.username != "" && r.chat.username !in blocklist)
    ensures r.OneChat? && ':' in line ==> r.chat.username != ""
    ensures r.OneChat? && ':' !in line ==> r.chat.text == line && r.chat.username in pool
    ensures line == "" ==> r == NoChat
    ensures r.PoolEmpty? ==> pool == []
  {
    var colon := Text.Find(line, ':');
    if colon != -1 then
      var username := Text.Strip(line[..colon]);
      var text := line[colon + 1..];
      if username in blocklist && pool == [] then PoolEmpty
      else
        var name := if username in blocklist then pool[pick % |pool|] else username;
        if name != "" && Text.Strip(text) != "" then OneChat(Chat(name, Text.Strip(text))) else NoChat
    else if line != "" then
      if pool == [] then PoolEmpty else OneChat(Chat(pool[pick % |pool|], line))
    else NoChat
  }

  /** A chat has text, and its name is a pool name or a non-empty name off the blocklist. */
  predicate Sensible(c: Chat, blocklist: seq<string>, pool: seq<string>) {
    c.text != "" && (c.username in pool || (c.username != "" && c.username !in blocklist))
  }

  /**
   * The chats of `lines[i..]` after `acc`, or `None` once a pool choice
   * fails; `pick(j)` is the random choice made on line `j`.
   */
  function ChatsFrom(lines: seq<string>, blocklist: seq<string>, pool: seq<string>, pick: nat -> nat,
                     i: nat, acc: seq<Chat>): (r: Option<seq<Chat>>)
    requires i <= |lines|
    ensures r.Some? ==> |acc| <= |r.value| <= |acc| + |lines| - i && r.value[..|acc|] == acc
    ensures r.None? ==> pool == []
    decreases |lines| - i
  {
    if i == |lines| then Some(acc)
    else
      var outcome := ParseLine(Text.Strip(lines[i]), blocklist, pool, pick(i));
      if outcome.PoolEmpty? then None
      else
        var more := LineChats(outcome);
        var r := ChatsFrom(lines, blocklist, pool, pick, i + 1, acc + more);
        assert r.Some? ==> r.value[..|acc|] == r.value[..|acc + more|][..|acc|];
        r
  }

  /** The chats a parsed line adds. */
  function LineChats(outcome: LineOutcome): (more: seq<Chat>)
    ensures |more| <= 1
  {
    if outcome.OneChat? then [outcome.chat] else []
  }

  /** One step of `ChatsFrom`. */
  lemma ChatsFromStep(lines: seq<string>, blocklist: seq<string>, pool: seq<string>, pick: nat -> nat,
                      i: nat, acc: seq<Chat>)
    requires i < |lines|
    ensures var outcome := ParseLine(Text.Strip(lines[i]), blocklist, pool, pick(i));
      ChatsFrom(lines, blocklist, pool, pick, i, acc)
        == if outcome.PoolEmpty? then None else ChatsFrom(lines, blocklist, pool, pick, i + 1, acc + LineChats(outcome))
  {
  }

  /** Every chat the parser keeps is sensible. */
  lemma {:induction false} ChatsSensible(lines: seq<string>, blocklist: seq<string>, pool: seq<string>,
                                         pick: nat -> nat, i: nat, acc: seq<Chat>)
    requires i <= |lines|
    requires forall j :: 0 <= j < |acc| ==> Sensible(acc[j], blocklist, pool)
    ensures var r := ChatsFrom(lines, blocklist, pool, pick, i, acc);
      r.Some? ==> forall j :: 0 <= j < |r.value| ==> Sensible(r.value[j], blocklist, pool)
    decreases |lines| - i
  {
    if i < |lines| {
      ChatsFromStep(lines, blocklist, pool, pick, i, acc);
      var outcome := ParseLine(Text.Strip(lines[i]), blocklist, pool, pick(i));
      if !outcome.PoolEmpty? {
        var next := acc + LineChats(outcome);
        assert forall j :: 0 <= j < |next| ==> Sensible(next[j], blocklist, pool);
        ChatsSensible(lines, blocklist, pool, pick, i + 1, next);
      }
    }
  }

  /** The first `chatsPerBatch` chats the parser keeps are sensible, and there are at most that many. */
  lemma BatchSensible(lines: seq<string>, blocklist: seq<string>, pool: seq<string>, pick: nat -> nat,
                      chatsPerBatch: int)
    requires ChatsFrom(lines, blocklist, pool, pick, 0, []).Some?
    ensures var kept := Slices.PyHead(ChatsFrom(lines, blocklist, pool, pick, 0, []).value, chatsPerBatch);
      && (chatsPerBatch >= 0 ==> |kept| <= chatsPerBatch)
      && forall j :: 0 <= j < |kept| ==> Sensible(kept[j], blocklist, pool)
  {
    var all := ChatsFrom(lines, blocklist, pool, pick, 0, []).value;
    ChatsSensible(lines, blocklist, pool, pick, 0, []);
    var kept := Slices.PyHead(all, chatsPerBatch);
    forall j | 0 <= j < |kept| ensures Sensible(kept[j], blocklist, pool) {
      assert kept[j] == all[j];
    }
  }

  /**
   * The parsing part of `fetch_and_process_audience_chats`: split the text
   * into lines, parse each, and keep the first `chatsPerBatch`.  `None`
   * when a pool choice raised, which abandons the whole batch.
   */
  method ParseAudienceChats(raw: string, blocklist: seq<string>, pool: seq<string>, pick: nat -> nat,
                            chatsPerBatch: int) returns (r: Option<seq<Chat>>)
    ensures var all := ChatsFrom(Text.Split(raw, '\n'), blocklist, pool, pick, 0, []);
      && (r.None? <==> all.None?)
      && (r.Some? ==> r.value == Slices.PyHead(all.value, chatsPerBatch))
    ensures r.Some? && chatsPerBatch >= 0 ==> |r.value| <= chatsPerBatch
    ensures r.Some? ==> forall j :: 0 <= j < |r.value| ==> Sensible(r.value[j], blocklist, pool)
  {
    var lines := Text.Split(raw, '\n');
    ghost var all := ChatsFrom(lines, blocklist, pool, pick, 0, []);
    var parsed: seq<Chat> := [];
    var i := 0;
    while i < |lines|
      invariant 0 <= i <= |lines|
      invariant all == ChatsFrom(lines, blocklist, pool, pick, i, parsed)
    {
      var line := Text.Strip(lines[i]);
      var outcome := ParseLine(line, blocklist, pool, pick(i));
      ChatsFromStep(lines, blocklist, pool, pick, i, parsed);
      if outcome.PoolEmpty? {
        return None;
      }
      parsed := parsed + LineChats(outcome);
      i := i + 1;
    }
    assert all == Some(parsed);
    BatchSensible(lines, blocklist, pool, pick, chatsPerBatch);
    return Some(Slices.PyHead(parsed, chatsPerBatch));
  }

  /** A line of the form `name:text` from an unblocked name is a chat from that name. */
  lemma NamedLine(name: string, text: string, blocklist: seq<string>, pool: seq<string>, pick: nat)
    requires ':' !in name && Text.Strip(name) == name && name != "" && name !in blocklist
    requires Text.Strip(text) == text && text != ""
    ensures ParseLine(name + ":" + text, blocklist, pool, pick) == OneChat(Chat(name, text))
  {
    var line := name + ":" + text;
    Text.FindAfter(name, ':', ":" + text);
    assert line == name + (":" + text);
    assert line[..|name|] == name;
    assert line[|name| + 1..] == text;
  }

  /* ---------- api_get_logs ---------- */

  /** `api_get_logs` as written: `logs[-lines:]` when there are more logs than `lines`, else all of them. */
  function ApiGetLogs<T>(logs: seq<T>, lines: int): (r: seq<T>)
    ensures lines > 0 ==> r == Slices.LastN(logs, lines)
    ensures lines == 0 ==> r == logs
  {
    if |logs| > lines then Slices.PyTail(logs, lines) else logs
  }

  /** Asking for 0 lines returns every log line. */
  lemma ZeroLinesReturnsAll(logs: seq<string>)
    requires logs != []
    ensures ApiGetLogs(logs, 0) == logs && |ApiGetLogs(logs, 0)| > 0
  {
  }

  /** The log tail the endpoint describes: the last `lines` entries, none for a count of 0 or less. */
  function LastLogs<T>(logs: seq<T>, lines: int): (r: seq<T>)
    ensures |r| <= |logs| && r == logs[|logs| - |r|..]
    ensures |r| == if lines <= 0 then 0 else if lines < |logs| then lines else |logs|
  {
    Slices.LastN(logs, if lines < 0 then 0 else lines)
  }

  /** The two agree for every positive count. */
  lemma LogsAgreeForPositiveCounts<T>(logs: seq<T>, lines: int)
    requires lines > 0
    ensures ApiGetLogs(logs, lines) == LastLogs(logs, lines)
  {
  }
}

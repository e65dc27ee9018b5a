/**
 * The audience chatbot's text handling (server/neuro_simulator/agents/chatbot/core.py):
 * extracting tool calls from the LLM's reply, running them and collecting
 * the chat messages they post, reading back its history file, and listing
 * its tools in the prompt.
 */
module ChatbotCore {
  import opened Wrappers
  import opened Json
  import Dict
  import Text
  import Slices
  import opened ToolSchema
  import AgentOutput

  /** The slice `text[start : end + 1]` between the first `open` and the last `close`, when the last follows the first. */
  function Bracketed(text: string, open: char, close: char): (r: Option<string>)
    ensures r.Some? <==> Text.Find(text, open) != -1 && Text.RFind(text, close) > Text.Find(text, open)
    ensures r.Some? ==> |r.value| >= 2 && r.value[0] == open && r.value[|r.value| - 1] == close
    ensures r.Some? ==> r.value == text[Text.Find(text, open)..Text.RFind(text, close) + 1]
  {
    var s := Text.Find(text, open);
    var e := Text.RFind(text, close);
    if s != -1 && e != -1 && e > s then Some(text[s..e + 1]) else None
  }

  /**
   * `_parse_tool_calls`.  `loads` stands for `json.loads`, `None` for a
   * decode error.  An array slice wins over an object slice; a single
   * object is wrapped in a list; anything else is no calls.
   */
  function ParseToolCalls(text: string, loads: string -> Option<Json>): (r: Json)
    ensures Bracketed(text, '[', ']').Some? ==>
      r == loads(Bracketed(text, '[', ']').value).GetOr(JArr([]))
    ensures Bracketed(text, '[', ']').None? && Bracketed(text, '{', '}').Some? ==>
      var parsed := loads(Bracketed(text, '{', '}').value);
      r == if parsed.Some? && parsed.value.JObj? then JArr([parsed.value])
           else if parsed.Some? && parsed.value.JArr? then parsed.value
           else JArr([])
    ensures Bracketed(text, '[', ']').None? && Bracketed(text, '{', '}').None? ==> r == JArr([])
  {
    var arr := Bracketed(text, '[', ']');
    if arr.Some? then
      loads(arr.value).GetOr(JArr([]))
    else
      var obj := Bracketed(text, '{', '}');
      if obj.None? then JArr([])
      else
        match loads(obj.value)
        case None => JArr([])
        case Some(single) =>
          if single.JObj? then JArr([single])
          else if single.JArr? then single
          else JArr([])
  }

  /** A reply holding one object and no brackets yields exactly that object as the only call. */
  lemma SingleObjectReply(prose: string, obj: string, tail: string, loads: string -> Option<Json>, call: Json)
    requires '[' !in prose + obj + tail && ']' !in prose + obj + tail
    requires '{' !in prose && '}' !in tail
    requires |obj| >= 2 && obj[0] == '{' && obj[|obj| - 1] == '}'
    requires loads(obj) == Some(call) && call.JObj?
    ensures ParseToolCalls(prose + obj + tail, loads) == JArr([call])
  {
    var text := prose + obj + tail;
    assert Text.Find(text, '[') == -1;
    Text.FindAfter(prose, '{', obj + tail);
    assert text == prose + (obj + tail);
    assert Text.RFind(text, '}') == |prose| + |obj| - 1 by {
      assert text[|prose| + |obj| - 1] == '}';
      assert text[|prose| + |obj|..] == tail;
      RFindLast(text, '}', |prose| + |obj| - 1);
    }
    assert text[|prose|..|prose| + |obj|] == obj;
  }

  /** The last occurrence is the index holding the character with none after it. */
  lemma RFindLast(s: string, c: char, i: nat)
    requires i < |s| && s[i] == c && c !in s[i + 1..]
    ensures Text.RFind(s, c) == i
  {
  }

  /* ---------- running the calls ---------- */

  /** A dict entry is one call; a list entry contributes its dict items; anything else nothing. */
  function CallsOf(entry: Json): (calls: seq<seq<(string, Json)>>)
    ensures entry.JObj? ==> calls == [entry.fields]
    ensures !entry.JObj? && !entry.JArr? ==> calls == []
    ensures |calls| <= if entry.JArr? then |entry.items| else 1
  {
    if entry.JObj? then [entry.fields]
    else if entry.JArr? then DictItems(entry.items)
    else []
  }

  /** The dicts among `xs`, in order. */
  function DictItems(xs: seq<Json>): (ds: seq<seq<(string, Json)>>)
    ensures |ds| <= |xs|
    ensures forall d :: d in ds <==> JObj(d) in xs
  {
    if xs == [] then []
    else
      var rest := DictItems(xs[1..]);
      assert forall j :: j in xs <==> j == xs[0] || j in xs[1..];
      if xs[0].JObj? then [xs[0].fields] + rest else rest
  }

  /**
   * `DictItems` is the in-order filter: it keeps a dict as its one item,
   * drops anything else, and distributes over concatenation.
   */
  lemma {:induction false} DictItemsFilter(xs: seq<Json>, ys: seq<Json>, x: Json)
    ensures DictItems([x]) == if x.JObj? then [x.fields] else []
    ensures DictItems(xs + ys) == DictItems(xs) + DictItems(ys)
    decreases |xs|
  {
    if xs != [] {
      assert (xs + ys)[1..] == xs[1..] + ys;
      DictItemsFilter(xs[1..], ys, x);
    } else {
      assert xs + ys == ys;
    }
  }

  /** All calls of the parsed list, nested lists flattened one level. */
  function Flatten(entries: seq<Json>): (calls: seq<seq<(string, Json)>>)
  {
    if entries == [] then [] else CallsOf(entries[0]) + Flatten(entries[1..])
  }

  /** A message a tool call generated: the nickname and the text to post. */
  datatype Posted = Posted(username: string, text: Json)

  /**
   * What one call contributes: nothing without a truthy name; otherwise the
   * tool runs (`run` stands for `ToolManager.execute_tool`), and only a
   * successful `post_chat_message` of the chatbot with a truthy text posts.
   * `None`: the parameters are not a dict, so `**params` raises.
   */
  function CallMessage(call: seq<(string, Json)>, agentName: string,
                       run: (Json, seq<(string, Json)>) -> seq<(string, Json)>, nickname: string): (r: Option<seq<Posted>>)
    ensures r.Some? ==> |r.value| <= 1
    ensures r.None? <==>
      Truthy(Dict.Get(call, "name").GetOr(JNull)) && !Dict.Get(call, "params").GetOr(JObj([])).JObj?
    ensures var params := Dict.Get(call, "params").GetOr(JObj([]));
      var result := if params.JObj? then run(JStr("post_chat_message"), params.fields) else [];
      var text := Dict.Get(result, "text_to_post").GetOr(JStr(""));
      (r.Some? && r.value != []) <==>
        && agentName == "chatbot"
        && Dict.Get(call, "name") == Some(JStr("post_chat_message"))
        && params.JObj?
        && PyEq(Dict.Get(result, "status").GetOr(JNull), JStr("success"))
        && Truthy(text)
    ensures r.Some? && r.value != [] ==>
      r.value == [Posted(nickname, Dict.Get(run(JStr("post_chat_message"), Dict.Get(call, "params").GetOr(JObj([])).fields), "text_to_post").GetOr(JStr("")))]
  {
    var toolName := Dict.Get(call, "name").GetOr(JNull);
    if !Truthy(toolName) then Some([])
    else
      var params := Dict.Get(call, "params").GetOr(JObj([]));
      if !params.JObj? then None
      else
        var result := run(toolName, params.fields);
        if agentName == "chatbot" && toolName == JStr("post_chat_message")
           && PyEq(Dict.Get(result, "status").GetOr(JNull), JStr("success")) then
          var text := Dict.Get(result, "text_to_post").GetOr(JStr(""));
          if Truthy(text) then Some([Posted(nickname, text)]) else Some([])
        else Some([])
  }

  /** The messages a run of calls posted, and whether a call raised and ended it. */
  datatype Run = Run(posted: seq<Posted>, raised: bool)

  /**
   * The messages a run of `calls` generates after `acc` was generated
   * already; the `k`-th message posted gets nickname `nick(k)`, standing for
   * the random nickname generator.  A call that raises ends the run.
   */
  function Generated(calls: seq<seq<(string, Json)>>, agentName: string,
                     run: (Json, seq<(string, Json)>) -> seq<(string, Json)>, nick: nat -> string,
                     acc: seq<Posted>): (r: Run)
    ensures |acc| <= |r.posted| <= |acc| + |calls| && r.posted[..|acc|] == acc
    ensures agentName != "chatbot" ==> r.posted == acc
    ensures forall i :: |acc| <= i < |r.posted| ==> Truthy(r.posted[i].text)
  {
    if calls == [] then Run(acc, false)
    else
      match CallMessage(calls[0], agentName, run, nick(|acc|))
      case None => Run(acc, true)
      case Some(m) =>
        var r := Generated(calls[1..], agentName, run, nick, acc + m);
        assert r.posted[..|acc|] == (r.posted[..|acc + m|])[..|acc|];
        r
  }

  /** The calls from entry `i` on are entry `i`'s calls followed by the later entries' calls. */
  lemma FlattenStep(entries: seq<Json>, i: nat)
    requires i < |entries|
    ensures Flatten(entries[i..]) == CallsOf(entries[i]) + Flatten(entries[i + 1..])
  {
    assert entries[i..][0] == entries[i] && entries[i..][1..] == entries[i + 1..];
  }

  /** Running the calls from `j` on: call `j` either raises, or adds its message and the run goes on from `j + 1`. */
  lemma GeneratedStep(calls: seq<seq<(string, Json)>>, j: nat, tail: seq<seq<(string, Json)>>, agentName: string,
                      run: (Json, seq<(string, Json)>) -> seq<(string, Json)>, nick: nat -> string,
                      acc: seq<Posted>)
    requires j < |calls|
    ensures var m := CallMessage(calls[j], agentName, run, nick(|acc|));
      && (m.None? ==> Generated(calls[j..] + tail, agentName, run, nick, acc) == Run(acc, true))
      && (m.Some? ==> Generated(calls[j..] + tail, agentName, run, nick, acc)
                      == Generated(calls[j + 1..] + tail, agentName, run, nick, acc + m.value))
  {
    var all := calls[j..] + tail;
    assert all[0] == calls[j] && all[1..] == calls[j + 1..] + tail;
  }

  /** How a run of `_execute_tool_calls` ends: the generated messages, or the exception. */
  datatype Execution = Messages(messages: seq<Posted>) | Raised

  /** The `chat_message` output a posted message is also sent as, stamped `now`. */
  function ChatOutput(agentType: string, m: Posted, now: real): (p: Json)
    ensures Field(p, "type") == Some(JStr("chat_message"))
    ensures Field(p, "payload").Some?
    ensures Field(Field(p, "payload").value, "username") == Some(JStr(m.username))
    ensures Field(Field(p, "payload").value, "text") == Some(m.text)
  {
    AgentOutput.CustomPack(agentType, "chat_message", ChatPayload(m), now)
  }

  /** `{"username": nickname, "text": text_to_post}`. */
  function ChatPayload(m: Posted): (payload: Json)
    ensures Field(payload, "username") == Some(JStr(m.username)) && Field(payload, "text") == Some(m.text)
  {
    JObj(Dict.Set(Dict.Set([], "username", JStr(m.username)), "text", m.text))
  }

  /** The outputs of the posted messages in order, the `k`-th stamped `stamp(k)`. */
  function ChatOutputs(agentType: string, posted: seq<Posted>, stamp: nat -> real): (ps: seq<Json>)
    ensures |ps| == |posted|
  {
    if posted == [] then []
    else ChatOutputs(agentType, posted[..|posted| - 1], stamp) + [ChatOutput(agentType, posted[|posted| - 1], stamp(|posted| - 1))]
  }

  /** The `k`-th output is the `k`-th posted message's, stamped `stamp(k)`. */
  lemma {:induction false} ChatOutputsAt(agentType: string, posted: seq<Posted>, stamp: nat -> real, k: nat)
    requires k < |posted|
    ensures ChatOutputs(agentType, posted, stamp)[k] == ChatOutput(agentType, posted[k], stamp(k))
  {
    if k < |posted| - 1 {
      ChatOutputsAt(agentType, posted[..|posted| - 1], stamp, k);
    }
  }

  /**
   * `_execute_tool_calls` with `_execute_single_tool_call`: the nested loop
   * over the parsed entries, appending to `generated_messages` and sending
   * every posted message to the output manager `om`, when there is one, as
   * a `chat_message` output; `stamp(k)` is the clock when the `k`-th is sent.
   * Messages sent before a call raised stay sent.
   */
  method ExecuteToolCalls(toolCalls: seq<Json>, agentName: string,
                          run: (Json, seq<(string, Json)>) -> seq<(string, Json)>, nick: nat -> string,
                          om: AgentOutput.OutputManager?, stamp: nat -> real)
    returns (r: Execution)
    modifies om
    ensures var g := Generated(Flatten(toolCalls), agentName, run, nick, []);
      (r.Raised? <==> g.raised) && (r.Messages? ==> r.messages == g.posted)
    ensures om != null ==>
      var outs := ChatOutputs(om.agentType, Generated(Flatten(toolCalls), agentName, run, nick, []).posted, stamp);
      && om.delivered == old(om.delivered) + (if om.hasCallback then outs else [])
      && om.queue == AgentOutput.OfferAll(old(om.queue), om.maxsize, outs)
  {
    ghost var delivered := if om != null then om.delivered else [];
    ghost var queue := if om != null then om.queue else [];
    var generated: seq<Posted> := [];
    var i := 0;
    while i < |toolCalls|
      invariant 0 <= i <= |toolCalls|
      invariant Generated(Flatten(toolCalls), agentName, run, nick, [])
             == Generated(Flatten(toolCalls[i..]), agentName, run, nick, generated)
      invariant om != null ==> Holds(om, delivered, queue, generated, stamp)
    {
      FlattenStep(toolCalls, i);
      var raised;
      generated, raised := ExecuteEntry(CallsOf(toolCalls[i]), Flatten(toolCalls[i + 1..]), agentName, run, nick,
                                        om, delivered, queue, stamp, generated);
      if raised {
        assert Generated(Flatten(toolCalls), agentName, run, nick, []) == Run(generated, true);
        return Raised;
      }
      i := i + 1;
    }
    assert toolCalls[i..] == [];
    assert Generated(Flatten(toolCalls), agentName, run, nick, []) == Run(generated, false);
    return Messages(generated);
  }

  /** What `om` holds after the outputs of `posted` were sent, starting from `delivered` and `queue`. */
  ghost predicate Holds(om: AgentOutput.OutputManager, delivered: seq<Json>, queue: seq<Json>,
                        posted: seq<Posted>, stamp: nat -> real)
    reads om
  {
    && om.delivered == delivered + (if om.hasCallback then ChatOutputs(om.agentType, posted, stamp) else [])
    && om.queue == AgentOutput.OfferAll(queue, om.maxsize, ChatOutputs(om.agentType, posted, stamp))
  }

  /**
   * The inner loop over the calls of one entry, after `generated0` was
   * generated; `rest` is the calls of the later entries.
   */
  method ExecuteEntry(calls: seq<seq<(string, Json)>>, ghost rest: seq<seq<(string, Json)>>, agentName: string,
                      run: (Json, seq<(string, Json)>) -> seq<(string, Json)>, nick: nat -> string,
                      om: AgentOutput.OutputManager?, ghost delivered: seq<Json>, ghost queue: seq<Json>,
                      stamp: nat -> real, generated0: seq<Posted>)
    returns (generated: seq<Posted>, raised: bool)
    modifies om
    requires om != null ==> Holds(om, delivered, queue, generated0, stamp)
    ensures raised ==> Generated(calls + rest, agentName, run, nick, generated0) == Run(generated, true)
    ensures !raised ==> Generated(calls + rest, agentName, run, nick, generated0) == Generated(rest, agentName, run, nick, generated)
    ensures om != null ==> Holds(om, delivered, queue, generated, stamp)
  {
    generated := generated0;
    var j := 0;
    while j < |calls|
      invariant 0 <= j <= |calls|
      invariant Generated(calls + rest, agentName, run, nick, generated0)
             == Generated(calls[j..] + rest, agentName, run, nick, generated)
      invariant om != null ==> Holds(om, delivered, queue, generated, stamp)
    {
      GeneratedStep(calls, j, rest, agentName, run, nick, generated);
      var m := CallMessage(calls[j], agentName, run, nick(|generated|));
      if m.None? {
        return generated, true;
      }
      assert m.value == [] || m.value == [m.value[0]];
      if m.value != [] && om != null {
        ghost var sent := ChatOutputs(om.agentType, generated, stamp);
        SendChat(om, m.value[0], stamp(|generated|));
        SendOneMore(delivered, queue, om.hasCallback, om.maxsize, sent,
                    ChatOutput(om.agentType, m.value[0], stamp(|generated|)), om.delivered, om.queue);
        ChatOutputsSnoc(om.agentType, generated, m.value[0], stamp);
      }
      generated := generated + m.value;
      j := j + 1;
    }
    assert calls[j..] + rest == rest;
    return generated, false;
  }

  /** `send_custom_output(output_type="chat_message", payload={"username": ..., "text": ...})`. */
  method SendChat(om: AgentOutput.OutputManager, m: Posted, now: real)
    modifies om
    ensures om.delivered == old(om.delivered) + if om.hasCallback then [ChatOutput(om.agentType, m, now)] else []
    ensures om.queue == AgentOutput.Offer(old(om.queue), om.maxsize, ChatOutput(om.agentType, m, now))
  {
    om.SendCustomOutput("chat_message", ChatPayload(m), now);
  }

  /** The `chat_message` outputs of one more posted message end with that message's output. */
  lemma ChatOutputsSnoc(agentType: string, posted: seq<Posted>, m: Posted, stamp: nat -> real)
    ensures ChatOutputs(agentType, posted + [m], stamp)
         == ChatOutputs(agentType, posted, stamp) + [ChatOutput(agentType, m, stamp(|posted|))]
  {
    assert (posted + [m])[..|posted|] == posted;
  }

  /**
   * Sending one more pack `p` after the packs `outs` leaves the callback
   * and the queue as sending `outs + [p]` from the start would.
   */
  lemma {:induction false} SendOneMore(delivered: seq<Json>, queue: seq<Json>, hasCallback: bool, maxsize: nat,
                                       outs: seq<Json>, p: Json, delivered': seq<Json>, queue': seq<Json>)
    requires delivered' == delivered + (if hasCallback then outs else []) + (if hasCallback then [p] else [])
    requires queue' == AgentOutput.Offer(AgentOutput.OfferAll(queue, maxsize, outs), maxsize, p)
    ensures delivered' == delivered + (if hasCallback then outs + [p] else [])
    ensures queue' == AgentOutput.OfferAll(queue, maxsize, outs + [p])
  {
    assert (outs + [p])[..|outs|] == outs;
  }

  /* ---------- history ---------- */

  /**
   * `_read_history`: the last `limit` lines of the history file, each
   * decoded; a missing file (`None`) or any undecodable line gives nothing.
   */
  function ReadHistory(lines: Option<seq<string>>, limit: int, loads: string -> Option<Json>): (r: seq<Json>)
    ensures lines.None? ==> r == []
    ensures lines.Some? ==>
      var tail := Slices.PyTail(lines.value, limit);
      && ((forall i :: 0 <= i < |tail| ==> loads(tail[i]).Some?) ==>
            |r| == |tail| && forall i :: 0 <= i < |r| ==> loads(tail[i]) == Some(r[i]))
      && ((exists i :: 0 <= i < |tail| && loads(tail[i]).None?) ==> r == [])
    ensures lines.Some? && limit > 0 ==> |r| <= limit
  {
    if lines.None? then []
    else
      var tail := Slices.PyTail(lines.value, limit);
      if forall i :: 0 <= i < |tail| ==> loads(tail[i]).Some? then
        seq(|tail|, i requires 0 <= i < |tail| => loads(tail[i]).value)
      else []
  }

  /**
   * When every line decodes, the history holds the last `limit` entries for
   * a positive limit (the chatbot's default 20, and 10 for its prompt), and
   * every entry for a limit of 0.
   */
  lemma {:induction false} ReadHistoryCount(lines: seq<string>, limit: int, loads: string -> Option<Json>)
    requires forall l :: l in lines ==> loads(l).Some?
    ensures limit > 0 ==> |ReadHistory(Some(lines), limit, loads)| == if |lines| < limit then |lines| else limit
    ensures limit == 0 ==> |ReadHistory(Some(lines), limit, loads)| == |lines|
  {
    var tail := Slices.PyTail(lines, limit);
    forall i | 0 <= i < |tail| ensures loads(tail[i]).Some? {
      assert tail[i] in lines;
    }
  }

  /* ---------- the tool list in the prompt ---------- */

  /** `{name}: {type}` for each parameter, comma separated. */
  function ParamList(ps: seq<Param>): string {
    Text.Join(ParamTexts(ps), ", ")
  }

  function ParamTexts(ps: seq<Param>): (texts: seq<string>)
    ensures |texts| == |ps| && forall i :: 0 <= i < |ps| ==> texts[i] == ps[i].name + ": " + ps[i].typ
  {
    seq(|ps|, i requires 0 <= i < |ps| => ps[i].name + ": " + ps[i].typ)
  }

  /** The numbered line of the `i`-th tool (from 0). */
  function ToolLine(i: nat, s: Schema): (line: string)
    ensures |line| >= |Text.NatToString(i + 1)| + 2
    ensures line[..|Text.NatToString(i + 1)| + 2] == Text.NatToString(i + 1) + ". "
  {
    var line := Text.NatToString(i + 1) + ". " + s.name + "(" + ParamList(s.parameters) + ") - " + s.description;
    assert line == (Text.NatToString(i + 1) + ". ") + (s.name + "(" + ParamList(s.parameters) + ") - " + s.description);
    line
  }

  /** `_format_tool_schemas_for_prompt`. */
  function FormatToolSchemas(schemas: seq<Schema>): (text: string)
    ensures schemas == [] ==> text == "No tools available."
  {
    if schemas == [] then "No tools available."
    else Text.Join(["Available tools:"] + seq(|schemas|, i requires 0 <= i < |schemas| => ToolLine(i, schemas[i])), "\n")
  }

  /** No newline in a tool's name, description or parameters. */
  predicate SingleLine(s: Schema) {
    '\n' !in s.name && '\n' !in s.description
    && forall i :: 0 <= i < |s.parameters| ==> '\n' !in s.parameters[i].name && '\n' !in s.parameters[i].typ
  }

  /**
   * The listing reads back line by line: a header, then one line per tool
   * numbered from 1 in order.
   */
  lemma ToolListingLines(schemas: seq<Schema>)
    requires schemas != [] && forall i :: 0 <= i < |schemas| ==> SingleLine(schemas[i])
    ensures var lines := Text.Split(FormatToolSchemas(schemas), '\n');
      && |lines| == |schemas| + 1 && lines[0] == "Available tools:"
      && forall i :: 0 <= i < |schemas| ==> lines[i + 1] == ToolLine(i, schemas[i])
  {
    var body := seq(|schemas|, i requires 0 <= i < |schemas| => ToolLine(i, schemas[i]));
    forall i | 0 <= i < |schemas| ensures '\n' !in ToolLine(i, schemas[i]) {
      NoNewlineInToolLine(i, schemas[i]);
    }
    assert FormatToolSchemas(schemas) == Text.Join(["Available tools:"] + body, ['\n']);
    Text.SplitJoin(["Available tools:"] + body, '\n');
  }

  /** A tool line built from single-line parts is itself one line. */
  lemma NoNewlineInToolLine(i: nat, s: Schema)
    requires SingleLine(s)
    ensures '\n' !in ToolLine(i, s)
  {
    Text.JoinKeepsOut(ParamTexts(s.parameters), ", ", '\n');
    var number := Text.NatToString(i + 1);
    assert '\n' !in number by {
      forall j | 0 <= j < |number| ensures number[j] != '\n' {
        assert '0' <= number[j] <= '9';
      }
    }
  }
}

/**
 * The standalone agent service's message handling
 * (server/neuro_simulator/neuro_sama/api.py): decoding an LLM reply into
 * tool calls, turning one tool call into an output pack, and the
 * per-connection loop with its busy flag, its window of recent messages
 * and the streaming parser it keeps across messages.
 *
 * `json.loads` is the oracle `loads` (`None` for a decode error); speech
 * synthesis is the oracle `tts` (`None` for any exception it raises); the
 * LLM's streamed reply is the sequence of its text chunks.
 */
module NeuroSamaApi {
  import opened Wrappers
  import opened Json
  import Dict
  import Text
  import Slices
  import ChatbotCore
  import OutputPacks
  import StreamParser

  /* ---------- parse_json_response ---------- */

  /**
   * `parse_json_response`.  An array slice (first `[` to last `]`) is parsed
   * and a non-list result wrapped; otherwise the stripped text is parsed, a
   * dict is wrapped and any other value is returned as it is; a decode
   * error gives `[]`.
   */
  function ParseJsonResponse(text: string, loads: string -> Option<Json>): (r: Json)
    ensures var s := Text.Find(text, '[');
      var e := Text.RFind(text, ']') + 1;
      s != -1 && s < e ==>
        r == match loads(text[s..e])
             case None => JArr([])
             case Some(parsed) => if parsed.JArr? then parsed else JArr([parsed])
    ensures var s := Text.Find(text, '[');
      var e := Text.RFind(text, ']') + 1;
      !(s != -1 && s < e) ==>
        r == match loads(Text.Strip(text))
             case None => JArr([])
             case Some(parsed) => if parsed.JObj? then JArr([parsed]) else parsed
  {
    var startIdx := Text.Find(text, '[');
    var endIdx := Text.RFind(text, ']') + 1;
    if startIdx != -1 && endIdx != -1 && startIdx < endIdx then
      match loads(text[startIdx..endIdx])
      case None => JArr([])
      case Some(parsed) => if parsed.JArr? then parsed else JArr([parsed])
    else
      match loads(Text.Strip(text))
      case None => JArr([])
      case Some(parsed) => if parsed.JObj? then JArr([parsed]) else parsed
  }

  /**
   * The array branch is taken exactly when the reply has a `[` followed
   * somewhere by a `]`: the slice is the chatbot parser's bracketed slice,
   * and the two parsers agree on it unless it decodes to something other
   * than a list, which only this one wraps.
   */
  lemma ArrayRepliesAgree(text: string, loads: string -> Option<Json>)
    requires ChatbotCore.Bracketed(text, '[', ']').Some?
    ensures var slice := ChatbotCore.Bracketed(text, '[', ']').value;
      && (loads(slice).None? || loads(slice).value.JArr? ==>
            ParseJsonResponse(text, loads) == ChatbotCore.ParseToolCalls(text, loads))
      && (loads(slice).Some? && !loads(slice).value.JArr? ==>
            ParseJsonResponse(text, loads) == JArr([loads(slice).value]))
  {
    var s := Text.Find(text, '[');
    var e := Text.RFind(text, ']');
    assert s < e + 1;
    assert text[s..e + 1] == ChatbotCore.Bracketed(text, '[', ']').value;
  }

  /** Without any `[` a reply that decodes to a scalar comes back as that scalar, not as a list. */
  lemma ScalarReplyUnwrapped(text: string, loads: string -> Option<Json>, value: Json)
    requires '[' !in text
    requires loads(Text.Strip(text)) == Some(value) && !value.JObj?
    ensures ParseJsonResponse(text, loads) == value
  {
  }

  /* ---------- execute_tool_and_get_output_pack ---------- */

  /** What `execute_tool_and_get_output_pack` ends in: no pack, a pack, or an exception it lets through. */
  datatype PackOutcome =
    | NoPack
    | Pack(pack: Json)
    | Raised(error: string)

  /** Python raises `TypeError` when a list or dict is looked up as a dict key. */
  predicate Hashable(j: Json) {
    !j.JArr? && !j.JObj?
  }

  /** The call's arguments: `params` when it is truthy, else `parameters`, else `{}`. */
  function ToolParams(call: Json): (params: Json)
    requires call.JObj?
    ensures Truthy(Field(call, "params").GetOr(JNull)) ==> params == Field(call, "params").value
    ensures !Truthy(Field(call, "params").GetOr(JNull)) && Field(call, "parameters").Some? ==>
      params == Field(call, "parameters").value
    ensures !Truthy(Field(call, "params").GetOr(JNull)) && Field(call, "parameters").None? ==>
      params == JObj([])
  {
    var params := Field(call, "params").GetOr(JNull);
    if Truthy(params) then params else Field(call, "parameters").GetOr(JObj([]))
  }

  /**
   * The agent's `speak` tool: it accepts a non-empty string `text` and
   * reports it back as `spoken_text`; otherwise it raises (`None`).
   */
  function SpokenText(params: Json): (r: Option<string>)
    ensures r.Some? <==> exists t :: Field(params, "text") == Some(JStr(t)) && t != ""
    ensures r.Some? ==> Field(params, "text") == Some(JStr(r.value))
  {
    match Field(params, "text")
    case Some(JStr(t)) => if t != "" then Some(t) else None
    case _ => None
  }

  /**
   * `execute_tool_and_get_output_pack`.  `tools` are the registered tool
   * names and `tts` synthesizes speech for a text.  Only a registered
   * `speak` call whose text is a non-empty string produces a pack; a
   * failed synthesis still produces one, with no audio and duration 0.
   * An unhashable name makes the registry lookup raise, outside the
   * `try`; every exception inside the `try` is swallowed into no pack.
   */
  function ExecuteToolAndGetOutputPack(call: Json, tools: seq<string>, tts: string -> Option<(string, real)>,
                                       inputData: Json): (r: PackOutcome)
    ensures !call.JObj? ==> r == NoPack
    ensures r.Raised? <==>
      call.JObj? && var name := Field(call, "name").GetOr(JNull); Truthy(name) && !Hashable(name)
    ensures r.Raised? ==> r.error == "TypeError"
    ensures r.Pack? <==>
      && call.JObj?
      && Field(call, "name") == Some(JStr("speak"))
      && "speak" in tools
      && ToolParams(call).JObj?
      && SpokenText(ToolParams(call)).Some?
    ensures r.Pack? ==>
      var text := SpokenText(ToolParams(call)).value;
      var speech := tts(text);
      var audio := if speech.Some? then speech.value.0 else "";
      var duration := if speech.Some? then speech.value.1 else 0.0;
      r.pack == OutputPacks.CreateSpeakOutput(text, audio, duration, inputData)
  {
    if !call.JObj? then NoPack
    else
      var name := Field(call, "name").GetOr(JNull);
      var params := ToolParams(call);
      if !Truthy(name) then NoPack
      else if !Hashable(name) then Raised("TypeError")
      else if !(name.JStr? && name.s in tools) then NoPack
      else if !params.JObj? then NoPack                     // `**params` of a non-mapping raises TypeError
      else if name.s != "speak" then NoPack
      else
        match SpokenText(params)
        case None => NoPack                                 // the tool raised ValueError
        case Some(text) =>
          var speech := tts(text);
          var audio := if speech.Some? then speech.value.0 else "";
          var duration := if speech.Some? then speech.value.1 else 0.0;
          Pack(OutputPacks.CreateSpeakOutput(text, audio, duration, inputData))
  }

  /** Any other registered tool runs for its effect and yields no pack. */
  lemma OnlySpeakYieldsPacks(call: Json, tools: seq<string>, tts: string -> Option<(string, real)>, inputData: Json)
    requires call.JObj? && Field(call, "name").Some? && Field(call, "name").value.JStr?
    requires Field(call, "name").value.s != "speak"
    ensures ExecuteToolAndGetOutputPack(call, tools, tts, inputData) == NoPack
  {
  }

  /* ---------- handle_websocket_communication ---------- */

  /** One entry of the session's recent-message window. */
  datatype UserMessage = UserMessage(user: Json, content: Json)

  /** The window keeps the last 20 messages. */
  const RecentLimit := 20

  /** `"".join` of the streamed chunks: the reply as one text. */
  function Concat(chunks: seq<string>): string {
    if chunks == [] then "" else chunks[0] + Concat(chunks[1..])
  }

  /** How handling the objects of a reply, in order, ends: every pack sent, or an exception after some of them. */
  datatype Replay = Done(sent: seq<Json>) | Broken(sent: seq<Json>)

  /**
   * The packs sent for the tool calls `objs`, after those already `sent`:
   * each produced pack in order, stopping at the first exception.
   */
  function Replayed(objs: seq<Json>, tools: seq<string>, tts: string -> Option<(string, real)>, inputData: Json,
                    sent: seq<Json>): (r: Replay)
    ensures |sent| <= |r.sent| <= |sent| + |objs| && r.sent[..|sent|] == sent
  {
    if objs == [] then Done(sent)
    else
      var outcome := ExecuteToolAndGetOutputPack(objs[0], tools, tts, inputData);
      if outcome.Raised? then Broken(sent)
      else
        var more := PacksOf(outcome);
        var r := Replayed(objs[1..], tools, tts, inputData, sent + more);
        assert r.sent[..|sent|] == r.sent[..|sent + more|][..|sent|];
        r
  }

  /** The packs one handled object adds. */
  function PacksOf(outcome: PackOutcome): (more: seq<Json>)
    ensures |more| <= 1
  {
    if outcome.Pack? then [outcome.pack] else []
  }

  /** One step of `Replayed`. */
  lemma ReplayedStep(objs: seq<Json>, tools: seq<string>, tts: string -> Option<(string, real)>, inputData: Json,
                     sent: seq<Json>)
    requires objs != []
    ensures var outcome := ExecuteToolAndGetOutputPack(objs[0], tools, tts, inputData);
      Replayed(objs, tools, tts, inputData, sent)
        == if outcome.Raised? then Broken(sent) else Replayed(objs[1..], tools, tts, inputData, sent + PacksOf(outcome))
  {
  }

  /**
   * The inner loop over the objects one `feed` returned: handle each in
   * order after the packs already `sent`.  Stopping at an exception or
   * running to the end, it is the start of handling every later object too.
   */
  method SendPacks(objs: seq<Json>, ghost later: seq<Json>, tools: seq<string>,
                   tts: string -> Option<(string, real)>, inputData: Json, sent: seq<Json>) returns (r: Replay)
    ensures r.Broken? ==> Replayed(objs + later, tools, tts, inputData, sent) == r
    ensures r.Done? ==> Replayed(objs + later, tools, tts, inputData, sent) == Replayed(later, tools, tts, inputData, r.sent)
  {
    var packs := sent;
    var j := 0;
    while j < |objs|
      invariant 0 <= j <= |objs|
      invariant Replayed(objs + later, tools, tts, inputData, sent) == Replayed(objs[j..] + later, tools, tts, inputData, packs)
    {
      assert (objs[j..] + later)[0] == objs[j];
      assert (objs[j..] + later)[1..] == objs[j + 1..] + later;
      ReplayedStep(objs[j..] + later, tools, tts, inputData, packs);
      var outcome := ExecuteToolAndGetOutputPack(objs[j], tools, tts, inputData);
      if outcome.Raised? {
        return Broken(packs);
      }
      packs := packs + PacksOf(outcome);
      j := j + 1;
    }
    assert objs[j..] + later == later;
    return Done(packs);
  }

  /** The `"error"` message sent back while another message is being processed. */
  function BusyError(): (p: Json)
    ensures Field(p, "type") == Some(JStr("error"))
    ensures Field(p, "message") == Some(JStr("Module is currently processing, please wait"))
  {
    JObj(Dict.Set(Dict.Set([], "type", JStr("error")), "message", JStr("Module is currently processing, please wait")))
  }

  /** What handling one received message comes to. */
  datatype Reply =
    | Busy(error: Json)            // rejected: the flag was set
    | Answered(sent: seq<Json>)    // every pack, then the completion marker
    | Ended(sent: seq<Json>)       // an exception: the packs sent before it; the connection loop ends

  /** The module-level flag shared by every connection. */
  class Server {
    var isProcessing: bool

    constructor ()
      ensures !isProcessing
    {
      isProcessing := false;
    }
  }

  /** A buffer on which the parser's loop stops at once, whatever `json.loads` says. */
  predicate Idle(buf: string) {
    StreamParser.NextStart(buf) == -1 || StreamParser.MatchEnd(buf, StreamParser.NextStart(buf)) == -1
  }

  /** The joined chunks from `k` on are chunk `k` followed by the rest. */
  lemma ConcatStep(chunks: seq<string>, k: nat)
    requires k < |chunks|
    ensures Concat(chunks[k..]) == chunks[k] + Concat(chunks[k + 1..])
  {
    assert chunks[k..][0] == chunks[k] && chunks[k..][1..] == chunks[k + 1..];
  }

  /**
   * Feeding one chunk and then the rest of the reply: the chunk's objects
   * come first, the parser is idle after the chunk, and the rest is parsed
   * from the buffer the chunk left.
   */
  lemma ChunkStep(buf: string, chunk: string, more: string, loads: string -> Option<Json>)
    ensures var fed := StreamParser.Scan(buf + chunk, loads);
      var after := StreamParser.Scan(fed.rest + more, loads);
      && Idle(fed.rest)
      && StreamParser.Scan(buf + (chunk + more), loads) == StreamParser.Scanned(fed.objects + after.objects, after.rest)
  {
    assert buf + (chunk + more) == (buf + chunk) + more;
    StreamParser.ScanSplit(buf + chunk, more, loads);
    StreamParser.ScanStopsAtIncomplete(buf + chunk, loads);
  }

  /** An idle buffer yields nothing and is kept as it is. */
  lemma IdleScan(buf: string, loads: string -> Option<Json>)
    requires Idle(buf)
    ensures StreamParser.Scan(buf, loads) == StreamParser.Scanned([], buf)
  {
    assert StreamParser.Step(buf, loads).Stop?;
  }

  /** One connection: its recent messages and its streaming parser, both kept across messages. */
  class Session {
    var recent: seq<UserMessage>
    /** Every message this session has accepted, oldest first. */
    ghost var accepted: seq<UserMessage>
    const server: Server
    const parser: StreamParser.StreamingJsonParser

    /**
     * The window is the last (at most) 20 accepted messages, and the
     * parser holds no complete candidate object between feeds.
     */
    ghost predicate Valid()
      reads this, parser
    {
      recent == Slices.LastN(accepted, RecentLimit) && Idle(parser.buffer)
    }

    constructor (server: Server)
      ensures Valid() && recent == [] && accepted == []
      ensures this.server == server && fresh(parser) && parser.buffer == []
    {
      recent := [];
      accepted := [];
      this.server := server;
      parser := new StreamParser.StreamingJsonParser();
    }

    /**
     * Append a message to the window and drop the oldest one if that
     * makes it longer than 20: the window stays the last 20 accepted.
     */
    method Remember(m: UserMessage)
      requires Valid()
      modifies this
      ensures Valid() && accepted == old(accepted) + [m] && parser.buffer == old(parser.buffer)
      ensures |recent| <= RecentLimit && recent != [] && recent[|recent| - 1] == m
      ensures recent == if |old(recent)| < RecentLimit then old(recent) + [m] else old(recent)[1..] + [m]
    {
      accepted := accepted + [m];
      recent := recent + [m];
      if |recent| > RecentLimit {
        recent := recent[1..];
      }
      assert accepted[..|accepted| - 1] == old(accepted);
    }

    /**
     * Feed the streamed chunks to the session's parser and handle every
     * complete object as it appears, sending the packs produced; an
     * exception from a tool call stops everything.  Empty chunks are
     * skipped.  The packs sent are those of the objects one parse of the
     * parser's old buffer followed by the whole reply finds.
     */
    method Stream(chunks: seq<string>, loads: string -> Option<Json>, tools: seq<string>,
                  tts: string -> Option<(string, real)>, inputData: Json) returns (r: Replay)
      requires Idle(parser.buffer)
      modifies parser
      ensures Idle(parser.buffer)
      ensures var whole := StreamParser.Scan(old(parser.buffer) + Concat(chunks), loads);
        r == Replayed(whole.objects, tools, tts, inputData, [])
      ensures r.Done? ==> parser.buffer == StreamParser.Scan(old(parser.buffer) + Concat(chunks), loads).rest
    {
      ghost var whole := StreamParser.Scan(parser.buffer + Concat(chunks), loads);
      ghost var target := Replayed(whole.objects, tools, tts, inputData, []);
      var sent: seq<Json> := [];
      var k := 0;
      while k < |chunks|
        invariant 0 <= k <= |chunks|
        invariant Idle(parser.buffer)
        invariant target == Replayed(StreamParser.Scan(parser.buffer + Concat(chunks[k..]), loads).objects,
                                     tools, tts, inputData, sent)
        invariant StreamParser.Scan(parser.buffer + Concat(chunks[k..]), loads).rest == whole.rest
      {
        ConcatStep(chunks, k);
        if chunks[k] != "" {
          ChunkStep(parser.buffer, chunks[k], Concat(chunks[k + 1..]), loads);
          var objs := parser.Feed(chunks[k], loads);
          ghost var later := StreamParser.Scan(parser.buffer + Concat(chunks[k + 1..]), loads).objects;
          var replay := SendPacks(objs, later, tools, tts, inputData, sent);
          if replay.Broken? {
            return replay;
          }
          sent := replay.sent;
        } else {
          assert chunks[k] + Concat(chunks[k + 1..]) == Concat(chunks[k + 1..]);
        }
        k := k + 1;
      }
      assert chunks[k..] == [];
      assert parser.buffer + Concat(chunks[k..]) == parser.buffer;
      IdleScan(parser.buffer, loads);
      return Done(sent);
    }

    /**
     * One pass of the receive loop for the message `data`.  While the flag
     * is set the message is refused with an error and nothing changes.
     * Otherwise the flag is held for the duration and always released:
     * a non-dict message ends the connection before it is remembered;
     * a dict's `content` (default `""`) and `user` (default `"user"`) are
     * remembered, the reply `chunks` are streamed, and the completion
     * marker follows the packs unless a tool call raised.
     */
    method HandleMessage(data: Json, chunks: seq<string>, loads: string -> Option<Json>, tools: seq<string>,
                         tts: string -> Option<(string, real)>) returns (reply: Reply)
      requires Valid()
      modifies this, server, parser
      ensures Valid()
      ensures old(server.isProcessing) ==>
        && reply == Busy(BusyError())
        && server.isProcessing
        && recent == old(recent) && accepted == old(accepted) && parser.buffer == old(parser.buffer)
      ensures !old(server.isProcessing) ==> !server.isProcessing
      ensures !old(server.isProcessing) && !data.JObj? ==>
        reply == Ended([]) && recent == old(recent) && accepted == old(accepted) && parser.buffer == old(parser.buffer)
      ensures !old(server.isProcessing) && data.JObj? ==>
        var m := UserMessage(Field(data, "user").GetOr(JStr("user")), Field(data, "content").GetOr(JStr("")));
        var replay := Replayed(StreamParser.Scan(old(parser.buffer) + Concat(chunks), loads).objects,
                               tools, tts, data, []);
        && accepted == old(accepted) + [m]
        && recent == (if |old(recent)| < RecentLimit then old(recent) + [m] else old(recent)[1..] + [m])
        && recent[|recent| - 1].user == Field(data, "user").GetOr(JStr("user"))
        && recent[|recent| - 1].content == Field(data, "content").GetOr(JStr(""))
        && reply == (if replay.Done? then Answered(replay.sent + [OutputPacks.CreateCompletionOutput(data)])
                     else Ended(replay.sent))
        && (replay.Done? ==> parser.buffer == StreamParser.Scan(old(parser.buffer) + Concat(chunks), loads).rest)
    {
      if server.isProcessing {
        return Busy(BusyError());
      }
      server.isProcessing := true;
      if !data.JObj? {
        server.isProcessing := false;
        return Ended([]);
      }
      var content := Field(data, "content").GetOr(JStr(""));
      var user := Field(data, "user").GetOr(JStr("user"));
      Remember(UserMessage(user, content));
      assert parser.buffer == old(parser.buffer);
      ghost var remembered := recent;
      var replay := Stream(chunks, loads, tools, tts, data);
      assert recent == remembered && Valid();
      server.isProcessing := false;
      if replay.Broken? {
        return Ended(replay.sent);
      }
      return Answered(replay.sent + [OutputPacks.CreateCompletionOutput(data)]);
    }
  }
}

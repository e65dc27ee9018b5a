/**
 * How an agent's tools package what they produce
 * (server/neuro_simulator/agents/output_manager.py): every output becomes
 * a pack `{type, timestamp, payload, metadata}` that is handed to the
 * optional callback and also put on the manager's own queue.
 */
module AgentOutput {
  import opened Wrappers
  import opened Json
  import Dict

  /** `{"agent_type": ..., "source_tool": ...}`. */
  function Metadata(agentType: string, sourceTool: string): (m: Json)
    ensures Field(m, "agent_type") == Some(JStr(agentType))
    ensures Field(m, "source_tool") == Some(JStr(sourceTool))
  {
    JObj(Dict.Set(Dict.Set([], "agent_type", JStr(agentType)), "source_tool", JStr(sourceTool)))
  }

  /** The common frame of every pack; the timestamp is the caller's clock reading. */
  function Pack(outputType: string, now: real, payload: Json, metadata: Json): (p: Json)
    ensures Field(p, "type") == Some(JStr(outputType))
    ensures Field(p, "timestamp") == Some(JFloat(now))
    ensures Field(p, "payload") == Some(payload)
    ensures Field(p, "metadata") == Some(metadata)
  {
    var pack := Dict.Set(Dict.Set([], "type", JStr(outputType)), "timestamp", JFloat(now));
    JObj(Dict.Set(Dict.Set(pack, "payload", payload), "metadata", metadata))
  }

  /** Python's truth value of an optional string or number argument. */
  predicate GivenString(s: Option<string>) { s.Some? && s.value != "" }
  predicate GivenNumber(x: Option<real>) { x.Some? && x.value != 0.0 }

  /**
   * The payload of a speak output: always the text; the audio and the
   * duration only when they are truthy, so a zero duration is left out.
   */
  function SpeakPayload(text: string, audio: Option<string>, duration: Option<real>): (p: Json)
    ensures p.JObj? && Field(p, "text") == Some(JStr(text))
    ensures Field(p, "audio_base64") == if GivenString(audio) then Some(JStr(audio.value)) else None
    ensures Field(p, "duration") == if GivenNumber(duration) then Some(JFloat(duration.value)) else None
    ensures Dict.Keys(p.fields) == ["text"] + (if GivenString(audio) then ["audio_base64"] else [])
      + (if GivenNumber(duration) then ["duration"] else [])
  {
    var payload := Dict.Set([], "text", JStr(text));
    var payload := if GivenString(audio) then Dict.Set(payload, "audio_base64", JStr(audio.value)) else payload;
    JObj(if GivenNumber(duration) then Dict.Set(payload, "duration", JFloat(duration.value)) else payload)
  }

  /** `send_speak_output`'s pack. */
  function SpeakPack(agentType: string, text: string, audio: Option<string>, duration: Option<real>, now: real): (p: Json)
    ensures Field(p, "type") == Some(JStr("speak"))
    ensures Field(p, "payload") == Some(SpeakPayload(text, audio, duration))
    ensures Field(p, "metadata") == Some(Metadata(agentType, "speak"))
  {
    Pack("speak", now, SpeakPayload(text, audio, duration), Metadata(agentType, "speak"))
  }

  /** `send_model_output`'s pack: the action names both the payload and the source tool. */
  function ModelPack(agentType: string, action: string, now: real): (p: Json)
    ensures Field(p, "type") == Some(JStr("model_action"))
    ensures Field(p, "payload").Some? && Field(p, "metadata").Some?
    ensures Field(Field(p, "payload").value, "action") == Some(JStr(action))
    ensures Field(Field(p, "metadata").value, "source_tool") == Some(JStr(action))
  {
    Pack("model_action", now, JObj(Dict.Set([], "action", JStr(action))), Metadata(agentType, action))
  }

  /** `send_custom_output`'s pack: type and payload pass through unchanged. */
  function CustomPack(agentType: string, outputType: string, payload: Json, now: real): (p: Json)
    ensures Field(p, "type") == Some(JStr(outputType))
    ensures Field(p, "payload") == Some(payload)
    ensures Field(p, "metadata").Some?
    ensures Field(Field(p, "metadata").value, "source_tool") == Some(JStr("custom"))
  {
    Pack(outputType, now, payload, Metadata(agentType, "custom"))
  }

  /**
   * `put_nowait` on a queue of capacity `maxsize` (0 is unbounded), with the
   * oldest pack dropped first when the queue is full.
   */
  function Offer(queue: seq<Json>, maxsize: nat, pack: Json): (q: seq<Json>)
    ensures |q| > 0 && q[|q| - 1] == pack
    ensures |q| - 1 <= |queue| && q[..|q| - 1] == queue[|queue| - (|q| - 1)..]
    ensures |q| == |queue| + 1 <==> maxsize == 0 || |queue| < maxsize
    ensures maxsize > 0 && |queue| <= maxsize ==> |q| <= maxsize
  {
    if maxsize > 0 && |queue| >= maxsize then queue[1..] + [pack] else queue + [pack]
  }

  /** `put_nowait` of each pack in turn. */
  function OfferAll(queue: seq<Json>, maxsize: nat, packs: seq<Json>): (q: seq<Json>)
    ensures maxsize == 0 ==> q == queue + packs
    decreases |packs|
  {
    if packs == [] then queue
    else
      var front := packs[..|packs| - 1];
      assert packs == front + [packs[|packs| - 1]];
      Offer(OfferAll(queue, maxsize, front), maxsize, packs[|packs| - 1])
  }

  class OutputManager {
    const agentType: string
    /** Whether an `output_callback` was supplied. */
    const hasCallback: bool
    /** The `maxsize` of the `asyncio.Queue`; 0 means unbounded, as the constructor creates it. */
    const maxsize: nat
    /** The packs handed to the callback, in order. */
    var delivered: seq<Json>
    /** The contents of `_output_queue`, oldest first. */
    var queue: seq<Json>

    constructor (agentType: string, hasCallback: bool)
      ensures this.agentType == agentType && this.hasCallback == hasCallback
      ensures maxsize == 0 && delivered == [] && queue == []
    {
      this.agentType := agentType;
      this.hasCallback := hasCallback;
      maxsize := 0;
      delivered := [];
      queue := [];
    }

    /** Python's `Queue.full()`. */
    predicate Full()
      reads this
    {
      maxsize > 0 && |queue| >= maxsize
    }

    /**
     * `_send_output`: the callback sees the pack at most once (an exception
     * it raises is swallowed), and the pack is queued, evicting the oldest
     * pack when the queue is full.
     */
    method SendOutput(pack: Json)
      modifies this
      ensures delivered == old(delivered) + if hasCallback then [pack] else []
      ensures queue == if old(Full()) then old(queue)[1..] + [pack] else old(queue) + [pack]
      ensures queue == Offer(old(queue), maxsize, pack)
      ensures maxsize > 0 ==> |queue| <= maxsize || |queue| == |old(queue)|
    {
      if hasCallback {
        delivered := delivered + [pack];
      }
      if !Full() {
        queue := queue + [pack];
      } else {
        queue := queue[1..] + [pack];
      }
    }

    method SendSpeakOutput(text: string, audio: Option<string>, duration: Option<real>, now: real)
      modifies this
      ensures queue == Offer(old(queue), maxsize, SpeakPack(agentType, text, audio, duration, now))
      ensures delivered == old(delivered) + if hasCallback then [SpeakPack(agentType, text, audio, duration, now)] else []
    {
      SendOutput(SpeakPack(agentType, text, audio, duration, now));
    }

    method SendModelOutput(action: string, now: real)
      modifies this
      ensures queue == Offer(old(queue), maxsize, ModelPack(agentType, action, now))
      ensures delivered == old(delivered) + if hasCallback then [ModelPack(agentType, action, now)] else []
    {
      SendOutput(ModelPack(agentType, action, now));
    }

    method SendCustomOutput(outputType: string, payload: Json, now: real)
      modifies this
      ensures queue == Offer(old(queue), maxsize, CustomPack(agentType, outputType, payload, now))
      ensures delivered == old(delivered) + if hasCallback then [CustomPack(agentType, outputType, payload, now)] else []
    {
      SendOutput(CustomPack(agentType, outputType, payload, now));
    }
  }

  /** With the unbounded queue the constructor creates, no pack is ever evicted. */
  method UnboundedQueueKeepsAll(agentType: string, packs: seq<Json>) returns (queued: seq<Json>)
    ensures queued == packs
  {
    var m := new OutputManager(agentType, false);
    var i := 0;
    while i < |packs|
      invariant 0 <= i <= |packs|
      invariant m.maxsize == 0 && m.queue == packs[..i]
    {
      m.SendOutput(packs[i]);
      assert packs[..i + 1] == packs[..i] + [packs[i]];
      i := i + 1;
    }
    return m.queue;
  }
}

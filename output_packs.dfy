/**
 * The static pack builders of the standalone agent service
 * (server/neuro_simulator/neuro_sama/output_manager.py): every pack is
 * `{type, payload}` plus the triggering input when there is one.
 */
module OutputPacks {
  import opened Wrappers
  import opened Json
  import Dict

  /** `create_output_pack`: `input` is present exactly when the input data is truthy. */
  function CreateOutputPack(outputType: string, payload: Json, inputData: Json): (p: Json)
    ensures p.JObj?
    ensures Field(p, "type") == Some(JStr(outputType))
    ensures Field(p, "payload") == Some(payload)
    ensures Field(p, "input") == if Truthy(inputData) then Some(inputData) else None
    ensures Dict.Keys(p.fields) == ["type", "payload"] + if Truthy(inputData) then ["input"] else []
  {
    var pack := Dict.Set(Dict.Set([], "type", JStr(outputType)), "payload", payload);
    JObj(if Truthy(inputData) then Dict.Set(pack, "input", inputData) else pack)
  }

  /** The speak payload: all three fields, always. */
  function SpeakPayload(text: string, audio: string, duration: real): (payload: Json)
    ensures payload.JObj?
    ensures Dict.Keys(payload.fields) == ["text", "audio_base64", "duration"]
    ensures Field(payload, "text") == Some(JStr(text))
    ensures Field(payload, "audio_base64") == Some(JStr(audio))
    ensures Field(payload, "duration") == Some(JFloat(duration))
  {
    var first := Dict.Set([], "text", JStr(text));
    assert Dict.Keys(first) == ["text"];
    var payload := Dict.Set(first, "audio_base64", JStr(audio));
    assert Dict.Keys(payload) == ["text", "audio_base64"];
    JObj(Dict.Set(payload, "duration", JFloat(duration)))
  }

  /** `create_speak_output`; the callers' defaults are `""` and `0.0`. */
  function CreateSpeakOutput(text: string, audio: string, duration: real, inputData: Json): (p: Json)
    ensures Field(p, "type") == Some(JStr("speak"))
    ensures Field(p, "payload") == Some(SpeakPayload(text, audio, duration))
  {
    CreateOutputPack("speak", SpeakPayload(text, audio, duration), inputData)
  }

  /** `create_completion_output`. */
  function CreateCompletionOutput(inputData: Json): (p: Json)
    ensures Field(p, "type") == Some(JStr("completion"))
    ensures Field(p, "payload") == Some(JObj([("message", JStr("Response completed"))]))
  {
    CreateOutputPack("completion", JObj([("message", JStr("Response completed"))]), inputData)
  }

  /** `create_error_output`: the payload is exactly the message. */
  function CreateErrorOutput(message: string, inputData: Json): (p: Json)
    ensures Field(p, "type") == Some(JStr("error"))
    ensures Field(p, "payload") == Some(JObj([("message", JStr(message))]))
  {
    CreateOutputPack("error", JObj([("message", JStr(message))]), inputData)
  }

  /** `create_info_output`: the raw response is attached only when it is truthy. */
  function CreateInfoOutput(message: string, rawResponse: Json, inputData: Json): (p: Json)
    ensures Field(p, "type") == Some(JStr("info"))
    ensures Field(p, "payload").Some?
    ensures var payload := Field(p, "payload").value;
      && Field(payload, "message") == Some(JStr(message))
      && Field(payload, "raw_response") == if Truthy(rawResponse) then Some(rawResponse) else None
  {
    var payload := Dict.Set([], "message", JStr(message));
    CreateOutputPack("info", JObj(if Truthy(rawResponse) then Dict.Set(payload, "raw_response", rawResponse) else payload), inputData)
  }
}

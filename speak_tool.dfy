/**
 * The performer's `speak` tool (server/neuro_simulator/agents/neuro/tools/speak.py):
 * a keyword filter over the text, then speech synthesis, with every TTS
 * failure falling back to a text-only speak output.
 */
module SpeakTool {
  import opened Wrappers
  import opened Json
  import Dict
  import Text
  import opened ToolSchema
  import AgentOutput

  /** The part of the loaded settings the tool reads. */
  datatype SpeakSettings = SpeakSettings(filterKeywords: seq<string>, ttsProviderId: string)

  /** The outcome of `synthesize_audio_segment`, which is not part of this model. */
  datatype TtsOutcome =
    | Audio(audio: string, duration: real)
    | Timeout
    | Failure

  /** `execute` either raises or reports success with the text it spoke. */
  datatype SpeakResult =
    | SpeakRaised(error: string)
    | Spoken(spokenText: string)

  const FilteredText := "Filtered."

  /** Some keyword occurs in the text, ignoring case. */
  predicate HasKeyword(keywords: seq<string>, text: string) {
    exists i :: 0 <= i < |keywords| && Text.Contains(Text.Lower(text), Text.Lower(keywords[i]))
  }

  /** The `for keyword in filter_keywords` scan, stopping at the first hit. */
  function FirstKeywordHit(keywords: seq<string>, lowerText: string): (hit: bool)
    ensures hit <==> exists i :: 0 <= i < |keywords| && Text.Contains(lowerText, Text.Lower(keywords[i]))
  {
    if keywords == [] then false
    else if Text.Contains(lowerText, Text.Lower(keywords[0])) then true
    else
      var hit := FirstKeywordHit(keywords[1..], lowerText);
      assert forall i :: 1 <= i < |keywords| ==> keywords[i] == keywords[1..][i - 1];
      assert hit ==> exists i :: 0 <= i < |keywords| && Text.Contains(lowerText, Text.Lower(keywords[i])) by {
        if hit {
          var j :| 0 <= j < |keywords[1..]| && Text.Contains(lowerText, Text.Lower(keywords[1..][j]));
          assert Text.Contains(lowerText, Text.Lower(keywords[j + 1]));
        }
      }
      hit
  }

  /**
   * `_apply_keyword_filter`: "Filtered." when settings are loaded and some
   * keyword occurs in the text ignoring case; otherwise the text itself.
   */
  function ApplyKeywordFilter(settings: Option<SpeakSettings>, text: string): (r: string)
    ensures settings.Some? && HasKeyword(settings.value.filterKeywords, text) ==> r == FilteredText
    ensures !(settings.Some? && HasKeyword(settings.value.filterKeywords, text)) ==> r == text
    ensures settings.None? || settings.value.filterKeywords == [] ==> r == text
  {
    if settings.None? then text
    else if settings.value.filterKeywords == [] then text
    else if FirstKeywordHit(settings.value.filterKeywords, Text.Lower(text)) then FilteredText
    else text
  }

  /** The declared parameters: one required string, `text`. */
  function Parameters(): (ps: seq<Param>)
    ensures |ps| == 1 && RequiredNames(ps) == ["text"]
  {
    [Param("text", "string", "The text to be spoken to the audience.", true)]
  }

  /**
   * The speak output `execute` sends for unfiltered text: with audio and
   * duration when a provider is configured and synthesis produced audio,
   * text-only after a timeout, a failure or without a provider.
   */
  function SpeakPackFor(agentType: string, settings: SpeakSettings, tts: TtsOutcome, text: string, now: real): (p: Json)
    ensures settings.ttsProviderId != "" && tts.Audio? ==>
      p == AgentOutput.SpeakPack(agentType, text, Some(tts.audio), Some(tts.duration), now)
    ensures settings.ttsProviderId == "" || !tts.Audio? ==>
      p == AgentOutput.SpeakPack(agentType, text, None, None, now)
  {
    if settings.ttsProviderId != "" && tts.Audio? then
      AgentOutput.SpeakPack(agentType, text, Some(tts.audio), Some(tts.duration), now)
    else
      AgentOutput.SpeakPack(agentType, text, None, None, now)
  }

  /**
   * `SpeakTool.execute`.  The speak output goes to `om` when the tool has
   * an output manager; `now` is the clock reading stamped on it.  Filtered
   * text is reported without any output; settings that are not loaded make
   * the provider lookup fail.
   */
  method Execute(kwargs: seq<(string, Json)>, settings: Option<SpeakSettings>, tts: TtsOutcome,
                 om: AgentOutput.OutputManager?, now: real) returns (r: SpeakResult)
    modifies om
    ensures var text := Dict.Get(kwargs, "text").GetOr(JNull);
      && (!(text.JStr? && text.s != "") <==> r == SpeakRaised("ValueError"))
      && (text.JStr? && text.s != "" ==>
            var filtered := ApplyKeywordFilter(settings, text.s);
            && (filtered != FilteredText && settings.None? <==> r == SpeakRaised("AttributeError"))
            && (r.Spoken? ==> r.spokenText == filtered))
    ensures r.SpeakRaised? ==> r.error == "ValueError" || r.error == "AttributeError"
    ensures om != null && !(r.Spoken? && r.spokenText != FilteredText) ==>
      om.queue == old(om.queue) && om.delivered == old(om.delivered)
    ensures om != null && r.Spoken? && r.spokenText != FilteredText ==>
      && settings.Some?
      && var p := SpeakPackFor(om.agentType, settings.value, tts, r.spokenText, now);
      && om.delivered == old(om.delivered) + (if om.hasCallback then [p] else [])
      && om.queue == AgentOutput.Offer(old(om.queue), om.maxsize, p)
  {
    var text := Dict.Get(kwargs, "text").GetOr(JNull);
    if !(text.JStr? && text.s != "") {
      return SpeakRaised("ValueError");
    }
    var filteredText := ApplyKeywordFilter(settings, text.s);
    if filteredText == FilteredText {
      return Spoken(filteredText);
    }
    if settings.None? {
      return SpeakRaised("AttributeError");
    }
    if om != null {
      var pack := SpeakPackFor(om.agentType, settings.value, tts, filteredText, now);
      om.SendOutput(pack);
    }
    return Spoken(filteredText);
  }
}

/**
 * The stream coordinator (server/neuro_simulator/services/stream/stream_manager.py).
 *
 * It owns the chat queue, creates and starts the performer loop, resets the
 * client-visible stream state, and walks new streams through the welcome
 * video, the avatar intro and the live phase.  Messages it broadcasts to the
 * clients are collected in `broadcasts`; the video length read from disk is
 * a parameter (None when it cannot be read).
 */
module StreamManager {
  import opened Wrappers
  import opened Json
  import Dict
  import opened ChatQueue
  import opened NeuroLoop

  /** The placeholder speech set when a stream starts. */
  const PreparingSpeech: string := "Neuro is preparing to start the stream. The chat is currently welcoming viewers."

  /** The welcome video length used when the file cannot be read. */
  const DefaultVideoDuration: real := 10.0

  /** The fixed length of the avatar intro. */
  const AvatarIntroDuration: real := 3.0

  /** The `get_status` dict. */
  datatype Status = Status(isRunning: bool, backendStatus: string)

  function StatusMessage(st: Status): Json {
    JObj([("type", JStr("stream_status_update")), ("is_running", JBool(st.isRunning)),
          ("backend_status", JStr(st.backendStatus))])
  }

  /** The three phase-transition messages of a stream start, for a welcome video of `d` seconds. */
  function PhaseMessages(d: real): (ms: seq<Json>)
    ensures |ms| == 3
    ensures Field(ms[0], "type") == Some(JStr("play_welcome_video"))
    ensures Field(ms[1], "elapsed_time_sec") == Some(JFloat(d))
    ensures Field(ms[2], "type") == Some(JStr("enter_live_phase"))
    ensures Field(ms[2], "elapsed_time_sec") == Some(JFloat(d + AvatarIntroDuration))
  {
    [ JObj([("type", JStr("play_welcome_video")), ("progress", JInt(0)), ("elapsed_time_sec", JInt(0))]),
      JObj([("type", JStr("start_avatar_intro")), ("elapsed_time_sec", JFloat(d))]),
      JObj([("type", JStr("enter_live_phase")), ("elapsed_time_sec", JFloat(d + AvatarIntroDuration))]) ]
  }

  /** The chat a chatbot output pack puts on the ordinary tier, if any. */
  function ChatbotChat(pack: seq<(string, Json)>): (r: Option<Chat>)
    ensures r.Some? ==> Dict.Get(pack, "type") == Some(JStr("chat_message"))
    ensures r.Some? ==> Truthy(r.value.text) && r.value.extra == []
    ensures r.Some? ==> Dict.Get(pack, "payload").GetOr(JObj([])).JObj?
    ensures r.Some? && Field(Dict.Get(pack, "payload").GetOr(JObj([])), "username").None? ==>
      r.value.username == JStr("Chatbot")
  {
    if Dict.Get(pack, "type") != Some(JStr("chat_message")) then None
    else
      var payload := Dict.Get(pack, "payload").GetOr(JObj([]));
      if !payload.JObj? then None
      else
        var text := Field(payload, "text").GetOr(JStr(""));
        var username := Field(payload, "username").GetOr(JStr("Chatbot"));
        if Truthy(text) then Some(Chat(username, text, [])) else None
  }

  /** A chat-message pack whose payload carries non-empty text always reaches the queue, with its username or "Chatbot". */
  lemma ChatbotChatComplete(pack: seq<(string, Json)>, payload: seq<(string, Json)>)
    requires Dict.Get(pack, "type") == Some(JStr("chat_message"))
    requires Dict.Get(pack, "payload") == Some(JObj(payload))
    requires Dict.Get(payload, "text").Some? && Truthy(Dict.Get(payload, "text").value)
    ensures ChatbotChat(pack) == Some(Chat(Dict.Get(payload, "username").GetOr(JStr("Chatbot")),
                                           Dict.Get(payload, "text").value, []))
  {
  }

  class StreamManager {
    const queue: QueueManager
    var neuroLoop: NeuroLoop?
    var isRunning: bool
    /** The number of tasks in `_tasks`. */
    var tasks: nat
    var startTime: Option<real>
    var phase: string
    var videoProgress: real
    var avatarStage: string
    var speaking: bool
    var elapsed: real
    /** The shared live-phase event. */
    var liveStarted: bool
    /** The shared `neuro_last_speech`. */
    var lastSpeech: string
    /** Everything broadcast to the clients, oldest first. */
    var broadcasts: seq<Json>

    constructor ()
      ensures fresh(queue) && queue.chats == [] && queue.highlights == [] && queue.highlighted == []
      ensures neuroLoop == null && !isRunning && tasks == 0 && startTime == None
      ensures phase == "offline" && videoProgress == 0.0 && avatarStage == "hidden"
      ensures !speaking && elapsed == 0.0
      ensures !liveStarted && lastSpeech == "" && broadcasts == []
    {
      queue := new QueueManager();
      neuroLoop := null;
      isRunning := false;
      tasks := 0;
      startTime := None;
      phase := "offline";
      videoProgress := 0.0;
      avatarStage := "hidden";
      speaking := false;
      elapsed := 0.0;
      liveStarted := false;
      lastSpeech := "";
      broadcasts := [];
    }

    /** The client-visible part of the state is at its start-of-stream values. */
    predicate FreshStreamState()
      reads this
    {
      phase == "initializing" && videoProgress == 0.0 && avatarStage == "hidden"
      && !speaking && elapsed == 0.0
    }

    /** `reset_stream_state`. */
    method ResetStreamState(now: real)
      modifies this
      ensures FreshStreamState() && startTime == Some(now)
      ensures isRunning == old(isRunning) && tasks == old(tasks) && neuroLoop == old(neuroLoop)
      ensures liveStarted == old(liveStarted) && lastSpeech == old(lastSpeech)
      ensures broadcasts == old(broadcasts)
    {
      startTime := Some(now);
      phase := "initializing";
      videoProgress := 0.0;
      avatarStage := "hidden";
      speaking := false;
      elapsed := 0.0;
    }

    /** `get_initial_state_for_client`; `configLoaded` says whether settings exist. */
    function InitialStateForClient(configLoaded: bool): (j: Json)
      reads this
      ensures Field(j, "type") == Some(JStr("stream_state_sync"))
      ensures Field(j, "state").Some? && Field(j, "state").value.JObj?
      ensures |Field(j, "state").value.fields| == 5
      ensures Field(Field(j, "state").value, "current_phase") == Some(JStr(phase))
    {
      var state := JObj([
        ("current_phase", JStr(phase)),
        ("welcome_video_progress", JFloat(videoProgress)),
        ("neuro_avatar_stage", JStr(avatarStage)),
        ("is_neuro_speaking", JBool(speaking)),
        ("elapsed_time_since_stream_start", JFloat(elapsed))]);
      if !configLoaded then JObj([("type", JStr("stream_state_sync")), ("state", state)])
      else JObj([("type", JStr("stream_state_sync")), ("state", state)])
    }

    /** `get_status`. */
    function GetStatus(): (st: Status)
      reads this
      ensures st.isRunning == isRunning
      ensures st.backendStatus == "running" <==> isRunning
      ensures st.backendStatus == "stopped" <==> !isRunning
    {
      Status(isRunning, if isRunning then "running" else "stopped")
    }

    /** `_chatbot_output_callback`: forward the pack, and queue a chatbot chat message with text. */
    method ChatbotOutputCallback(pack: seq<(string, Json)>)
      modifies this, queue
      ensures broadcasts == old(broadcasts) + [JObj(pack)]
      ensures ChatbotChat(pack).Some? ==> queue.chats == old(queue.chats) + [ChatbotChat(pack).value]
      ensures ChatbotChat(pack).None? ==> queue.chats == old(queue.chats)
      ensures queue.highlights == old(queue.highlights) && queue.highlighted == old(queue.highlighted)
      ensures queue.lastHighlightedTime == old(queue.lastHighlightedTime)
      ensures isRunning == old(isRunning)
    {
      broadcasts := broadcasts + [JObj(pack)];
      if Dict.Get(pack, "type") == Some(JStr("chat_message")) {
        var payload := Dict.Get(pack, "payload").GetOr(JObj([]));
        if payload.JObj? {
          var text := Field(payload, "text").GetOr(JStr(""));
          var username := Field(payload, "username").GetOr(JStr("Chatbot"));
          if Truthy(text) {
            queue.AddChat(Chat(username, text, []));
          }
        }
      }
    }

    /** `start_stream`. */
    method StartStream(now: real, videoDuration: Option<real>)
      modifies this, queue
      ensures old(isRunning) ==>
        && isRunning && neuroLoop == old(neuroLoop) && broadcasts == old(broadcasts)
        && phase == old(phase) && liveStarted == old(liveStarted)
        && queue.chats == old(queue.chats) && queue.highlights == old(queue.highlights)
        && queue.highlighted == old(queue.highlighted)
      ensures old(isRunning) ==> unchanged(this) && unchanged(queue)
      ensures !old(isRunning) ==>
        && isRunning && FreshStreamState() && startTime == Some(now)
        && queue.chats == [] && queue.highlights == [] && queue.highlighted == []
        && queue.lastHighlightedTime == old(queue.lastHighlightedTime)
        && lastSpeech == PreparingSpeech && liveStarted
        && neuroLoop != null && fresh(neuroLoop) && neuroLoop.queue == queue
        && neuroLoop.isRunning && neuroLoop.tasks == 1 && !neuroLoop.greeted
        && !neuroLoop.busy && neuroLoop.remaining == 0.0 && neuroLoop.lastUpdate == 0.0
        && broadcasts == old(broadcasts)
             + PhaseMessages(videoDuration.GetOr(DefaultVideoDuration))
             + [StatusMessage(Status(true, "running"))]
      ensures tasks == old(tasks)
    {
      if isRunning {
        return;
      }
      Launch(now, videoDuration.GetOr(DefaultVideoDuration));
    }

    /** The body of `start_stream` once the stream is known to be stopped. */
    method Launch(now: real, videoDuration: real)
      requires !isRunning
      modifies this, queue
      ensures isRunning && FreshStreamState() && startTime == Some(now)
      ensures queue.chats == [] && queue.highlights == [] && queue.highlighted == []
      ensures queue.lastHighlightedTime == old(queue.lastHighlightedTime)
      ensures lastSpeech == PreparingSpeech && liveStarted
      ensures neuroLoop != null && fresh(neuroLoop) && neuroLoop.queue == queue
      ensures neuroLoop.isRunning && neuroLoop.tasks == 1 && !neuroLoop.greeted
      ensures !neuroLoop.busy && neuroLoop.remaining == 0.0 && neuroLoop.lastUpdate == 0.0
      ensures broadcasts == old(broadcasts) + PhaseMessages(videoDuration) + [StatusMessage(Status(true, "running"))]
      ensures tasks == old(tasks)
    {
      queue.ClearChatQueue();
      queue.ClearHighlightQueue();
      queue.ClearHighlightedMessageQueue();
      ResetStreamState(now);
      liveStarted := false;
      lastSpeech := PreparingSpeech;
      var loop := new NeuroLoop(queue);
      neuroLoop := loop;
      isRunning := true;
      loop.Start();
      EnterLivePhase(videoDuration);
    }

    /** The welcome-video, avatar-intro and live-phase sequence that ends `start_stream`. */
    method EnterLivePhase(videoDuration: real)
      modifies this
      ensures liveStarted
      ensures broadcasts == old(broadcasts) + PhaseMessages(videoDuration) + [StatusMessage(GetStatus())]
      ensures isRunning == old(isRunning) && tasks == old(tasks) && neuroLoop == old(neuroLoop)
      ensures startTime == old(startTime) && phase == old(phase) && videoProgress == old(videoProgress)
      ensures avatarStage == old(avatarStage) && speaking == old(speaking) && elapsed == old(elapsed)
      ensures lastSpeech == old(lastSpeech)
    {
      broadcasts := broadcasts + PhaseMessages(videoDuration);
      liveStarted := true;
      var status := GetStatus();
      broadcasts := broadcasts + [StatusMessage(status)];
    }

    /** `stop_stream`. */
    method StopStream(now: real)
      modifies this, neuroLoop
      ensures !old(isRunning) ==>
        && !isRunning && tasks == old(tasks) && broadcasts == old(broadcasts)
        && (old(neuroLoop) != null ==> old(neuroLoop).isRunning == old(neuroLoop.isRunning))
      ensures !old(isRunning) ==> unchanged(this) && (old(neuroLoop) != null ==> unchanged(old(neuroLoop)))
      ensures old(isRunning) ==>
        && !isRunning && tasks == 0
        && (old(neuroLoop) != null ==>
              && !old(neuroLoop).isRunning && old(neuroLoop).tasks == 0 && !old(neuroLoop).busy
              && old(neuroLoop).remaining == 0.0 && old(neuroLoop).lastUpdate == now
              && old(neuroLoop).greeted == old(neuroLoop.greeted))
        && broadcasts == old(broadcasts) + [StatusMessage(Status(false, "stopped"))]
        && startTime == old(startTime) && videoProgress == old(videoProgress)
        && avatarStage == old(avatarStage) && speaking == old(speaking)
        && elapsed == old(elapsed) && lastSpeech == old(lastSpeech)
      ensures neuroLoop == old(neuroLoop) && phase == old(phase) && liveStarted == old(liveStarted)
    {
      if !isRunning {
        return;
      }
      isRunning := false;
      if neuroLoop != null {
        neuroLoop.Stop(now);
      }
      tasks := 0;
      broadcasts := broadcasts + [StatusMessage(GetStatus())];
    }

    /** `add_chat`: forwarded unchanged to the ordinary tier. */
    method AddChat(chat: Chat)
      modifies queue
      ensures queue.chats == old(queue.chats) + [chat]
      ensures queue.highlights == old(queue.highlights) && queue.highlighted == old(queue.highlighted)
    {
      queue.AddChat(chat);
    }

    /** `add_highlight_message`: forwarded unchanged to the highlight tier. */
    method AddHighlightMessage(highlight: Chat)
      modifies queue
      ensures queue.highlights == old(queue.highlights) + [highlight]
      ensures queue.chats == old(queue.chats) && queue.highlighted == old(queue.highlighted)
    {
      queue.AddHighlightMessage(highlight);
    }

    /** `add_highlighted_message`: forwarded unchanged to the highlighted tier. */
    method AddHighlightedMessage(message: Chat)
      modifies queue
      ensures queue.highlighted == old(queue.highlighted) + [message]
      ensures queue.chats == old(queue.chats) && queue.highlights == old(queue.highlights)
    {
      queue.AddHighlightedMessage(message);
    }
  }

  /** The snapshot a client receives does not depend on whether the configuration is loaded. */
  lemma InitialStateIgnoresConfig(m: StreamManager)
    ensures m.InitialStateForClient(true) == m.InitialStateForClient(false)
  {
  }
}

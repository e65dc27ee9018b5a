/**
 * The performer loop (server/neuro_simulator/services/stream/neuro_loop.py).
 *
 * The loop keeps a playback timer: the seconds of synthesized speech the
 * audience is presumed still to be hearing.  Every speak output adds its
 * duration plus a half-second margin; every tick of the response cycle
 * decays the timer by the wall-clock time since the last update.  While the
 * timer is positive the cycle only sleeps; once it reaches zero it fetches
 * chats from the queue, prepends the one-time greeting, substitutes the
 * idle prompt for an empty fetch, and hands the batch to the agent.
 *
 * Clock readings are parameters; the asynchronous sleeps and waits become
 * the outcome a tick reports.
 */
module NeuroLoop {
  import opened Wrappers
  import opened Json
  import Dict
  import opened ChatQueue

  /** The margin added to every speech duration. */
  const SpeechMargin: real := 0.5

  /** The idle prompt used when the settings provide none. */
  const DefaultIdlePrompt: string := "The chat seems quiet. Say something to engage with the audience."

  /** How long the cycle waits after an exception before retrying. */
  const ErrorBackoff: real := 5.0

  /** The part of `settings.neuro` the loop reads. */
  datatype NeuroSettings = NeuroSettings(
    initialGreeting: string,
    idlePrompt: Option<string>,      // None when the attribute is absent
    postSpeechCooldown: seq<real>,
    inputChatSampleSize: int)

  function Max(a: real, b: real): real { if a >= b then a else b }

  function MinR(a: real, b: real): real { if a <= b then a else b }

  /** The timer after `now - last` seconds of playback; elapsed time is never negative and the timer never drops below zero. */
  function Decay(remaining: real, last: real, now: real): (r: real)
    ensures r >= 0.0
    ensures remaining >= 0.0 ==> r <= remaining
    ensures now <= last ==> r == Max(0.0, remaining)
    ensures r > 0.0 ==> r == remaining - Max(0.0, now - last)
    ensures r >= remaining - Max(0.0, now - last)
  {
    Max(0.0, remaining - Max(0.0, now - last))
  }

  /** The timer after a speech of `duration` seconds is scheduled at `now`; the decay is skipped before the first update. */
  function AddSpeech(remaining: real, last: real, now: real, duration: real): (r: real)
    ensures last > 0.0 ==> r >= duration + SpeechMargin
    ensures last > 0.0 && remaining >= 0.0 ==> r <= remaining + duration + SpeechMargin
    ensures last > 0.0 ==>
      Decay(remaining, last, now) + duration <= r <= Decay(remaining, last, now) + duration + SpeechMargin
    ensures last <= 0.0 ==> r == remaining + duration + SpeechMargin
  {
    (if last > 0.0 then Decay(remaining, last, now) else remaining) + duration + SpeechMargin
  }

  /** How long the cycle sleeps while speech is still playing: the remaining time, kept between 0.01 and 0.5 seconds. */
  function SleepTime(remaining: real): (t: real)
    ensures 0.01 <= t <= 0.5
    ensures 0.01 <= remaining <= 0.5 ==> t == remaining
    ensures remaining > 0.5 ==> t == 0.5
  {
    MinR(0.5, Max(0.01, remaining))
  }

  /** The post-speech cooldown range, used when the settings hold a list of at least two bounds. */
  function CooldownRange(settings: Option<NeuroSettings>): (r: Option<(real, real)>)
    ensures r.Some? <==> settings.Some? && |settings.value.postSpeechCooldown| >= 2
  {
    if settings.Some? && |settings.value.postSpeechCooldown| >= 2 then
      Some((settings.value.postSpeechCooldown[0], settings.value.postSpeechCooldown[1]))
    else None
  }

  /** The configured `input_chat_sample_size`, absent before the settings load. */
  function ConfiguredSampleSize(settings: Option<NeuroSettings>): (n: Option<int>)
    ensures n.Some? <==> settings.Some?
    ensures n.Some? ==> n.value == settings.value.inputChatSampleSize
  {
    if settings.Some? then Some(settings.value.inputChatSampleSize) else None
  }

  /** The batch handed to the agent, and whether the greeting counts as sent afterwards. */
  datatype Batch = Batch(items: seq<Chat>, greeted: bool)

  function SystemChat(text: string): Chat { Chat(JStr("System"), JStr(text), []) }

  /**
   * Lines 167-187: the greeting goes first on the first non-empty fetch
   * (when settings exist), and an empty fetch becomes the single idle item.
   */
  function Compose(greeted: bool, settings: Option<NeuroSettings>, fetched: seq<Chat>): (b: Batch)
    ensures |b.items| >= 1
    ensures b.greeted == (greeted || fetched != [])
    ensures fetched == [] ==>
      b.items == [SystemChat(if settings.Some? && settings.value.idlePrompt.Some?
                             then settings.value.idlePrompt.value else DefaultIdlePrompt)]
    ensures fetched != [] && !greeted && settings.Some? ==>
      b.items == [SystemChat(settings.value.initialGreeting)] + fetched
    ensures fetched != [] && (greeted || settings.None?) ==> b.items == fetched
  {
    var withGreeting :=
      if !greeted && fetched != [] && settings.Some? then [SystemChat(settings.value.initialGreeting)] + fetched
      else fetched;
    var nowGreeted := greeted || fetched != [];
    if withGreeting == [] then
      var idle := if settings.Some? && settings.value.idlePrompt.Some? then settings.value.idlePrompt.value
                  else DefaultIdlePrompt;
      Batch([SystemChat(idle)], nowGreeted)
    else Batch(withGreeting, nowGreeted)
  }

  /** Once sent, the greeting is never sent again: later batches are the fetched chats or the idle item alone. */
  lemma GreetingAtMostOnce(settings: Option<NeuroSettings>, fetched: seq<Chat>)
    ensures var b := Compose(true, settings, fetched);
      b.greeted && (b.items == fetched || (fetched == [] && |b.items| == 1 && b.items[0].username == JStr("System")))
  {
  }

  /** An empty fetch never carries the greeting, however the flag stands. */
  lemma IdleNeverGreets(greeted: bool, settings: Option<NeuroSettings>)
    ensures var b := Compose(greeted, settings, []);
      |b.items| == 1 && b.greeted == greeted
      && (settings.Some? && settings.value.idlePrompt.None? ==> b.items[0].text == JStr(DefaultIdlePrompt))
  {
  }

  /** What `_neuro_output_callback` did with a pack. */
  datatype SpeakEffect = SpeakEffect(
    lastSpeech: Option<Json>,   // the value scheduled into `neuro_last_speech`
    raised: bool)               // the payload or its duration had the wrong type

  /** What one pass of `_neuro_response_cycle` ends in. */
  datatype Cycle =
    | Exited                                   // `is_running` was false
    | WaitingForLive                           // the live-phase event is not set yet
    | Playing(sleep: real)                     // speech still playing: sleep and re-check
    | Invoked(cooldown: Option<(real, real)>, fetched: seq<Chat>, batch: seq<Chat>)
    | Backoff(sleep: real)                     // the fetch raised: wait and retry

  class NeuroLoop {
    const queue: QueueManager
    var isRunning: bool
    var busy: bool
    /** `_tts_remaining_time`. */
    var remaining: real
    /** `_last_update_time`. */
    var lastUpdate: real
    /** The number of tasks in `_tasks`. */
    var tasks: nat
    var greeted: bool

    constructor (queue: QueueManager)
      ensures this.queue == queue
      ensures !isRunning && !busy && remaining == 0.0 && lastUpdate == 0.0
      ensures tasks == 0 && !greeted
    {
      this.queue := queue;
      isRunning, busy := false, false;
      remaining, lastUpdate := 0.0, 0.0;
      tasks := 0;
      greeted := false;
    }

    /**
     * `_neuro_output_callback`: a speak pack records its text as the last
     * speech and, when its payload has a `duration`, adds that duration
     * plus the margin to the timer and marks the loop busy.
     */
    method OutputCallback(pack: seq<(string, Json)>, now: real) returns (e: SpeakEffect)
      modifies this
      ensures Dict.Get(pack, "type") != Some(JStr("speak")) ==>
        e == SpeakEffect(None, false) && remaining == old(remaining)
        && lastUpdate == old(lastUpdate) && busy == old(busy)
      ensures Dict.Get(pack, "type") == Some(JStr("speak")) ==>
        var payload := Dict.Get(pack, "payload").GetOr(JObj([]));
        && (!payload.JObj? ==> e == SpeakEffect(None, true))
        && (payload.JObj? ==>
              e.lastSpeech == (var text := Field(payload, "text").GetOr(JStr(""));
                               if Truthy(text) then Some(text) else None))
        && (payload.JObj? && Field(payload, "duration").Some? && IsNumber(Field(payload, "duration").value) ==>
              && !e.raised
              && remaining == AddSpeech(old(remaining), old(lastUpdate), now,
                                        NumVal(Field(payload, "duration").value))
              && lastUpdate == now && busy)
        && (payload.JObj? && Field(payload, "duration").Some? && !IsNumber(Field(payload, "duration").value) ==>
              e.raised)
        && (payload.JObj? && Field(payload, "duration").None? ==> !e.raised)
        && (e.raised || Field(payload, "duration").None? ==>
              remaining == old(remaining) && lastUpdate == old(lastUpdate) && busy == old(busy))
      ensures isRunning == old(isRunning) && tasks == old(tasks) && greeted == old(greeted)
    {
      e := SpeakEffect(None, false);
      if Dict.Get(pack, "type") == Some(JStr("speak")) {
        var payload := Dict.Get(pack, "payload").GetOr(JObj([]));
        if !payload.JObj? {
          return SpeakEffect(None, true);
        }
        var text := Field(payload, "text").GetOr(JStr(""));
        if Truthy(text) {
          e := e.(lastSpeech := Some(text));
        }
        var duration := Field(payload, "duration");
        if duration.Some? {
          if !IsNumber(duration.value) {
            return e.(raised := true);
          }
          var totalDuration := NumVal(duration.value) + SpeechMargin;
          var timePassed := Max(0.0, now - lastUpdate);
          if lastUpdate > 0.0 {
            remaining := Max(0.0, remaining - timePassed);
          }
          remaining := remaining + totalDuration;
          lastUpdate := now;
          busy := true;
        }
      }
    }

    /** `start`: nothing when already running; otherwise running with one more cycle task. */
    method Start()
      modifies this
      ensures old(isRunning) ==> isRunning && tasks == old(tasks)
      ensures !old(isRunning) ==> isRunning && tasks == old(tasks) + 1
      ensures busy == old(busy) && remaining == old(remaining) && lastUpdate == old(lastUpdate)
      ensures greeted == old(greeted)
    {
      if isRunning {
        return;
      }
      isRunning := true;
      tasks := tasks + 1;
    }

    /** `stop`: not running, no tasks, not busy, an empty timer restarted at `now`. */
    method Stop(now: real)
      modifies this
      ensures !isRunning && tasks == 0 && !busy
      ensures remaining == 0.0 && lastUpdate == now
      ensures greeted == old(greeted)
    {
      isRunning := false;
      tasks := 0;
      busy := false;
      remaining := 0.0;
      lastUpdate := now;
    }

    /**
     * One pass of `_neuro_response_cycle`.  `now` is the clock when the
     * timer is decayed, `fetchNow` the clock after the post-speech cooldown,
     * when the queue is served and the timer restarted; `rolls` drive the
     * queue's random sample.
     */
    method Tick(now: real, liveStarted: bool, settings: Option<NeuroSettings>, rolls: seq<nat>, fetchNow: real)
      returns (c: Cycle)
      modifies this, queue
      ensures !old(isRunning) ==> c == Exited
      ensures old(isRunning) && !liveStarted ==> c == WaitingForLive
      ensures c.Exited? || c.WaitingForLive? ==>
        && remaining == old(remaining) && lastUpdate == old(lastUpdate) && busy == old(busy)
        && greeted == old(greeted) && queue.Snapshot() == old(queue.Snapshot())
      ensures old(isRunning) && liveStarted ==>
        var left := Decay(old(remaining), old(lastUpdate), now);
        && (left > 0.0 ==>
              && c == Playing(SleepTime(left)) && busy && remaining == left && lastUpdate == now
              && greeted == old(greeted) && queue.Snapshot() == old(queue.Snapshot()))
        && (left == 0.0 ==>
              var served := Serve(old(queue.Snapshot()), fetchNow, None, ConfiguredSampleSize(settings), rolls);
              && !busy && (c.Invoked? || c.Backoff?)
              && queue.Snapshot() == served.1
              && (c.Backoff? <==> served.0.SampleError?)
              && (c.Invoked? ==> c.fetched == served.0.items))
        && (c.Invoked? ==>
              && c.cooldown == CooldownRange(settings)
              && Compose(old(greeted), settings, c.fetched) == Batch(c.batch, greeted)
              && remaining == 0.0 && lastUpdate == fetchNow)
        && (c.Backoff? ==>
              c.sleep == ErrorBackoff && remaining == 0.0 && lastUpdate == now && greeted == old(greeted))
      ensures remaining >= 0.0 || remaining == old(remaining)
      ensures isRunning == old(isRunning) && tasks == old(tasks)
    {
      if !isRunning {
        return Exited;
      }
      if !liveStarted {
        return WaitingForLive;
      }
      var timeElapsed := Max(0.0, now - lastUpdate);
      remaining := Max(0.0, remaining - timeElapsed);
      lastUpdate := now;
      if remaining > 0.0 {
        busy := true;
        return Playing(MinR(0.5, Max(0.01, remaining)));
      }
      busy := false;
      var cooldown := CooldownRange(settings);
      var fetch := queue.GetContent(fetchNow, None, ConfiguredSampleSize(settings), rolls);
      if fetch.SampleError? {
        return Backoff(ErrorBackoff);
      }
      var selected := fetch.items;
      remaining := 0.0;
      lastUpdate := fetchNow;
      var batch := selected;
      if !greeted && batch != [] {
        if settings.Some? {
          batch := [SystemChat(settings.value.initialGreeting)] + batch;
          greeted := true;
        } else {
          greeted := true;
        }
      }
      if batch == [] {
        var idlePrompt := if settings.Some? && settings.value.idlePrompt.Some? then settings.value.idlePrompt.value
                          else DefaultIdlePrompt;
        batch := [SystemChat(idlePrompt)];
      }
      return Invoked(cooldown, selected, batch);
    }
  }
}

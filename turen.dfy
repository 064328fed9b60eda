/**
 * The runtime's voice state machine: it receives the events of the speech
 * front end (`voice coming`, `asr pending`, `nlp`, ...), keeps the device's
 * awaken state, remembers which app's speech and media were paused by the
 * wake-up, and resumes them afterwards when that app is still in front.
 *
 * Calls on the light, TTS and media services, on the app lifetime and on the
 * message bus are recorded, in order, in `commands`. What the handlers read
 * from other components (the foreground app, whether the custodian is
 * prepared, the media service's answer to `pause`, the wifi state) is an
 * `Env` argument. The solitary-voice timer is a slot holding a handle, with
 * the set of handles still armed; `FireSolitaryTimer` is the timer firing.
 */
module TurenComponent {
  import opened Common

  datatype AsrState = Pending | Fake | End

  /** Calls the voice state machine makes on other services, in order. */
  datatype Command =
    | LightSetAwake
    | LightStopAwake
    | LightPlayLoading
    | LightAppSound(sound: string)
    | LightSetDegree(degree: string)
    | PauseLifetime
    | ResumeLifetime(recover: bool)
    | TtsPause(appId: Option<AppId>)
    | TtsStop(appId: Option<AppId>)
    | TtsResume(appId: Option<AppId>)
    | MediaPause(appId: Option<AppId>)
    | MediaResume(appId: Option<AppId>)
    | OpenUrl(url: string, preemptive: bool)
    | WifiScanPassively
    | StartForceUpdate
    | VoiceCommand(asr: string, nlp: string, action: string)
    | FloraPost(channel: string, flag: int)

  /** What the handlers read from the rest of the runtime when they run. */
  datatype Env = Env(
    currentAppId: Option<AppId>,  // life.getCurrentAppId()
    prepared: bool,               // custodian.isPrepared()
    forceUpdateAvailable: bool,
    mediaPaused: bool,            // the media service's `pause` reply has a truthy first element
    wifiHistory: nat,             // wifi.getNumOfHistory()
    wifiConnected: bool)          // wifi.getWifiState() === wifi.WIFI_CONNECTED

  /** The payload of a front-end event; `sl` is the sound-location degree. */
  datatype EventData = EventData(sl: Option<int>, asr: string, nlp: string, action: string)

  const NetworkAppId: AppId := "@yoda/network"
  const WifiConnectingSound := "/opt/media/wifi_is_connecting.ogg"

  datatype Handler =
    | OnVoiceComing | OnVoiceLocalAwake | OnAsrPending | OnAsrEnd
    | OnAsrFake | OnStartVoice | OnEndVoice | OnNlp

  function EventName(h: Handler): string {
    match h
    case OnVoiceComing => "voice coming"
    case OnVoiceLocalAwake => "voice local awake"
    case OnAsrPending => "asr pending"
    case OnAsrEnd => "asr end"
    case OnAsrFake => "asr fake"
    case OnStartVoice => "start voice"
    case OnEndVoice => "end voice"
    case OnNlp => "nlp"
  }

  /** The event table of `handleEvent`: the handler an event name selects, if any. */
  function HandlerOf(name: string): (h: Option<Handler>)
    ensures h.Some? ==> EventName(h.value) == name
    ensures h.None? ==> forall k: Handler :: EventName(k) != name
  {
    if name == "voice coming" then Some(OnVoiceComing)
    else if name == "voice local awake" then Some(OnVoiceLocalAwake)
    else if name == "asr pending" then Some(OnAsrPending)
    else if name == "asr end" then Some(OnAsrEnd)
    else if name == "asr fake" then Some(OnAsrFake)
    else if name == "start voice" then Some(OnStartVoice)
    else if name == "end voice" then Some(OnEndVoice)
    else if name == "nlp" then Some(OnNlp)
    else None
  }

  /** Every handler is reached by exactly its own name. */
  lemma HandlerOfEventName(h: Handler)
    ensures HandlerOf(EventName(h)) == Some(h)
  {
  }

  /**
   * The calls `resetAwaken` makes: none when the device is not awaken;
   * otherwise the awake light is stopped and the lifetime resumed, and then
   * without recovery the paused speech is stopped, while with recovery the
   * paused speech and the paused media are each resumed only if their app is
   * the current one.
   */
  function ResetCommands(awaken: bool, recover: bool, pausedTts: Option<AppId>,
                         pausedMedia: Option<AppId>, current: Option<AppId>): (r: seq<Command>)
    ensures !awaken ==> r == []
    ensures awaken ==> |r| >= 2 && r[0] == LightStopAwake && r[1] == ResumeLifetime(recover)
    ensures TtsStop(pausedTts) in r <==> awaken && !recover && Truthy(pausedTts)
    ensures TtsResume(pausedTts) in r <==> awaken && recover && Truthy(pausedTts) && pausedTts == current
    ensures MediaResume(pausedMedia) in r <==> awaken && recover && Truthy(pausedMedia) && pausedMedia == current
    ensures forall c :: c in r ==>
      c in [LightStopAwake, ResumeLifetime(recover), TtsStop(pausedTts), TtsResume(pausedTts), MediaResume(pausedMedia)]
  {
    if !awaken then []
    else
      var stopOrResume :=
        if !recover then
          (if Truthy(pausedTts) then [TtsStop(pausedTts)] else [])
        else
          (if Truthy(pausedTts) && pausedTts == current then [TtsResume(pausedTts)] else []) +
          (if Truthy(pausedMedia) && pausedMedia == current then [MediaResume(pausedMedia)] else []);
      [LightStopAwake, ResumeLifetime(recover)] + stopOrResume
  }

  /** The calls `setAwaken` makes after its own reset: pause the lifetime, the app's speech and media, light up. */
  function AwakeCommands(current: Option<AppId>): seq<Command> {
    [PauseLifetime, TtsPause(current), MediaPause(current), LightSetAwake]
  }

  /** The calls of `voice local awake`, chosen by the foreground app and the wifi state. */
  function LocalAwakeCommands(data: EventData, env: Env): (r: seq<Command>)
    ensures env.currentAppId == Some(NetworkAppId) ==> r == [OpenUrl("yoda-skill://network/renew", true)]
    ensures env.currentAppId != Some(NetworkAppId) && env.wifiHistory == 0 ==>
      r == [OpenUrl("yoda-skill://network/setup", true)]
    ensures env.currentAppId != Some(NetworkAppId) && env.wifiHistory > 0 && !env.wifiConnected ==>
      r == [WifiScanPassively, LightAppSound(WifiConnectingSound)]
    ensures env.currentAppId != Some(NetworkAppId) && env.wifiHistory > 0 && env.wifiConnected ==>
      r == [LightSetDegree(IntToString(if data.sl.Some? then data.sl.value else 0))]
  {
    if env.currentAppId == Some(NetworkAppId) then [OpenUrl("yoda-skill://network/renew", true)]
    else if env.wifiHistory == 0 then [OpenUrl("yoda-skill://network/setup", true)]
    else if !env.wifiConnected then [WifiScanPassively, LightAppSound(WifiConnectingSound)]
    else [LightSetDegree(IntToString(if data.sl.Some? then data.sl.value else 0))]
  }

  class Turen {
    var muted: bool
    var awaken: bool
    var asrState: AsrState
    var pickingUp: bool
    var pickingUpDiscardNext: bool
    var pausedTtsAppIdOnAwaken: Option<AppId>
    var pausedMediaAppIdOnAwaken: Option<AppId>
    /** The handle last stored in the solitary-voice timer slot. */
    var solitaryVoiceComingTimer: Option<nat>
    /** Handles of solitary-voice timers that are armed and not cleared. */
    var armedTimers: set<nat>
    var nextTimer: nat
    var commands: seq<Command>

    constructor ()
      ensures !muted && !awaken && asrState == End && !pickingUp && !pickingUpDiscardNext
      ensures pausedTtsAppIdOnAwaken == None && pausedMediaAppIdOnAwaken == None
      ensures solitaryVoiceComingTimer == None && armedTimers == {} && nextTimer == 0
      ensures commands == [] && TimersFresh()
    {
      muted, awaken, asrState := false, false, End;
      pickingUp, pickingUpDiscardNext := false, false;
      pausedTtsAppIdOnAwaken, pausedMediaAppIdOnAwaken := None, None;
      solitaryVoiceComingTimer, armedTimers, nextTimer := None, {}, 0;
      commands := [];
    }

    /** Every armed handle was handed out before: it is below the next one. */
    predicate TimersFresh()
      reads this
    {
      forall h :: h in armedTimers ==> h < nextTimer
    }

    twostate predicate KeepsFlags()
      reads this
    {
      && muted == old(muted) && asrState == old(asrState)
      && pickingUp == old(pickingUp) && pickingUpDiscardNext == old(pickingUpDiscardNext)
    }

    twostate predicate KeepsTimers()
      reads this
    {
      && solitaryVoiceComingTimer == old(solitaryVoiceComingTimer)
      && armedTimers == old(armedTimers) && nextTimer == old(nextTimer)
    }

    twostate predicate KeepsAwaken()
      reads this
    {
      && awaken == old(awaken)
      && pausedTtsAppIdOnAwaken == old(pausedTtsAppIdOnAwaken)
      && pausedMediaAppIdOnAwaken == old(pausedMediaAppIdOnAwaken)
    }

    twostate predicate Unchanged()
      reads this
    {
      KeepsFlags() && KeepsTimers() && KeepsAwaken() && commands == old(commands)
    }

    /**
     * The awaken fields after `resetAwaken(recover)`: untouched when the
     * device was not awaken; otherwise not awaken, the paused speech
     * forgotten, and the paused media forgotten only when recovering.
     */
    twostate predicate AwakenReset(recover: bool)
      reads this
    {
      if old(awaken) then
        && !awaken && pausedTtsAppIdOnAwaken == None
        && pausedMediaAppIdOnAwaken == (if recover then None else old(pausedMediaAppIdOnAwaken))
      else KeepsAwaken()
    }

    twostate predicate ResetAwakenDone(recover: bool, env: Env)
      reads this
    {
      && AwakenReset(recover)
      && commands == old(commands) + ResetCommands(old(awaken), recover, old(pausedTtsAppIdOnAwaken),
                                                   old(pausedMediaAppIdOnAwaken), env.currentAppId)
      && KeepsFlags() && KeepsTimers()
    }

    /** `resetAwaken({recover})`: ends the awaken state and undoes its pauses. */
    method ResetAwaken(recover: bool, env: Env)
      modifies this
      ensures ResetAwakenDone(recover, env)
    {
      if !awaken {
        return;
      }
      awaken := false;
      commands := commands + [LightStopAwake, ResumeLifetime(recover)];
      var pausedTts := pausedTtsAppIdOnAwaken;
      pausedTtsAppIdOnAwaken := None;
      if !recover {
        if Truthy(pausedTts) {
          commands := commands + [TtsStop(pausedTts)];
        }
        return;
      }
      var current := env.currentAppId;
      if Truthy(pausedTts) && pausedTts == current {
        commands := commands + [TtsResume(pausedTts)];
      }
      var pausedMedia := pausedMediaAppIdOnAwaken;
      pausedMediaAppIdOnAwaken := None;
      if Truthy(pausedMedia) && pausedMedia == current {
        commands := commands + [MediaResume(pausedMedia)];
      }
    }

    twostate predicate SetAwakenDone(env: Env)
      reads this
    {
      && awaken
      && pausedTtsAppIdOnAwaken == env.currentAppId
      && pausedMediaAppIdOnAwaken == (if env.mediaPaused then env.currentAppId else None)
      && commands == old(commands)
           + ResetCommands(old(awaken), false, old(pausedTtsAppIdOnAwaken), old(pausedMediaAppIdOnAwaken), env.currentAppId)
           + AwakeCommands(env.currentAppId)
      && KeepsFlags() && KeepsTimers()
    }

    /**
     * `setAwaken()`: an awaken device is first reset without recovery; then
     * the current app is remembered as the paused speech, and as the paused
     * media only when the media service reports it paused something.
     */
    method SetAwaken(env: Env)
      modifies this
      ensures SetAwakenDone(env)
    {
      if awaken {
        ResetAwaken(false, env);
      }
      awaken := true;
      var current := env.currentAppId;
      commands := commands + [PauseLifetime];
      pausedTtsAppIdOnAwaken := current;
      pausedMediaAppIdOnAwaken := None;
      commands := commands + [TtsPause(current), MediaPause(current)];
      if env.mediaPaused {
        pausedMediaAppIdOnAwaken := current;
      }
      commands := commands + [LightSetAwake];
    }

    twostate predicate VoiceComingDone(env: Env)
      reads this
    {
      if !env.prepared then Unchanged()
      else
        && awaken
        && pausedTtsAppIdOnAwaken == env.currentAppId
        && pausedMediaAppIdOnAwaken == (if env.mediaPaused then env.currentAppId else None)
        && commands == old(commands)
             + ResetCommands(old(awaken), false, old(pausedTtsAppIdOnAwaken), old(pausedMediaAppIdOnAwaken), env.currentAppId)
             + AwakeCommands(env.currentAppId)
             + (if env.forceUpdateAvailable then [StartForceUpdate] else [])
        && solitaryVoiceComingTimer == Some(old(nextTimer))
        && armedTimers == old(armedTimers) + {old(nextTimer)}
        && nextTimer == old(nextTimer) + 1
        && !pickingUpDiscardNext
        && muted == old(muted) && asrState == old(asrState) && pickingUp == old(pickingUp)
    }

    /**
     * `voice coming`: ignored unless the custodian is prepared; otherwise
     * awakens the device, arms a new solitary-voice timer in the slot (the
     * handle it held stays armed), and enables the next nlp.
     */
    method VoiceComing(env: Env)
      modifies this
      ensures VoiceComingDone(env)
      ensures old(TimersFresh()) ==> TimersFresh() && (env.prepared ==> old(nextTimer) !in old(armedTimers))
    {
      if !env.prepared {
        return;
      }
      SetAwaken(env);
      solitaryVoiceComingTimer := Some(nextTimer);
      armedTimers := armedTimers + {nextTimer};
      nextTimer := nextTimer + 1;
      if env.forceUpdateAvailable {
        commands := commands + [StartForceUpdate];
      }
      pickingUpDiscardNext := false;
    }

    twostate predicate AsrPendingDone()
      reads this
    {
      && asrState == Pending
      && armedTimers == (if old(solitaryVoiceComingTimer).Some?
                         then old(armedTimers) - {old(solitaryVoiceComingTimer).value}
                         else old(armedTimers))
      && solitaryVoiceComingTimer == old(solitaryVoiceComingTimer) && nextTimer == old(nextTimer)
      && muted == old(muted) && pickingUp == old(pickingUp) && pickingUpDiscardNext == old(pickingUpDiscardNext)
      && KeepsAwaken() && commands == old(commands)
    }

    /** `asr pending`: clears the timer whose handle is in the slot. */
    method AsrPending()
      modifies this
      ensures AsrPendingDone()
      ensures old(TimersFresh()) ==> TimersFresh()
    {
      asrState := Pending;
      if solitaryVoiceComingTimer.Some? {
        armedTimers := armedTimers - {solitaryVoiceComingTimer.value};
      }
    }

    twostate predicate AsrEndDone(env: Env)
      reads this
    {
      && asrState == End
      && AwakenReset(false)
      && commands == old(commands)
           + ResetCommands(old(awaken), false, old(pausedTtsAppIdOnAwaken), old(pausedMediaAppIdOnAwaken), env.currentAppId)
           + (if old(pickingUpDiscardNext) then [] else [LightPlayLoading])
      && muted == old(muted) && pickingUp == old(pickingUp) && pickingUpDiscardNext == old(pickingUpDiscardNext)
      && KeepsTimers()
    }

    /** `asr end`: resets without recovery, then shows loading unless this session was discarded. */
    method AsrEnd(env: Env)
      modifies this
      ensures AsrEndDone(env)
    {
      asrState := End;
      ResetAwaken(false, env);
      if !pickingUpDiscardNext {
        commands := commands + [LightPlayLoading];
      }
    }

    twostate predicate ResetWithState(s: AsrState, env: Env)
      reads this
    {
      && asrState == s
      && AwakenReset(true)
      && commands == old(commands)
           + ResetCommands(old(awaken), true, old(pausedTtsAppIdOnAwaken), old(pausedMediaAppIdOnAwaken), env.currentAppId)
      && muted == old(muted) && pickingUp == old(pickingUp) && pickingUpDiscardNext == old(pickingUpDiscardNext)
      && KeepsTimers()
    }

    /** `asr fake`: resets with recovery. */
    method AsrFake(env: Env)
      modifies this
      ensures ResetWithState(Fake, env)
    {
      asrState := Fake;
      ResetAwaken(true, env);
    }

    twostate predicate StartVoiceDone()
      reads this
    {
      && pickingUp
      && muted == old(muted) && asrState == old(asrState) && pickingUpDiscardNext == old(pickingUpDiscardNext)
      && KeepsTimers() && KeepsAwaken() && commands == old(commands)
    }

    /** `start voice`. */
    method StartVoice()
      modifies this
      ensures StartVoiceDone()
    {
      pickingUp := true;
    }

    twostate predicate EndVoiceDone(env: Env)
      reads this
    {
      && !pickingUp
      && muted == old(muted) && asrState == old(asrState) && pickingUpDiscardNext == old(pickingUpDiscardNext)
      && KeepsTimers()
      && if old(asrState) == End then KeepsAwaken() && commands == old(commands)
         else
           && AwakenReset(true)
           && commands == old(commands)
                + ResetCommands(old(awaken), true, old(pausedTtsAppIdOnAwaken), old(pausedMediaAppIdOnAwaken), env.currentAppId)
    }

    /** `end voice`: stops picking up, and resets with recovery unless the asr has ended. */
    method EndVoice(env: Env)
      modifies this
      ensures EndVoiceDone(env)
    {
      pickingUp := false;
      if asrState == End {
        return;
      }
      ResetAwaken(true, env);
    }

    twostate predicate NlpDone(data: EventData)
      reads this
    {
      && !pickingUpDiscardNext
      && muted == old(muted) && asrState == old(asrState) && pickingUp == old(pickingUp)
      && KeepsTimers() && KeepsAwaken()
      && commands == old(commands) + (if old(pickingUpDiscardNext) then [] else [VoiceCommand(data.asr, data.nlp, data.action)])
    }

    /** `nlp`: dropped once after a discarding pickup, otherwise handed to the runtime. */
    method Nlp(data: EventData)
      modifies this
      ensures NlpDone(data)
    {
      if pickingUpDiscardNext {
        pickingUpDiscardNext := false;
        return;
      }
      commands := commands + [VoiceCommand(data.asr, data.nlp, data.action)];
    }

    twostate predicate LocalAwakeDone(data: EventData, env: Env)
      reads this
    {
      KeepsFlags() && KeepsTimers() && KeepsAwaken() && commands == old(commands) + LocalAwakeCommands(data, env)
    }

    /** `voice local awake`. */
    method VoiceLocalAwake(data: EventData, env: Env)
      modifies this
      ensures LocalAwakeDone(data, env)
    {
      if env.currentAppId == Some(NetworkAppId) {
        commands := commands + [OpenUrl("yoda-skill://network/renew", true)];
        return;
      }
      if env.wifiHistory == 0 {
        commands := commands + [OpenUrl("yoda-skill://network/setup", true)];
        return;
      }
      if !env.wifiConnected {
        commands := commands + [WifiScanPassively, LightAppSound(WifiConnectingSound)];
        return;
      }
      var degree := if data.sl.Some? then data.sl.value else 0;
      commands := commands + [LightSetDegree(IntToString(degree))];
    }

    /**
     * `handleEvent(name, data)`: while muted every event is dropped; a name
     * outside the table changes nothing; any other name runs its handler.
     */
    method HandleEvent(name: string, data: EventData, env: Env)
      modifies this
      ensures old(muted) || HandlerOf(name).None? ==> Unchanged()
      ensures !old(muted) && HandlerOf(name).Some? ==>
        match HandlerOf(name).value
        case OnVoiceComing => VoiceComingDone(env)
        case OnVoiceLocalAwake => LocalAwakeDone(data, env)
        case OnAsrPending => AsrPendingDone()
        case OnAsrEnd => AsrEndDone(env)
        case OnAsrFake => ResetWithState(Fake, env)
        case OnStartVoice => StartVoiceDone()
        case OnEndVoice => EndVoiceDone(env)
        case OnNlp => NlpDone(data)
    {
      if muted {
        return;
      }
      var handler := HandlerOf(name);
      if handler.None? {
        return;
      }
      match handler.value
      case OnVoiceComing => VoiceComing(env);
      case OnVoiceLocalAwake => VoiceLocalAwake(data, env);
      case OnAsrPending => AsrPending();
      case OnAsrEnd => AsrEnd(env);
      case OnAsrFake => AsrFake(env);
      case OnStartVoice => StartVoice();
      case OnEndVoice => EndVoice(env);
      case OnNlp => Nlp(data);
    }

    /** `pickup(isPickup)`: not picking up means the next nlp is discarded; the flag goes to the front end. */
    method Pickup(isPickup: bool)
      modifies this
      ensures pickingUpDiscardNext == !isPickup
      ensures commands == old(commands) + [FloraPost("rokid.turen.pickup", if isPickup then 1 else 0)]
      ensures muted == old(muted) && asrState == old(asrState) && pickingUp == old(pickingUp)
      ensures KeepsTimers() && KeepsAwaken()
    {
      pickingUpDiscardNext := !isPickup;
      commands := commands + [FloraPost("rokid.turen.pickup", if isPickup then 1 else 0)];
    }

    /** The effect of `toggleMute(mute)` answering `r`. */
    twostate predicate ToggleMuteDone(mute: Option<bool>, r: bool, env: Env)
      reads this
    {
      && r == muted && muted == (if mute.Some? then mute.value else !old(muted))
      && asrState == old(asrState) && pickingUp == old(pickingUp) && pickingUpDiscardNext == old(pickingUpDiscardNext)
      && KeepsTimers()
      && var resets := old(asrState) == Pending && r;
        && commands == old(commands) + [FloraPost("rokid.turen.mute", if r then 1 else 0)]
             + (if resets then ResetCommands(old(awaken), true, old(pausedTtsAppIdOnAwaken),
                                            old(pausedMediaAppIdOnAwaken), env.currentAppId)
                else [])
        && (if resets then AwakenReset(true) else KeepsAwaken())
    }

    /**
     * `toggleMute(mute)`: sets `muted` (flips it when no value is given),
     * tells the front end, and resets the awaken state with recovery when
     * muting while an asr is pending. Answers the new `muted`.
     */
    method ToggleMute(mute: Option<bool>, env: Env) returns (r: bool)
      modifies this
      ensures ToggleMuteDone(mute, r, env)
    {
      var m := if mute.Some? then mute.value else !muted;
      muted := m;
      commands := commands + [FloraPost("rokid.turen.mute", if m then 1 else 0)];
      if asrState == Pending && m {
        ResetAwaken(true, env);
      }
      r := muted;
    }

    /**
     * The solitary-voice timer with handle `h` fires: it is disarmed and the
     * awaken state is reset with recovery. The timer is not a front-end
     * event, so it runs while muted too.
     */
    method FireSolitaryTimer(h: nat, env: Env)
      requires h in armedTimers
      modifies this
      ensures armedTimers == old(armedTimers) - {h}
      ensures solitaryVoiceComingTimer == old(solitaryVoiceComingTimer) && nextTimer == old(nextTimer)
      ensures AwakenReset(true) && KeepsFlags()
      ensures commands == old(commands)
        + ResetCommands(old(awaken), true, old(pausedTtsAppIdOnAwaken), old(pausedMediaAppIdOnAwaken), env.currentAppId)
      ensures old(TimersFresh()) ==> TimersFresh()
    {
      armedTimers := armedTimers - {h};
      ResetAwaken(true, env);
    }
  }

  function PreparedEnv(current: AppId, mediaPaused: bool): Env {
    Env(Some(current), true, false, mediaPaused, 1, true)
  }

  /**
   * A wake-up followed by a fake asr with the same app in front resumes the
   * app's speech, and its media exactly when the media service had paused it.
   */
  method AwakenThenRecover(app: AppId, mediaPaused: bool) returns (ttsResumed: bool, mediaResumed: bool, stillAwaken: bool)
    requires app != ""
    ensures ttsResumed && mediaResumed == mediaPaused && !stillAwaken
  {
    var t := new Turen();
    var env := PreparedEnv(app, mediaPaused);
    var none := EventData(None, "", "", "");
    t.HandleEvent("voice coming", none, env);
    var before := |t.commands|;
    t.HandleEvent("asr fake", none, env);
    var issued := t.commands[before..];
    ttsResumed := TtsResume(Some(app)) in issued;
    mediaResumed := MediaResume(Some(app)) in issued;
    stillAwaken := t.awaken;
  }

  /** When another app has come to the front, ending the wake-up resumes nothing. */
  method AwakenThenSwitch(app: AppId, other: AppId) returns (resumedAny: bool)
    requires app != "" && other != app
    ensures !resumedAny
  {
    var t := new Turen();
    var none := EventData(None, "", "", "");
    t.HandleEvent("voice coming", none, PreparedEnv(app, true));
    var before := |t.commands|;
    t.HandleEvent("asr fake", none, PreparedEnv(other, true));
    var issued := t.commands[before..];
    resumedAny := exists i :: 0 <= i < |issued| && (issued[i].TtsResume? || issued[i].MediaResume?);
  }

  /** After `pickup(false)` exactly one nlp is dropped; the next is handed on. */
  method DiscardOneNlp(first: EventData, second: EventData) returns (firstForwarded: bool, secondForwarded: bool)
    ensures !firstForwarded && secondForwarded
  {
    var t := new Turen();
    var env := PreparedEnv("app", false);
    t.Pickup(false);
    var n := |t.commands|;
    t.HandleEvent("nlp", first, env);
    firstForwarded := |t.commands| > n;
    n := |t.commands|;
    t.HandleEvent("nlp", second, env);
    secondForwarded := |t.commands| > n;
  }

  /** Muting while an asr is pending ends the wake-up; the muted device then drops events. */
  method MuteWhilePending(app: AppId) returns (muted: bool, awakenAfterMute: bool, droppedWhileMuted: bool)
    ensures muted && !awakenAfterMute && droppedWhileMuted
  {
    var t := new Turen();
    var env := PreparedEnv(app, false);
    var none := EventData(None, "", "", "");
    t.HandleEvent("voice coming", none, env);
    t.HandleEvent("asr pending", none, env);
    muted := t.ToggleMute(None, env);
    awakenAfterMute := t.awaken;
    var n := |t.commands|;
    t.HandleEvent("voice coming", none, env);
    droppedWhileMuted := |t.commands| == n && !t.awaken;
  }

  /**
   * Two wake-ups before an asr starts: `asr pending` clears only the timer in
   * the slot, so the first wake-up's timer is still armed and will reset.
   */
  method OverwrittenTimerStaysArmed(app: AppId) returns (firstArmed: bool, secondArmed: bool)
    ensures firstArmed && !secondArmed
  {
    var t := new Turen();
    var env := PreparedEnv(app, false);
    var none := EventData(None, "", "", "");
    t.HandleEvent("voice coming", none, env);
    t.HandleEvent("voice coming", none, env);
    t.HandleEvent("asr pending", none, env);
    firstArmed := 0 in t.armedTimers;
    secondArmed := 1 in t.armedTimers;
  }
}

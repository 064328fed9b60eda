/**
 * The TTS daemon's message-bus face: the `voice_coming` handler that pauses
 * the speech being played when the device is woken, and the remote methods
 * that speak, stop, pause, resume and end the awaken pause. The request
 * memos are kept up to date by the daemon's TTS engine wrapper, which is not
 * part of this model; here they are state that these handlers read, and the
 * calls the handlers make on the wrapper are logged.
 */
module TtsdFlora {
  import opened Common

  type ReqId = int

  /** What the daemon remembers about one speech request. */
  datatype RequestMemo = RequestMemo(appId: Option<AppId>, masqueradeId: Option<ReqId>)

  /** What the daemon remembers about an app's latest request. */
  datatype AppMemo = AppMemo(reqId: ReqId)

  /** Calls made on the TTS engine wrapper. */
  datatype TtsCall =
    | Speak(speaker: AppId, text: string)
    | Stop(appId: Option<AppId>, reqId: Option<ReqId>)
    | Pause(appId: Option<AppId>)
    | Resume(appId: Option<AppId>)
    | Reset

  /**
   * The decision of `voice_coming`: which request to remember and which app
   * to pause, or nothing. Nothing happens unless the network property reads
   * `'true'`, a request is playing, it has a memo and the memo names an app.
   * The remembered request is the memo's masquerade id when it has one.
   */
  function AwakenPauseTarget(networkConnected: Option<string>, playing: Option<ReqId>,
                             requestMemo: map<ReqId, RequestMemo>): (r: Option<(ReqId, AppId)>)
    ensures r.Some? <==>
      && networkConnected == Some("true")
      && playing.Some?
      && playing.value in requestMemo
      && requestMemo[playing.value].appId.Some?
    ensures r.Some? ==>
      var memo := requestMemo[playing.value];
      && r.value.1 == memo.appId.value
      && r.value.0 == (if memo.masqueradeId.Some? then memo.masqueradeId.value else playing.value)
  {
    if networkConnected != Some("true") then None
    else if playing.None? then None
    else if playing.value !in requestMemo then None
    else
      var memo := requestMemo[playing.value];
      if memo.appId.None? then None
      else
        var reqId := if memo.masqueradeId.Some? then memo.masqueradeId.value else playing.value;
        Some((reqId, memo.appId.value))
  }

  datatype ResetAwakenAction = StopPaused | KeepPaused | ResumeApp

  /**
   * The decision of `resetAwaken(appId)`: with no memo of the app, the paused
   * request is stopped; the app is resumed only when its latest request is
   * the one paused on awaken; otherwise nothing is resumed.
   */
  function ResetAwakenDecision(appId: Option<AppId>, pausedReqId: Option<ReqId>,
                               appRequestMemo: map<AppId, AppMemo>): (a: ResetAwakenAction)
    ensures a == StopPaused <==> (appId.None? || appId.value !in appRequestMemo)
    ensures a == ResumeApp <==>
      appId.Some? && appId.value in appRequestMemo && pausedReqId == Some(appRequestMemo[appId.value].reqId)
  {
    if appId.None? || appId.value !in appRequestMemo then StopPaused
    else if pausedReqId != Some(appRequestMemo[appId.value].reqId) then KeepPaused
    else ResumeApp
  }

  class TtsDaemon {
    var playingReqId: Option<ReqId>
    var requestMemo: map<ReqId, RequestMemo>
    var appRequestMemo: map<AppId, AppMemo>
    var pausedReqIdOnAwaken: Option<ReqId>
    var pausedAppIdOnAwaken: Option<AppId>
    var calls: seq<TtsCall>

    constructor (playing: Option<ReqId>, requestMemo: map<ReqId, RequestMemo>, appRequestMemo: map<AppId, AppMemo>)
      ensures playingReqId == playing && this.requestMemo == requestMemo && this.appRequestMemo == appRequestMemo
      ensures pausedReqIdOnAwaken == None && pausedAppIdOnAwaken == None && calls == []
    {
      playingReqId := playing;
      this.requestMemo := requestMemo;
      this.appRequestMemo := appRequestMemo;
      pausedReqIdOnAwaken, pausedAppIdOnAwaken := None, None;
      calls := [];
    }

    /** `rokid.turen.voice_coming`: remembers and pauses the playing request, or does nothing. */
    method VoiceComing(networkConnected: Option<string>)
      modifies this`pausedReqIdOnAwaken, this`pausedAppIdOnAwaken, this`calls
      ensures var target := AwakenPauseTarget(networkConnected, old(playingReqId), requestMemo);
        if target.Some? then
          && pausedReqIdOnAwaken == Some(target.value.0)
          && pausedAppIdOnAwaken == Some(target.value.1)
          && calls == old(calls) + [Pause(Some(target.value.1))]
        else
          && pausedReqIdOnAwaken == old(pausedReqIdOnAwaken)
          && pausedAppIdOnAwaken == old(pausedAppIdOnAwaken)
          && calls == old(calls)
    {
      if networkConnected != Some("true") {
        return;
      }
      var reqId := playingReqId;
      if pausedReqIdOnAwaken.Some? && reqId.None? {
        // a previous pause has not been resumed and nothing plays now
        return;
      }
      if reqId.None? {
        return;
      }
      if reqId.value !in requestMemo {
        return;
      }
      var memo := requestMemo[reqId.value];
      if memo.appId.None? {
        return;
      }
      var paused := reqId.value;
      if memo.masqueradeId.Some? {
        paused := memo.masqueradeId.value;
      }
      pausedReqIdOnAwaken := Some(paused);
      pausedAppIdOnAwaken := memo.appId;
      calls := calls + [Pause(memo.appId)];
    }

    /** `yodart.ttsd.speak [appId, text]`: answers `'-1'` without speaking when either is missing. */
    method SpeakMethod(appId: Option<AppId>, text: Option<string>, engineId: ReqId) returns (reply: string)
      modifies this`calls
      ensures !Truthy(appId) || !Truthy(text) ==> reply == "-1" && calls == old(calls)
      ensures Truthy(appId) && Truthy(text) ==>
        reply == IntToString(engineId) && calls == old(calls) + [Speak(appId.value, text.value)]
    {
      if !Truthy(appId) || !Truthy(text) {
        return "-1";
      }
      calls := calls + [Speak(appId.value, text.value)];
      reply := IntToString(engineId);
    }

    /** `yodart.ttsd.stop [appId]`: answers false without stopping when the app id is missing. */
    method StopMethod(appId: Option<AppId>) returns (reply: bool)
      modifies this`calls
      ensures reply == Truthy(appId)
      ensures calls == old(calls) + (if Truthy(appId) then [Stop(appId, None)] else [])
    {
      if !Truthy(appId) {
        return false;
      }
      calls := calls + [Stop(appId, None)];
      reply := true;
    }

    /** `yodart.ttsd.reset`. */
    method ResetMethod() returns (reply: bool)
      modifies this`calls
      ensures reply && calls == old(calls) + [Reset]
    {
      calls := calls + [Reset];
      reply := true;
    }

    /** `yodart.ttsd.pause [appId]`: answers true in every case, pausing only a given app. */
    method PauseMethod(appId: Option<AppId>) returns (reply: bool)
      modifies this`calls
      ensures reply
      ensures calls == old(calls) + (if Truthy(appId) then [Pause(appId)] else [])
    {
      if Truthy(appId) {
        calls := calls + [Pause(appId)];
      }
      reply := true;
    }

    /** `yodart.ttsd.resume [appId]`: resumes whatever id was given, and answers true. */
    method ResumeMethod(appId: Option<AppId>) returns (reply: bool)
      modifies this`calls
      ensures reply && calls == old(calls) + [Resume(appId)]
    {
      calls := calls + [Resume(appId)];
      reply := true;
    }

    /**
     * `yodart.ttsd.resetAwaken [appId]`: always forgets the awaken pause;
     * resumes the app (answering true) only when its latest request is the
     * paused one; stops the paused request when the app has no memo.
     */
    method ResetAwakenMethod(appId: Option<AppId>) returns (reply: bool)
      modifies this`pausedReqIdOnAwaken, this`pausedAppIdOnAwaken, this`calls
      ensures pausedReqIdOnAwaken == None && pausedAppIdOnAwaken == None
      ensures var action := ResetAwakenDecision(appId, old(pausedReqIdOnAwaken), appRequestMemo);
        && reply == (action == ResumeApp)
        && calls == old(calls) + match action
                                 case StopPaused => [Stop(old(pausedAppIdOnAwaken), old(pausedReqIdOnAwaken))]
                                 case KeepPaused => []
                                 case ResumeApp => [Resume(appId)]
    {
      var pausedReqId := pausedReqIdOnAwaken;
      var pausedAppId := pausedAppIdOnAwaken;
      pausedReqIdOnAwaken := None;
      pausedAppIdOnAwaken := None;
      if appId.None? || appId.value !in appRequestMemo {
        calls := calls + [Stop(pausedAppId, pausedReqId)];
        return false;
      }
      var memo := appRequestMemo[appId.value];
      if pausedReqId != Some(memo.reqId) {
        return false;
      }
      calls := calls + [Resume(appId)];
      reply := true;
    }
  }

  /**
   * An awaken pause and its reset for the same app, while the app has not
   * spoken again, resume it; the pause is forgotten either way.
   */
  method PauseThenResume(appId: AppId, reqId: ReqId) returns (resumed: bool, remembered: bool)
    ensures resumed && !remembered
  {
    var d := new TtsDaemon(Some(reqId), map[reqId := RequestMemo(Some(appId), None)], map[appId := AppMemo(reqId)]);
    d.VoiceComing(Some("true"));
    resumed := d.ResetAwakenMethod(Some(appId));
    remembered := d.pausedReqIdOnAwaken.Some?;
  }
}

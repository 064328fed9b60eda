/**
 * The TTS client module: a dispatcher that keeps a table of the speech
 * tasks the native engine is working on, keyed by the id the engine gave
 * each task, and forwards the engine's events to their task. The native
 * engine is represented by the calls made on it; the ids it returns are inputs.
 */
module TtsDispatch {
  import opened Common

  /** Calls made on the native engine. */
  datatype NativeCall = NativeSay(text: string) | NativeStop(id: int)

  /** What the dispatcher emits: `ready` on itself, or an engine event on one task. */
  datatype Emitted = DispatcherReady | TaskEvent(id: int, event: string)

  class TtsDispatcher {
    /** The task table: engine id to the text the task speaks. */
    var tasks: map<int, string>
    /** The text of the most recent `say` still in the table's view, `null` after a finishing event. */
    var last: Option<string>
    /** The process-wide `ROKID_VOICE` marker. */
    var voice: Option<AppId>
    var calls: seq<NativeCall>
    var emitted: seq<Emitted>

    constructor ()
      ensures tasks == map[] && last == None && voice == None
      ensures calls == [] && emitted == []
    {
      tasks, last, voice := map[], None, None;
      calls, emitted := [], [];
    }

    /**
     * `say(text)`: the engine starts the task and answers `engineId`; the task
     * is stored under that id and `text` becomes the last text. The voice
     * marker takes the calling app's id when the process has one.
     */
    method Say(text: string, engineId: int, appId: Option<AppId>)
      modifies this
      ensures tasks == old(tasks)[engineId := text]
      ensures last == Some(text)
      ensures voice == (if Truthy(appId) then appId else old(voice))
      ensures calls == old(calls) + [NativeSay(text)]
      ensures emitted == old(emitted)
    {
      if Truthy(appId) {
        voice := appId;
      }
      calls := calls + [NativeSay(text)];
      tasks := tasks[engineId := text];
      last := Some(text);
    }

    /** `stopAll`: asks the engine to stop every task in the table, once each, and keeps the table. */
    method StopAll()
      modifies this`calls
      ensures |calls| == |old(calls)| + |tasks|
      ensures calls[..|old(calls)|] == old(calls)
      ensures forall i :: |old(calls)| <= i < |calls| ==> calls[i].NativeStop? && calls[i].id in tasks
      ensures forall id :: id in tasks ==> NativeStop(id) in calls[|old(calls)|..]
    {
      var remaining := tasks.Keys;
      var stops: seq<NativeCall> := [];
      while remaining != {}
        invariant remaining <= tasks.Keys && calls == old(calls)
        invariant |stops| + |remaining| == |tasks|
        invariant forall i :: 0 <= i < |stops| ==> stops[i].NativeStop? && stops[i].id in tasks - remaining
        invariant forall id :: id in tasks && id !in remaining ==> NativeStop(id) in stops
        decreases |remaining|
      {
        NonEmptyHasElement(remaining);
        var k :| k in remaining;
        stops := stops + [NativeStop(k)];
        remaining := remaining - {k};
      }
      calls := calls + stops;
    }

    /**
     * `_onEvent(event, id)`: `ready` is forwarded to the dispatcher's own
     * listeners; an event for an unknown id is dropped; any other event goes
     * to its task, and every event but `start` also removes the task, clears
     * the last text and the voice marker.
     */
    method OnEvent(event: string, id: int)
      modifies this
      ensures event == "ready" ==>
        emitted == old(emitted) + [DispatcherReady] && tasks == old(tasks) && last == old(last) && voice == old(voice)
      ensures event != "ready" && id !in old(tasks) ==>
        emitted == old(emitted) && tasks == old(tasks) && last == old(last) && voice == old(voice)
      ensures event != "ready" && id in old(tasks) ==> emitted == old(emitted) + [TaskEvent(id, event)]
      ensures event != "ready" && id in old(tasks) && event == "start" ==>
        tasks == old(tasks) && last == old(last) && voice == old(voice)
      ensures event != "ready" && id in old(tasks) && event != "start" ==>
        tasks == old(tasks) - {id} && last == None && voice == None
      ensures calls == old(calls)
    {
      if event == "ready" {
        emitted := emitted + [DispatcherReady];
        return;
      }
      if id !in tasks {
        return;
      }
      emitted := emitted + [TaskEvent(id, event)];
      if event != "start" {
        tasks := tasks - {id};
        last := None;
        voice := None;
      }
    }
  }

  /** A task stays in the table through `start` and leaves it with its first other event. */
  method TaskLifecycle(text: string, engineId: int, other: string) returns (afterStart: bool, afterOther: bool)
    requires other != "start" && other != "ready"
    ensures afterStart && !afterOther
  {
    var d := new TtsDispatcher();
    d.Say(text, engineId, None);
    d.OnEvent("start", engineId);
    afterStart := engineId in d.tasks;
    d.OnEvent(other, engineId);
    afterOther := engineId in d.tasks;
  }
}

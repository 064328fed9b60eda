/**
 * The runtime's key-event state machine. Key presses come in as keydown,
 * keyup, longpress and gesture events; each is either delegated to the
 * foreground app that claimed the key, or looked up in the keyboard
 * configuration, whose entry (a descriptor) either opens a URL or calls a
 * runtime method. The handler tracks the key being held, when it was first
 * pressed, whether a long press swallowed the rest of the press, and a
 * debounce guard on each descriptor.
 *
 * The configuration is a table from section (the key code in decimal, or
 * `fallbacks`) and event name to descriptor; a guard is named by the same
 * pair. The debounce timer that lowers a guard is `ReleaseGuard`. What the
 * handler asks of other components (the foreground app, which apps are
 * running) is a `KeyEnv` argument, and what it does is recorded in `outcomes`.
 */
module KeyboardComponent {
  import opened Common

  /** The JavaScript values a descriptor field may hold. */
  datatype JsValue =
    | Undefined
    | Null
    | Bool(b: bool)
    | Num(n: int)
    | Str(s: string)
    | Arr(items: seq<string>)
    | Obj

  predicate JsTruthy(v: JsValue) {
    match v
    case Undefined => false
    case Null => false
    case Bool(b) => b
    case Num(n) => n != 0
    case Str(s) => s != ""
    case Arr(_) => true
    case Obj => true
  }

  /** `typeof v === 'object'`, which holds for `null` and arrays too. */
  predicate IsObject(v: JsValue) {
    v.Null? || v.Arr? || v.Obj?
  }

  /** One entry of the keyboard configuration. */
  datatype Descriptor = Descriptor(
    url: JsValue,
    options: JsValue,
    runtimeMethod: JsValue,
    params: JsValue,
    debounce: Option<int>,
    timeDelta: Option<int>,
    repeat: bool,
    preventSubsequent: bool)

  /** What executing a descriptor does. */
  datatype Action =
    | OpenUrl(url: string, options: JsValue)
    | CallRuntime(name: string, params: seq<string>)

  /** Where a descriptor lives in the configuration: (section, event name). */
  type DescriptorRef = (string, string)

  datatype Outcome =
    | Delegated(eventType: string, keyCode: int, appId: AppId)
    | Executed(action: Action)

  datatype KeyEvent = KeyEvent(keyCode: int, keyTime: int)

  datatype KeyEnv = KeyEnv(currentAppId: Option<AppId>, activeApps: set<AppId>)

  const ListenerEvents: seq<string> := ["keydown", "keyup", "click", "dbclick", "longpress"]
  const ListenerEventSet: set<string> := {"keydown", "keyup", "click", "dbclick", "longpress"}
  const DefaultLongpressWindow := 500
  const DefaultDebounce := 0

  /**
   * `execute(descriptor)`: a truthy `url` wins and must be a string with
   * object options (absent options count as `{}`); otherwise a truthy
   * `runtimeMethod` must name a runtime method and `params` (absent: `[]`)
   * must be an array. Anything else does nothing.
   */
  function Execute(d: Descriptor, runtimeMethods: set<string>): (r: Option<Action>)
    ensures JsTruthy(d.url) ==>
      (r.Some? <==> d.url.Str? && (d.options.Undefined? || IsObject(d.options)))
    ensures r.Some? && r.value.OpenUrl? ==>
      JsTruthy(d.url) && r.value == OpenUrl(d.url.s, if d.options.Undefined? then Obj else d.options)
    ensures r.Some? && r.value.CallRuntime? <==>
      && !JsTruthy(d.url) && JsTruthy(d.runtimeMethod)
      && d.runtimeMethod.Str? && d.runtimeMethod.s in runtimeMethods
      && (d.params.Undefined? || d.params.Arr?)
    ensures r.Some? && r.value.CallRuntime? ==>
      r.value.name == d.runtimeMethod.s && r.value.params == (if d.params.Arr? then d.params.items else [])
  {
    if JsTruthy(d.url) then
      if !d.url.Str? then None
      else
        var options := if d.options.Undefined? then Obj else d.options;
        if !IsObject(options) then None else Some(OpenUrl(d.url.s, options))
    else if JsTruthy(d.runtimeMethod) then
      var params := if d.params.Undefined? then Arr([]) else d.params;
      if !(d.runtimeMethod.Str? && d.runtimeMethod.s in runtimeMethods) then None
      else if !params.Arr? then None
      else Some(CallRuntime(d.runtimeMethod.s, params.items))
    else None
  }

  /**
   * `handleAppListener(type, event)`: the app to delegate to, if the key is
   * claimed for this event type by the foreground app and that app is running.
   */
  function DelegateTarget(listeners: map<string, map<string, Option<AppId>>>, eventType: string,
                          key: string, env: KeyEnv): (r: Option<AppId>)
    ensures r.Some? <==>
      && eventType in listeners && key in listeners[eventType]
      && listeners[eventType][key].Some?
      && listeners[eventType][key] == env.currentAppId
      && listeners[eventType][key].value in env.activeApps
    ensures r.Some? ==> r == env.currentAppId
  {
    if eventType !in listeners || key !in listeners[eventType] then None
    else
      var listener := listeners[eventType][key];
      if listener.Some? && listener == env.currentAppId && listener.value in env.activeApps then listener
      else None
  }

  /**
   * `Math.round(delta / window)` on whole milliseconds: the number of
   * windows nearest to `delta`, a tie rounding up (`floor(x + 0.5)`).
   */
  function WindowIndex(delta: int, window: int): (q: int)
    requires window > 0
    ensures 2 * window * q <= 2 * delta + window < 2 * window * q + 2 * window
  {
    (2 * delta + window) / (2 * window)
  }

  /** The long-press duration rounded to the window: a multiple of it at most half a window away. */
  function RoundToWindow(delta: int, window: int): (r: int)
    requires window > 0
    ensures r == WindowIndex(delta, window) * window
    ensures -window <= 2 * (delta - r) < window
  {
    var q := WindowIndex(delta, window);
    assert 2 * window * q == 2 * (q * window);
    q * window
  }

  lemma MulLe(a: int, b: int, w: int)
    requires a <= b && w > 0
    ensures a * w <= b * w
  {
  }

  /** The rounding picks a nearest multiple: no multiple of the window is closer. */
  lemma RoundToWindowNearest(delta: int, window: int, k: int)
    requires window > 0
    ensures var r := RoundToWindow(delta, window);
      Abs(delta - r) <= Abs(delta - k * window)
  {
    var r := RoundToWindow(delta, window);
    var q := WindowIndex(delta, window);
    if k > q {
      MulLe(q + 1, k, window);
      assert (q + 1) * window == r + window;
    } else if k < q {
      MulLe(k, q - 1, window);
      assert (q - 1) * window == r - window;
    }
  }

  function Abs(x: int): nat {
    if x < 0 then -x else x
  }

  /**
   * A long-press descriptor fires when the press has lasted at least its
   * `timeDelta` (0 when absent), and either it repeats or the press has
   * lasted exactly that long.
   */
  function LongpressFires(d: Descriptor, timeDelta: int): (fires: bool)
    ensures var expected := if d.timeDelta.Some? then d.timeDelta.value else 0;
      fires <==> timeDelta >= expected && (d.repeat || timeDelta == expected)
  {
    var expected := if d.timeDelta.Some? then d.timeDelta.value else 0;
    if !d.repeat && timeDelta > expected then false
    else if timeDelta < expected then false
    else true
  }

  /** The descriptor of a long press: `longpress` of the key, else `longpress-<delta>`. */
  function LongpressRef(config: map<string, map<string, Descriptor>>, key: string, timeDelta: int): (r: Option<DescriptorRef>)
    ensures r.Some? ==> r.value.0 == key && r.value.0 in config && r.value.1 in config[key]
    ensures key in config && "longpress" in config[key] ==> r == Some((key, "longpress"))
    ensures r.None? <==>
      key !in config || ("longpress" !in config[key] && "longpress-" + IntToString(timeDelta) !in config[key])
  {
    if key !in config then None
    else if "longpress" in config[key] then Some((key, "longpress"))
    else
      var name := "longpress-" + IntToString(timeDelta);
      if name in config[key] then Some((key, name)) else None
  }

  /** The descriptor of a gesture: the key's own, else the `fallbacks` one. */
  function GestureRef(config: map<string, map<string, Descriptor>>, key: string, gesture: string): (r: Option<DescriptorRef>)
    ensures r.Some? ==> r.value.0 in config && r.value.1 == gesture && gesture in config[r.value.0]
    ensures key in config && gesture in config[key] ==> r == Some((key, gesture))
    ensures r.None? <==>
      (key !in config || gesture !in config[key]) && ("fallbacks" !in config || gesture !in config["fallbacks"])
  {
    if key in config && gesture in config[key] then Some((key, gesture))
    else if "fallbacks" in config && gesture in config["fallbacks"] then Some(("fallbacks", gesture))
    else None
  }

  /** The events a prevent or restore of `event` applies to: that one if it is a known event, else all five. */
  function TargetEvents(event: Option<string>): (r: seq<string>)
    ensures event.Some? && event.value in ListenerEvents ==> r == [event.value]
    ensures !(event.Some? && event.value in ListenerEvents) ==> r == ListenerEvents
    ensures forall e :: e in r ==> e in ListenerEvents
  {
    if event.Some? && event.value in ListenerEvents then [event.value] else ListenerEvents
  }

  /** One event's table after `restoreKeyDefaults`: the key is released only if `appId` holds it. */
  function Released(table: map<string, Option<AppId>>, key: string, appId: AppId): map<string, Option<AppId>> {
    if key in table && table[key] == Some(appId) then table[key := None] else table
  }

  class KeyboardHandler {
    var currentKeyCode: Option<int>
    var firstLongPressTime: Option<int>
    var preventSubsequent: bool
    const longpressWindow: int
    const debounce: int
    const config: map<string, map<string, Descriptor>>
    const runtimeMethods: set<string>
    /** Per event, which app claimed which key (`null` once restored). */
    var listeners: map<string, map<string, Option<AppId>>>
    /** Descriptors whose debounce guard is up. */
    var guards: set<DescriptorRef>
    var outcomes: seq<Outcome>

    predicate Valid()
      reads this
    {
      longpressWindow > 0 && listeners.Keys == ListenerEventSet
    }

    /**
     * The window and the debounce default to 500 and 0 when the
     * configuration's own settings leave them out; every listener table
     * starts empty.
     */
    constructor (config: map<string, map<string, Descriptor>>, runtimeMethods: set<string>,
                 window: Option<int>, debounce: Option<int>)
      requires window.Some? ==> window.value > 0
      ensures Valid()
      ensures currentKeyCode == None && firstLongPressTime == None && !preventSubsequent
      ensures longpressWindow == (if window.Some? then window.value else DefaultLongpressWindow)
      ensures this.debounce == (if debounce.Some? then debounce.value else DefaultDebounce)
      ensures this.config == config && this.runtimeMethods == runtimeMethods
      ensures forall e :: e in ListenerEvents ==> listeners[e] == map[]
      ensures guards == {} && outcomes == []
    {
      currentKeyCode, firstLongPressTime, preventSubsequent := None, None, false;
      longpressWindow := if window.Some? then window.value else DefaultLongpressWindow;
      this.debounce := if debounce.Some? then debounce.value else DefaultDebounce;
      this.config := config;
      this.runtimeMethods := runtimeMethods;
      listeners := map["keydown" := map[], "keyup" := map[], "click" := map[], "dbclick" := map[], "longpress" := map[]];
      guards, outcomes := {}, [];
    }

    /** Whether a descriptor is debounced at all: its own `debounce`, else the handler's, is non-zero. */
    function Debounces(d: Descriptor): bool
      reads this
    {
      (if d.debounce.Some? then d.debounce.value else debounce) != 0
    }

    /**
     * Runs a looked-up descriptor under its debounce guard: a debounced
     * descriptor whose guard is up is discarded; otherwise its guard goes up
     * (when debounced) and it is executed.
     */
    twostate predicate RanGuarded(ref: DescriptorRef)
      requires ref.0 in config && ref.1 in config[ref.0]
      reads this
    {
      var d := config[ref.0][ref.1];
      if Debounces(d) && ref in old(guards) then guards == old(guards) && outcomes == old(outcomes)
      else
        && guards == (if Debounces(d) then old(guards) + {ref} else old(guards))
        && var action := Execute(d, runtimeMethods);
           outcomes == old(outcomes) + (if action.Some? then [Executed(action.value)] else [])
    }

    method RunGuarded(ref: DescriptorRef)
      requires ref.0 in config && ref.1 in config[ref.0]
      modifies this`guards, this`outcomes
      ensures RanGuarded(ref)
    {
      var d := config[ref.0][ref.1];
      if Debounces(d) {
        if ref in guards {
          return;
        }
        guards := guards + {ref};
      }
      var action := Execute(d, runtimeMethods);
      if action.Some? {
        outcomes := outcomes + [Executed(action.value)];
      }
    }

    /** The debounce timer of a descriptor expires. */
    method ReleaseGuard(ref: DescriptorRef)
      modifies this`guards
      ensures guards == old(guards) - {ref}
    {
      guards := guards - {ref};
    }

    /**
     * `onKeydown`: the key becomes the current one and, unless a press is
     * already being timed, its time is the press's start; then it is
     * delegated, or its `keydown` descriptor runs under its guard.
     */
    method OnKeydown(ev: KeyEvent, env: KeyEnv)
      modifies this`currentKeyCode, this`firstLongPressTime, this`guards, this`outcomes
      ensures currentKeyCode == Some(ev.keyCode)
      ensures firstLongPressTime == if old(firstLongPressTime).None? then Some(ev.keyTime) else old(firstLongPressTime)
      ensures var key := IntToString(ev.keyCode);
        var target := DelegateTarget(listeners, "keydown", key, env);
        if target.Some? then
          outcomes == old(outcomes) + [Delegated("keydown", ev.keyCode, target.value)] && guards == old(guards)
        else if key !in config || "keydown" !in config[key] then
          outcomes == old(outcomes) && guards == old(guards)
        else RanGuarded((key, "keydown"))
    {
      currentKeyCode := Some(ev.keyCode);
      if firstLongPressTime.None? {
        firstLongPressTime := Some(ev.keyTime);
      }
      var key := IntToString(ev.keyCode);
      var target := DelegateTarget(listeners, "keydown", key, env);
      if target.Some? {
        outcomes := outcomes + [Delegated("keydown", ev.keyCode, target.value)];
        return;
      }
      if key !in config || "keydown" !in config[key] {
        return;
      }
      RunGuarded((key, "keydown"));
    }

    /**
     * `onKeyup`: a keyup of another key than the current one changes
     * nothing. Otherwise the press timing ends; a press swallowed by a long
     * press ends here without running anything; else the keyup is delegated
     * or its `keyup` descriptor runs under its guard.
     */
    method OnKeyup(ev: KeyEvent, env: KeyEnv)
      modifies this`firstLongPressTime, this`preventSubsequent, this`guards, this`outcomes
      ensures old(currentKeyCode) != Some(ev.keyCode) ==>
        && firstLongPressTime == old(firstLongPressTime) && preventSubsequent == old(preventSubsequent)
        && guards == old(guards) && outcomes == old(outcomes)
      ensures old(currentKeyCode) == Some(ev.keyCode) ==> firstLongPressTime == None && !preventSubsequent
      ensures old(currentKeyCode) == Some(ev.keyCode) && old(preventSubsequent) ==>
        guards == old(guards) && outcomes == old(outcomes)
      ensures old(currentKeyCode) == Some(ev.keyCode) && !old(preventSubsequent) ==>
        var key := IntToString(ev.keyCode);
        var target := DelegateTarget(listeners, "keyup", key, env);
        if target.Some? then
          outcomes == old(outcomes) + [Delegated("keyup", ev.keyCode, target.value)] && guards == old(guards)
        else if key !in config || "keyup" !in config[key] then
          outcomes == old(outcomes) && guards == old(guards)
        else RanGuarded((key, "keyup"))
    {
      if currentKeyCode != Some(ev.keyCode) {
        return;
      }
      firstLongPressTime := None;
      if preventSubsequent {
        preventSubsequent := false;
        return;
      }
      var key := IntToString(ev.keyCode);
      var target := DelegateTarget(listeners, "keyup", key, env);
      if target.Some? {
        outcomes := outcomes + [Delegated("keyup", ev.keyCode, target.value)];
        return;
      }
      if key !in config || "keyup" !in config[key] {
        return;
      }
      RunGuarded((key, "keyup"));
    }

    /** The press duration a long press reports: rounded to the window, counting from 0 when no press is timed. */
    function LongpressDelta(keyTime: int): int
      requires Valid()
      reads this
    {
      var start := if firstLongPressTime.Some? then firstLongPressTime.value else 0;
      RoundToWindow(keyTime - start, longpressWindow)
    }

    /**
     * `onLongpress`: a long press of another key only forgets the press's
     * start. Otherwise nothing runs while a long press swallows the press;
     * else it is delegated, or the long-press descriptor runs when
     * `LongpressFires` for the rounded duration, swallowing the rest of the
     * press if it says so. There is no debounce on long presses.
     */
    method OnLongpress(ev: KeyEvent, env: KeyEnv)
      requires Valid()
      modifies this`firstLongPressTime, this`preventSubsequent, this`outcomes
      ensures old(currentKeyCode) != Some(ev.keyCode) ==>
        firstLongPressTime == None && preventSubsequent == old(preventSubsequent) && outcomes == old(outcomes)
      ensures old(currentKeyCode) == Some(ev.keyCode) ==> firstLongPressTime == old(firstLongPressTime)
      ensures old(currentKeyCode) == Some(ev.keyCode) && old(preventSubsequent) ==>
        preventSubsequent && outcomes == old(outcomes)
      ensures old(currentKeyCode) == Some(ev.keyCode) && !old(preventSubsequent) ==>
        var key := IntToString(ev.keyCode);
        var delta := old(LongpressDelta(ev.keyTime));
        var target := DelegateTarget(listeners, "longpress", key, env);
        var ref := LongpressRef(config, key, delta);
        if target.Some? then
          outcomes == old(outcomes) + [Delegated("longpress", ev.keyCode, target.value)] && !preventSubsequent
        else if ref.None? || !LongpressFires(config[ref.value.0][ref.value.1], delta) then
          outcomes == old(outcomes) && !preventSubsequent
        else
          var d := config[ref.value.0][ref.value.1];
          var action := Execute(d, runtimeMethods);
          && preventSubsequent == d.preventSubsequent
          && outcomes == old(outcomes) + (if action.Some? then [Executed(action.value)] else [])
    {
      if currentKeyCode != Some(ev.keyCode) {
        firstLongPressTime := None;
        return;
      }
      var delta := LongpressDelta(ev.keyTime);
      if preventSubsequent {
        return;
      }
      var key := IntToString(ev.keyCode);
      var target := DelegateTarget(listeners, "longpress", key, env);
      if target.Some? {
        outcomes := outcomes + [Delegated("longpress", ev.keyCode, target.value)];
        return;
      }
      var ref := LongpressRef(config, key, delta);
      if ref.None? {
        return;
      }
      var d := config[ref.value.0][ref.value.1];
      if !LongpressFires(d, delta) {
        return;
      }
      if d.preventSubsequent {
        preventSubsequent := true;
      }
      var action := Execute(d, runtimeMethods);
      if action.Some? {
        outcomes := outcomes + [Executed(action.value)];
      }
    }

    /**
     * `onGesture(gesture)`: delegated when an app claimed the key for this
     * gesture; else the key's descriptor for the gesture, or the fallback
     * one, runs under its guard.
     */
    method OnGesture(gesture: string, ev: KeyEvent, env: KeyEnv)
      modifies this`guards, this`outcomes
      ensures var key := IntToString(ev.keyCode);
        var target := DelegateTarget(listeners, gesture, key, env);
        if target.Some? then
          outcomes == old(outcomes) + [Delegated(gesture, ev.keyCode, target.value)] && guards == old(guards)
        else if GestureRef(config, key, gesture).None? then
          outcomes == old(outcomes) && guards == old(guards)
        else RanGuarded(GestureRef(config, key, gesture).value)
    {
      var key := IntToString(ev.keyCode);
      var target := DelegateTarget(listeners, gesture, key, env);
      if target.Some? {
        outcomes := outcomes + [Delegated(gesture, ev.keyCode, target.value)];
        return;
      }
      var ref := GestureRef(config, key, gesture);
      if ref.None? {
        return;
      }
      RunGuarded(ref.value);
    }

    /**
     * `preventKeyDefaults(appId, keyCode, event)`: `appId` claims the key for
     * the given event when it is one of the five known events, otherwise
     * for all five; nothing else in the tables changes.
     */
    method PreventKeyDefaults(appId: AppId, keyCode: int, event: Option<string>)
      requires Valid()
      modifies this`listeners
      ensures Valid()
      ensures var key := IntToString(keyCode);
        forall e :: e in listeners ==>
          listeners[e] == if e in TargetEvents(event) then old(listeners)[e][key := Some(appId)] else old(listeners)[e]
    {
      var key := IntToString(keyCode);
      var events := TargetEvents(event);
      for i := 0 to |events|
        invariant Valid()
        invariant forall e :: e in listeners ==>
          listeners[e] == if e in events[..i] then old(listeners)[e][key := Some(appId)] else old(listeners)[e]
      {
        var it := events[i];
        listeners := listeners[it := listeners[it][key := Some(appId)]];
      }
      assert events[..|events|] == events;
    }

    /**
     * `restoreKeyDefaults(appId, keyCode, event)`: over the same events,
     * releases the key only where `appId` holds it.
     */
    method RestoreKeyDefaults(appId: AppId, keyCode: int, event: Option<string>)
      requires Valid()
      modifies this`listeners
      ensures Valid()
      ensures var key := IntToString(keyCode);
        forall e :: e in listeners ==>
          listeners[e] == if e in TargetEvents(event) then Released(old(listeners)[e], key, appId) else old(listeners)[e]
    {
      var key := IntToString(keyCode);
      var events := TargetEvents(event);
      for i := 0 to |events|
        invariant Valid()
        invariant forall e :: e in listeners ==>
          listeners[e] == if e in events[..i] then Released(old(listeners)[e], key, appId) else old(listeners)[e]
      {
        var it := events[i];
        if key in listeners[it] && listeners[it][key] == Some(appId) {
          listeners := listeners[it := listeners[it][key := None]];
        }
      }
      assert events[..|events|] == events;
    }
  }

  /** A descriptor that calls the runtime method `name` with no parameters. */
  function CallDescriptor(name: string, debounce: Option<int>, timeDelta: Option<int>, repeat: bool, prevent: bool): Descriptor {
    Descriptor(Undefined, Undefined, Str(name), Undefined, debounce, timeDelta, repeat, prevent)
  }

  /**
   * A debounced keydown descriptor runs once; a second keydown while its
   * guard is up is discarded; after the guard is released it runs again.
   */
  method DebouncedKeydown(keyCode: int, time: int) returns (first: nat, second: nat, third: nat)
    ensures first == 1 && second == 1 && third == 2
  {
    var key := IntToString(keyCode);
    var config := map[key := map["keydown" := CallDescriptor("setMicMute", Some(300), None, false, false)]];
    var k := new KeyboardHandler(config, {"setMicMute"}, None, None);
    var env := KeyEnv(None, {});
    k.OnKeydown(KeyEvent(keyCode, time), env);
    first := |k.outcomes|;
    k.OnKeydown(KeyEvent(keyCode, time + 1), env);
    second := |k.outcomes|;
    k.ReleaseGuard((key, "keydown"));
    k.OnKeydown(KeyEvent(keyCode, time + 2), env);
    third := |k.outcomes|;
  }

  /**
   * A long press whose descriptor swallows the rest of the press: the keyup
   * that ends the press runs nothing and clears the flag.
   */
  method LongpressSwallowsKeyup(keyCode: int, time: int) returns (ranOnLongpress: bool, ranOnKeyup: bool, swallowedAfter: bool)
    ensures ranOnLongpress && !ranOnKeyup && !swallowedAfter
  {
    var key := IntToString(keyCode);
    var config := map[key := map["longpress" := CallDescriptor("pickup", None, Some(0), false, true),
                                 "keyup" := CallDescriptor("stop", None, None, false, false)]];
    var k := new KeyboardHandler(config, {"pickup", "stop"}, None, None);
    var env := KeyEnv(None, {});
    k.OnKeydown(KeyEvent(keyCode, time), env);
    assert k.LongpressDelta(time) == 0;
    k.OnLongpress(KeyEvent(keyCode, time), env);
    ranOnLongpress := |k.outcomes| == 1;
    k.OnKeyup(KeyEvent(keyCode, time), env);
    ranOnKeyup := |k.outcomes| > 1;
    swallowedAfter := k.preventSubsequent;
  }

  /** Once the app that claimed a key restores it, the key is no longer delegated to the app. */
  method PreventThenRestore(appId: AppId, keyCode: int) returns (delegatedBefore: bool, delegatedAfter: bool)
    ensures delegatedBefore && !delegatedAfter
  {
    var k := new KeyboardHandler(map[], {}, None, None);
    var env := KeyEnv(Some(appId), {appId});
    var key := IntToString(keyCode);
    k.PreventKeyDefaults(appId, keyCode, None);
    delegatedBefore := DelegateTarget(k.listeners, "keyup", key, env).Some?;
    k.RestoreKeyDefaults(appId, keyCode, Some("keyup"));
    delegatedAfter := DelegateTarget(k.listeners, "keyup", key, env).Some?;
  }
}

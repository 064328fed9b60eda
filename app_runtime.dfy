/**
 * The bookkeeping of the runtime façade: the monologue (one app holding the
 * top of the stack), the cloud skill slots and the skill-stack string the
 * runtime publishes, the guards around picking up and muting the
 * microphone, exiting an app, and starting the daemon apps one by one.
 *
 * The app lifetime is a collaborator of which only the foreground app, the
 * monopolist and the apps it was asked to create or deactivate are kept.
 * The voice state machine is the `Turen` class of `TurenComponent`. Calls on
 * the light service and `openUrl` are recorded in `calls`; every published
 * skill stack is recorded in `stacks`.
 */
module AppRuntimeFacade {
  import opened Common
  import TurenComponent

  /** The skill that the published stack leaves out (composition-de-voix). */
  const ExcludedSkillId: string := "RB0BF7E9D7F84B2BB4A1C2990A1EF8F5"

  /**
   * One slot of the published stack: local apps (ids starting with `@`) and
   * the excluded skill are published as empty; any other id as itself.
   */
  function StackEntry(id: string): (e: string)
    ensures e == "" <==> id == "" || id[0] == '@' || id == ExcludedSkillId
    ensures e != "" ==> e == id
  {
    if |id| > 0 && id[0] == '@' then ""
    else if id == ExcludedSkillId then ""
    else id
  }

  /** The published skill stack: the scene's entry and the cut's entry joined by `:`. */
  function CloudStack(scene: string, cut: string): string {
    StackEntry(scene) + ":" + StackEntry(cut)
  }

  /** Splits a string at its first `:`; `None` when there is none. */
  function SplitAtColon(s: string): (r: Option<(string, string)>)
    ensures r.Some? ==> ':' !in r.value.0 && s == r.value.0 + ":" + r.value.1
    ensures r.None? <==> ':' !in s
    decreases |s|
  {
    if s == [] then None
    else if s[0] == ':' then Some(([], s[1..]))
    else
      match SplitAtColon(s[1..])
      case None => None
      case Some((a, b)) => Some(([s[0]] + a, b))
  }

  lemma {:induction false} SplitAtColonOfJoin(a: string, b: string)
    requires ':' !in a
    ensures SplitAtColon(a + ":" + b) == Some((a, b))
    decreases |a|
  {
    if a == [] {
      assert (a + ":" + b)[1..] == b;
    } else {
      assert a[0] in a;
      assert (a + ":" + b)[1..] == a[1..] + ":" + b;
      SplitAtColonOfJoin(a[1..], b);
      assert [a[0]] + a[1..] == a;
    }
  }

  /**
   * The published stack reads back as its two slots, as long as the scene's
   * skill id has no `:` in it.
   */
  lemma CloudStackSplits(scene: string, cut: string)
    requires ':' !in scene
    ensures SplitAtColon(CloudStack(scene, cut)) == Some((StackEntry(scene), StackEntry(cut)))
  {
    SplitAtColonOfJoin(StackEntry(scene), StackEntry(cut));
  }

  /**
   * The daemon apps in key order: the executors flagged as daemons, without
   * an empty id (which the source drops as falsy).
   */
  function Daemons(executors: seq<(AppId, bool)>): (r: seq<AppId>)
    ensures |r| <= |executors|
    ensures forall i :: 0 <= i < |r| ==> r[i] != "" && (r[i], true) in executors
    ensures forall i :: 0 <= i < |executors| && executors[i].1 && executors[i].0 != "" ==> executors[i].0 in r
  {
    if executors == [] then []
    else
      var rest := Daemons(executors[1..]);
      assert forall i :: 1 <= i < |executors| ==> executors[i] == executors[1..][i - 1];
      if executors[0].1 && executors[0].0 != "" then [executors[0].0] + rest else rest
  }

  /** One executor alone: its id when it is a daemon with a non-empty id, nothing otherwise. */
  lemma DaemonsOfOne(e: (AppId, bool))
    ensures Daemons([e]) == if e.1 && e.0 != "" then [e.0] else []
  {
    assert [e][1..] == [];
  }

  /**
   * The daemons of consecutive executors are the daemons of each part, in
   * order: with `DaemonsOfOne` this fixes the order and the multiplicity of
   * every id, key order being kept.
   */
  lemma {:induction false} DaemonsConcat(a: seq<(AppId, bool)>, b: seq<(AppId, bool)>)
    ensures Daemons(a + b) == Daemons(a) + Daemons(b)
    decreases |a|
  {
    if a == [] {
      assert a + b == b;
    } else {
      assert (a + b)[0] == a[0];
      assert (a + b)[1..] == a[1..] + b;
      DaemonsConcat(a[1..], b);
    }
  }

  /** The app lifetime, as far as the façade sees it. */
  class Lifetime {
    var currentAppId: Option<AppId>
    var monopolist: Option<AppId>
    var created: seq<AppId>
    var deactivated: seq<AppId>

    constructor (current: Option<AppId>)
      ensures currentAppId == current && monopolist == None && created == [] && deactivated == []
    {
      currentAppId, monopolist, created, deactivated := current, None, [], [];
    }

    /** `createApp(appId)`. */
    method CreateApp(appId: AppId)
      modifies this`created
      ensures created == old(created) + [appId]
    {
      created := created + [appId];
    }

    method DeactivateAppById(appId: AppId)
      modifies this`deactivated
      ensures deactivated == old(deactivated) + [appId]
    {
      deactivated := deactivated + [appId];
    }
  }

  datatype RuntimeCall =
    | OpenUrl(url: string, preemptive: bool)
    | LightSetPickup(duration: string, withAwaken: bool)
    | LightStopPickup

  /** `domain`: the cloud skill in the cut slot, in the scene slot, and the active one. */
  datatype Domain = Domain(cut: string, scene: string, active: string)

  class AppRuntime {
    const life: Lifetime
    const turen: TurenComponent.Turen
    var domain: Domain
    var stacks: seq<string>
    var calls: seq<RuntimeCall>

    constructor (life: Lifetime, turen: TurenComponent.Turen)
      ensures this.life == life && this.turen == turen
      ensures domain == Domain("", "", "") && stacks == [] && calls == []
    {
      this.life, this.turen := life, turen;
      domain, stacks, calls := Domain("", "", ""), [], [];
    }

    /** `startMonologue(appId)`: succeeds, making the app the monopolist, only for the foreground app. */
    method StartMonologue(appId: AppId) returns (ok: bool)
      modifies life`monopolist
      ensures ok <==> life.currentAppId == Some(appId)
      ensures life.monopolist == if ok then Some(appId) else old(life.monopolist)
    {
      if Some(appId) != life.currentAppId {
        return false;
      }
      life.monopolist := Some(appId);
      ok := true;
    }

    /** `stopMonologue(appId)`: ends the monologue only of that app. */
    method StopMonologue(appId: AppId)
      modifies life`monopolist
      ensures life.monopolist == if old(life.monopolist) == Some(appId) then None else old(life.monopolist)
    {
      if life.monopolist == Some(appId) {
        life.monopolist := None;
      }
    }

    /**
     * `updateCloudStack(skillId, form, {isActive})`: the skill becomes the
     * active one when `isActive` (true when not given); form `cut` or `scene`
     * fills that slot and any other form neither; the stack is republished.
     */
    method UpdateCloudStack(skillId: string, form: string, isActive: Option<bool>)
      modifies this`domain, this`stacks
      ensures domain.active == if isActive != Some(false) then skillId else old(domain.active)
      ensures domain.cut == if form == "cut" then skillId else old(domain.cut)
      ensures domain.scene == if form == "scene" then skillId else old(domain.scene)
      ensures stacks == old(stacks) + [CloudStack(domain.scene, domain.cut)]
    {
      if isActive != Some(false) {
        domain := domain.(active := skillId);
      }
      if form == "cut" {
        domain := domain.(cut := skillId);
      } else if form == "scene" {
        domain := domain.(scene := skillId);
      }
      stacks := stacks + [StackEntry(domain.scene) + ":" + StackEntry(domain.cut)];
    }

    /** `resetCloudStack`: every slot emptied and `:` published. */
    method ResetCloudStack()
      modifies this`domain, this`stacks
      ensures domain == Domain("", "", "")
      ensures stacks == old(stacks) + [":"]
    {
      domain := Domain("", "", "");
      assert domain.scene + ":" + domain.cut == ":";
      stacks := stacks + [domain.scene + ":" + domain.cut];
    }

    /**
     * `setPickup(isPickup, duration, withAwaken)`: nothing when the voice
     * state machine is already there or when picking up while muted;
     * otherwise it is told once, and the pickup light shown (for `duration`,
     * 6000 when not given) or stopped.
     */
    method SetPickup(isPickup: bool, duration: Option<int>, withAwaken: bool)
      modifies turen, this`calls
      ensures var skip := old(turen.pickingUp) == isPickup || (old(turen.muted) && isPickup);
        if skip then unchanged(turen) && calls == old(calls)
        else
          && turen.pickingUpDiscardNext == !isPickup
          && turen.commands == old(turen.commands) + [TurenComponent.FloraPost("rokid.turen.pickup", if isPickup then 1 else 0)]
          && turen.muted == old(turen.muted) && turen.pickingUp == old(turen.pickingUp)
          && turen.asrState == old(turen.asrState) && turen.KeepsTimers() && turen.KeepsAwaken()
          && calls == old(calls) + [if isPickup then LightSetPickup(IntToString(PickupDuration(duration)), withAwaken)
                                    else LightStopPickup]
    {
      if turen.pickingUp == isPickup {
        return;
      }
      if turen.muted && isPickup {
        return;
      }
      turen.Pickup(isPickup);
      if isPickup {
        calls := calls + [LightSetPickup(IntToString(PickupDuration(duration)), withAwaken)];
      } else {
        calls := calls + [LightStopPickup];
      }
    }

    /**
     * `setMicMute(mute, {silent})`: nothing when `mute` is the current state;
     * otherwise mute is toggled exactly once (a missing `mute` always
     * toggles) and, unless silent, the matching sound effect is opened.
     */
    method SetMicMute(mute: Option<bool>, silent: bool, env: TurenComponent.Env)
      modifies turen, this`calls
      ensures mute == Some(old(turen.muted)) ==> unchanged(turen) && calls == old(calls)
      ensures mute != Some(old(turen.muted)) ==>
        && turen.muted == !old(turen.muted)
        && turen.ToggleMuteDone(None, turen.muted, env)
        && calls == old(calls) + if silent then []
                                 else if turen.muted then [OpenUrl("yoda-skill://volume/mic_mute_effect", false)]
                                 else [OpenUrl("yoda-skill://volume/mic_unmute_effect", false)]
    {
      if mute == Some(turen.muted) {
        return;
      }
      var muted := turen.ToggleMute(None, env);
      if silent {
        return;
      }
      if muted {
        calls := calls + [OpenUrl("yoda-skill://volume/mic_mute_effect", false)];
      } else {
        calls := calls + [OpenUrl("yoda-skill://volume/mic_unmute_effect", false)];
      }
    }

    /**
     * `exitAppById(appId, {clearContext})`: when clearing the context, the
     * scene and cut slots owned by the app (per `skillOwner`, the loader's
     * skill-to-app table) are emptied without touching the active skill;
     * then the app is deactivated.
     */
    method ExitAppById(appId: AppId, clearContext: bool, skillOwner: map<string, AppId>)
      modifies this`domain, this`stacks, life`deactivated
      ensures life.deactivated == old(life.deactivated) + [appId]
      ensures domain.active == old(domain.active)
      ensures var ownsScene := clearContext && old(domain.scene) in skillOwner && skillOwner[old(domain.scene)] == appId;
        var ownsCut := clearContext && old(domain.cut) in skillOwner && skillOwner[old(domain.cut)] == appId;
        && domain.scene == (if ownsScene then "" else old(domain.scene))
        && domain.cut == (if ownsCut then "" else old(domain.cut))
        && stacks == old(stacks) + (if ownsScene then [CloudStack("", old(domain.cut))] else [])
                                 + (if ownsCut then [CloudStack(domain.scene, "")] else [])
    {
      if clearContext {
        if domain.scene in skillOwner && skillOwner[domain.scene] == appId {
          UpdateCloudStack("", "scene", Some(false));
        }
        if domain.cut in skillOwner && skillOwner[domain.cut] == appId {
          UpdateCloudStack("", "cut", Some(false));
        }
      }
      life.DeactivateAppById(appId);
    }

    /**
     * `startDaemonApps`: creates the daemon apps one after another in key
     * order; a failed creation does not stop the ones after it.
     */
    method StartDaemonApps(executors: seq<(AppId, bool)>)
      modifies life`created
      ensures life.created == old(life.created) + Daemons(executors)
    {
      var daemons := Daemons(executors);
      Start(daemons, 0);
    }

    /** `start(idx)`: creates the daemon at `idx` and goes on with the next one whatever the outcome. */
    method Start(daemons: seq<AppId>, idx: nat)
      requires idx <= |daemons|
      modifies life`created
      ensures life.created == old(life.created) + daemons[idx..]
      decreases |daemons| - idx
    {
      if idx > |daemons| - 1 {
        return;
      }
      var appId := daemons[idx];
      life.CreateApp(appId);
      Start(daemons, idx + 1);
      assert daemons[idx..] == [appId] + daemons[idx + 1..];
    }
  }

  /** `duration || 6000`. */
  function PickupDuration(duration: Option<int>): (d: int)
    ensures d != 0
    ensures duration.Some? && duration.value != 0 ==> d == duration.value
  {
    if duration.Some? && duration.value != 0 then duration.value else 6000
  }

  /** Asking twice for the same mute state toggles the microphone once. */
  method MuteTwice(app: AppId) returns (firstPosted: bool, secondPosted: bool, muted: bool)
    ensures firstPosted && !secondPosted && muted
  {
    var t := new TurenComponent.Turen();
    var l := new Lifetime(Some(app));
    var r := new AppRuntime(l, t);
    var env := TurenComponent.Env(Some(app), true, false, false, 1, true);
    r.SetMicMute(Some(true), false, env);
    firstPosted := TurenComponent.FloraPost("rokid.turen.mute", 1) in t.commands;
    var n := |t.commands|;
    r.SetMicMute(Some(true), false, env);
    secondPosted := |t.commands| != n;
    muted := t.muted;
  }

  /** Only the foreground app can hold a monologue, and only it can end its own. */
  method MonologueSession(app: AppId, other: AppId) returns (otherStarted: bool, started: bool, afterOtherStop: Option<AppId>, afterStop: Option<AppId>)
    requires app != other
    ensures !otherStarted && started && afterOtherStop == Some(app) && afterStop == None
  {
    var t := new TurenComponent.Turen();
    var l := new Lifetime(Some(app));
    var r := new AppRuntime(l, t);
    otherStarted := r.StartMonologue(other);
    started := r.StartMonologue(app);
    r.StopMonologue(other);
    afterOtherStop := l.monopolist;
    r.StopMonologue(app);
    afterStop := l.monopolist;
  }

  /** A local app in the cut slot and a cloud skill in the scene slot publish as `<skill>:`. */
  method PublishSkipsLocalApps(skill: string, localApp: string) returns (published: string)
    requires skill != "" && skill[0] != '@' && skill != ExcludedSkillId
    requires localApp != "" && localApp[0] == '@'
    ensures published == skill + ":"
  {
    var t := new TurenComponent.Turen();
    var l := new Lifetime(None);
    var r := new AppRuntime(l, t);
    r.UpdateCloudStack(skill, "scene", None);
    r.UpdateCloudStack(localApp, "cut", None);
    published := r.stacks[|r.stacks| - 1];
  }
}

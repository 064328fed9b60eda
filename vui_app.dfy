/**
 * The skill registry of the VUI module. Every installed app declares the
 * skills it serves; the manager maps each skill id to an executor of the app
 * (native, extapp or light, chosen by the app's metadata), refuses a skill
 * that is already taken, and answers a handler for a skill id: ids of local
 * apps (starting with `@`) are switched to the app's cloud skill, unknown ids
 * go to the extapp bridge if it accepts them and otherwise to the `miss` app.
 * An executor builds its handler (connector) once and keeps it.
 *
 * Which files exist is a set of paths given as input; an app's package
 * description is given as a `Profile`. Connectors are values naming what was
 * built; what they do once running is not part of this model.
 */
module VuiApp {
  import opened Common

  datatype Metadata = Metadata(native: bool, extapp: bool, skills: seq<string>)

  /** An app's package description: its metadata and its `main` entry. */
  datatype Profile = Profile(metadata: Metadata, main: Option<string>)

  datatype ExecType = Light | Native | ExtappType

  /** What `createHandler` builds, by executor type. */
  datatype Connector =
    | LightHandler(appId: string, exec: string)
    | NativeConnector(appId: string, exec: string)
    | ExtappConnector(appId: string)

  datatype Outcome<T> = Ok(value: T) | Err(msg: string)

  /** The entry `getApp` adds to the app list. */
  datatype AppEntry = AppEntry(pathname: string, metadata: Metadata)

  /** Where the extapp client script lives, relative to the module's directory. */
  const ExtappClient := "/client/extapp.js"

  /** Executor type: native if the metadata says so, else extapp if it says so, else light. */
  function TypeOf(m: Metadata): (t: ExecType)
    ensures t == Native <==> m.native
    ensures t == ExtappType <==> !m.native && m.extapp
    ensures t == Light <==> !m.native && !m.extapp
  {
    if m.native then Native else if m.extapp then ExtappType else Light
  }

  /** The file an executor runs: `<prefix>/<main or runtime>`, the extapp client, or `<prefix>/app.js`. */
  function ExecPath(p: Profile, prefix: string, libDir: string): string {
    match TypeOf(p.metadata)
    case Native => prefix + "/" + (if p.main.Some? && p.main.value != "" then p.main.value else "runtime")
    case ExtappType => libDir + ExtappClient
    case Light => prefix + "/app.js"
  }

  /** A skill id the `@`-resolution switches to: non-empty, not local, exactly 32 characters. */
  predicate CloudSkill(s: string) {
    s != "" && s[0] != '@' && |s| == 32
  }

  /** Index of the first cloud skill in `skills`, or `|skills|` when there is none. */
  function FirstCloudSkill(skills: seq<string>): (i: nat)
    ensures i <= |skills|
    ensures forall j :: 0 <= j < i ==> !CloudSkill(skills[j])
    ensures i < |skills| ==> CloudSkill(skills[i])
  {
    if skills == [] then 0
    else if CloudSkill(skills[0]) then 0
    else
      var k := FirstCloudSkill(skills[1..]);
      assert forall j :: 1 <= j < |skills| ==> skills[j] == skills[1..][j - 1];
      k + 1
  }

  /**
   * The id `getHandlerById` looks up for a local app id: its first declared
   * cloud skill, or the id itself when it declares none.
   */
  function ResolveSkill(id: string, skills: seq<string>): (r: string)
    ensures r == id || (r in skills && CloudSkill(r))
    ensures (forall j :: 0 <= j < |skills| ==> !CloudSkill(skills[j])) ==> r == id
    ensures r != id ==> exists i :: 0 <= i < |skills| && skills[i] == r && forall j :: 0 <= j < i ==> !CloudSkill(skills[j])
    ensures (exists j :: 0 <= j < |skills| && CloudSkill(skills[j])) ==>
      exists i :: 0 <= i < |skills| && skills[i] == r && CloudSkill(r) && forall j :: 0 <= j < i ==> !CloudSkill(skills[j])
  {
    var i := FirstCloudSkill(skills);
    if i < |skills| then skills[i] else id
  }

  /**
   * The index of the first skill `getApp` refuses: one already taken, or one
   * declared twice (its first occurrence took it); `|skills|` when none is.
   */
  function FirstConflict(skills: seq<string>, taken: set<string>): (k: nat)
    ensures k <= |skills|
    ensures forall j :: 0 <= j < k ==> skills[j] !in taken && skills[j] !in skills[..j]
    ensures k < |skills| ==> skills[k] in taken || skills[k] in skills[..k]
    decreases |skills|
  {
    if skills == [] then 0
    else if skills[0] in taken then 0
    else
      var k := FirstConflict(skills[1..], taken + {skills[0]});
      assert forall j :: 1 <= j < |skills| ==> skills[j] == skills[1..][j - 1] && skills[..j] == [skills[0]] + skills[1..][..j - 1];
      k + 1
  }

  /** A local id is one of an app installed on the device: it starts with `@`. */
  predicate IsLocalId(id: string) {
    |id| > 0 && id[0] == '@'
  }

  /** A local id can be looked up only through its own entry, once that entry's skills are known. */
  predicate Resolvable(id: string, keys: set<string>, localSkills: Option<seq<string>>) {
    IsLocalId(id) ==> id in keys && localSkills.Some?
  }

  /** The key `getHandlerById` looks up: a local id's cloud skill, any other id itself. */
  function LookupId(id: string, localSkills: Option<seq<string>>): string
    requires IsLocalId(id) ==> localSkills.Some?
  {
    if IsLocalId(id) then ResolveSkill(id, localSkills.value) else id
  }

  /** Where `getHandlerById` takes its handler from. */
  datatype Route = Direct(key: string) | ViaExtapp | ViaMiss(key: string) | NoHandler

  /**
   * The decision of `getHandlerById(id)` over the table's keys: a local id
   * needs its own entry with declared skills and is resolved to its cloud
   * skill; a mapped id is served directly; otherwise by the extapp bridge
   * when it exists and accepts the id, else by `miss`, else by `@miss`;
   * with neither the lookup fails.
   */
  function HandlerRoute(id: string, keys: set<string>, localSkills: Option<seq<string>>, extappAccepts: bool): (r: Route)
    ensures r.Direct? ==> (r.key in keys &&
      (r.key == id || (|id| > 0 && id[0] == '@' && localSkills.Some? && r.key in localSkills.value && CloudSkill(r.key))))
    ensures r.ViaExtapp? ==> "@extapp" in keys && extappAccepts
    ensures r.ViaMiss? ==> (r.key == "miss" && "miss" in keys) || (r.key == "@miss" && "miss" !in keys && "@miss" in keys)
    ensures (r.ViaMiss? || r.ViaExtapp?) && (|id| == 0 || id[0] != '@') ==> id !in keys
    ensures (|id| == 0 || id[0] != '@') && id in keys ==> r == Direct(id)
    ensures |id| > 0 && id[0] == '@' && (id !in keys || localSkills.None?) ==> r == NoHandler
    ensures Resolvable(id, keys, localSkills) && LookupId(id, localSkills) in keys ==>
      r == Direct(LookupId(id, localSkills))
    ensures Resolvable(id, keys, localSkills) && LookupId(id, localSkills) !in keys ==>
      ("@extapp" in keys && extappAccepts ==> r == ViaExtapp) &&
      (!("@extapp" in keys && extappAccepts) && "miss" in keys ==> r == ViaMiss("miss")) &&
      (!("@extapp" in keys && extappAccepts) && "miss" !in keys && "@miss" in keys ==> r == ViaMiss("@miss")) &&
      (!("@extapp" in keys && extappAccepts) && "miss" !in keys && "@miss" !in keys ==> r == NoHandler)
  {
    if |id| > 0 && id[0] == '@' && (id !in keys || localSkills.None?) then NoHandler
    else
      var resolved := if |id| > 0 && id[0] == '@' then ResolveSkill(id, localSkills.value) else id;
      if resolved in keys then Direct(resolved)
      else if "@extapp" in keys && extappAccepts then ViaExtapp
      else if "miss" in keys then ViaMiss("miss")
      else if "@miss" in keys then ViaMiss("@miss")
      else NoHandler
  }

  /** A D-Bus signal the extapp bridge emits: its name, string parameters and their signature. */
  datatype Signal = Signal(name: string, params: seq<string>, signature: string)

  /** The lifecycle events the bridge forwards, and the signal each becomes. */
  function LifecycleSignal(event: string): (r: Option<string>)
    ensures r.Some? <==> event in {"create", "restart", "pause", "resume", "stop", "destroy"}
    ensures r.Some? ==> EventOfSignal(r.value) == Some(event)
    ensures r.Some? ==> |r.value| > 2 && r.value[..2] == "on"
  {
    if event == "create" then Some("onCreate")
    else if event == "restart" then Some("onRestart")
    else if event == "pause" then Some("onPause")
    else if event == "resume" then Some("onResume")
    else if event == "stop" then Some("onStop")
    else if event == "destroy" then Some("onDestroy")
    else None
  }

  /** The signature of `n` string parameters. */
  function StringSignature(n: nat): (s: string)
    ensures |s| == n && forall i :: 0 <= i < n ==> s[i] == 's'
  {
    if n == 0 then "" else StringSignature(n - 1) + "s"
  }

  /** The event a bridge signal comes from; `ExtappSignal` names each event's signal so that this inverts it. */
  function EventOfSignal(name: string): Option<string> {
    if name == "onCreate" then Some("create")
    else if name == "onRestart" then Some("restart")
    else if name == "onPause" then Some("pause")
    else if name == "onResume" then Some("resume")
    else if name == "onStop" then Some("stop")
    else if name == "onDestroy" then Some("destroy")
    else if name == "nlp" then Some("voiceCommand")
    else None
  }

  /**
   * `ExtappConnector._onEvent(name, ...args)`: lifecycle events become
   * `on<Event>` with their arguments; `voiceCommand` becomes `nlp` with the
   * command's asr text and its JSON text; any other event emits nothing.
   */
  function ExtappSignal(event: string, args: seq<string>, asr: string, commandJson: string): (r: Option<Signal>)
    ensures r.None? <==> LifecycleSignal(event).None? && event != "voiceCommand"
    ensures r.Some? ==> EventOfSignal(r.value.name) == Some(event)
    ensures r.Some? ==> |r.value.signature| == |r.value.params| && forall i :: 0 <= i < |r.value.signature| ==> r.value.signature[i] == 's'
    ensures event == "voiceCommand" ==> r == Some(Signal("nlp", [asr, commandJson], "ss"))
    ensures LifecycleSignal(event).Some? ==> r.Some? && r.value.name == LifecycleSignal(event).value && r.value.params == args
  {
    var lifecycle := LifecycleSignal(event);
    if lifecycle.Some? then Some(Signal(lifecycle.value, args, StringSignature(|args|)))
    else if event == "voiceCommand" then Some(Signal("nlp", [asr, commandJson], "ss"))
    else None
  }

  function SeqSet<T>(s: seq<T>): set<T> {
    set x | x in s
  }

  lemma SeqSetSnoc<T>(s: seq<T>, i: nat)
    requires i < |s|
    ensures SeqSet(s[..i + 1]) == SeqSet(s[..i]) + {s[i]}
  {
    assert s[..i + 1] == s[..i] + [s[i]];
  }

  /** A skill taken before, or earlier in the list, is where `FirstConflict` stops. */
  lemma ConflictStops(skills: seq<string>, taken: set<string>, i: nat)
    requires i < |skills| && i <= FirstConflict(skills, taken)
    requires skills[i] in taken + SeqSet(skills[..i])
    ensures FirstConflict(skills, taken) == i
  {
  }

  /** A skill neither taken nor repeated lets `FirstConflict` go past it. */
  lemma NoConflictContinues(skills: seq<string>, taken: set<string>, i: nat)
    requires i < |skills| && i <= FirstConflict(skills, taken)
    requires skills[i] !in taken + SeqSet(skills[..i])
    ensures i < FirstConflict(skills, taken)
  {
  }

  class AppExecutor {
    const execType: ExecType
    const exec: string
    const valid: bool
    const errmsg: Option<string>
    const profile: Profile
    /** The skills of the app, set by `getApp`; executors made by `register` have none. */
    var skills: Option<seq<string>>
    var connector: Option<Connector>

    /** Chooses the type and the file to run; the executor is valid iff that file exists. */
    constructor (profile: Profile, prefix: string, libDir: string, existing: set<string>)
      ensures execType == TypeOf(profile.metadata) && exec == ExecPath(profile, prefix, libDir)
      ensures valid <==> exec in existing
      ensures errmsg == if valid then None else Some(exec + " not found")
      ensures this.profile == profile && skills == None && connector == None
    {
      var path := ExecPath(profile, prefix, libDir);
      execType := TypeOf(profile.metadata);
      exec := path;
      this.profile := profile;
      if path in existing {
        valid, errmsg := true, None;
      } else {
        valid, errmsg := false, Some(path + " not found");
      }
      skills, connector := None, None;
    }

    function Build(appId: string): Connector
      reads this
    {
      match execType
      case Light => LightHandler(appId, exec)
      case Native => NativeConnector(appId, exec)
      case ExtappType => ExtappConnector(appId)
    }

    /**
     * `createHandler(appId)`: builds the connector for the first id it is
     * asked for and answers that same connector from then on.
     */
    method CreateHandler(appId: string) returns (c: Connector)
      modifies this`connector
      ensures connector == if old(connector).Some? then old(connector) else Some(Build(appId))
      ensures connector == Some(c)
    {
      if connector.None? {
        connector := Some(Build(appId));
      }
      c := connector.value;
    }
  }

  /** The directory of a listed app: its root, then its name. */
  function AppDir(app: (string, string, Profile)): string {
    app.0 + "/" + app.1
  }

  /** An executor `getApp` made for the app described by `pkg` in directory `prefix`. */
  predicate Loaded(e: AppExecutor, pkg: Profile, prefix: string, libDir: string)
    reads e
  {
    && e.valid && e.profile == pkg && e.exec == ExecPath(pkg, prefix, libDir)
    && e.skills == Some(pkg.metadata.skills) && e.execType == TypeOf(pkg.metadata) && e.connector.None?
  }

  class AppManager {
    var skill2app: map<string, AppExecutor>
    var list: seq<AppEntry>
    const libDir: string
    const existing: set<string>

    /** How many skills `getApp` maps before it stops. */
    function MappedCount(pkg: Profile, prefix: string, taken: set<string>): (n: nat)
      reads this
      ensures n <= |pkg.metadata.skills|
      ensures n == |pkg.metadata.skills| <==>
        (ExecPath(pkg, prefix, libDir) in existing || pkg.metadata.skills == []) && FirstConflict(pkg.metadata.skills, taken) == |pkg.metadata.skills|
      ensures ExecPath(pkg, prefix, libDir) in existing ==> n == FirstConflict(pkg.metadata.skills, taken)
      ensures ExecPath(pkg, prefix, libDir) !in existing ==> n == 0
    {
      if ExecPath(pkg, prefix, libDir) in existing then FirstConflict(pkg.metadata.skills, taken) else 0
    }

    /** The error `getApp` throws: a conflict comes first, then a missing executable. */
    function GetAppError(pkg: Profile, prefix: string, taken: set<string>): string
      reads this
    {
      if ExecPath(pkg, prefix, libDir) in existing || FirstConflict(pkg.metadata.skills, taken) == 0
      then "skill conflicts"
      else ExecPath(pkg, prefix, libDir) + " not found"
    }

    constructor (libDir: string, existing: set<string>)
      ensures skill2app == map[] && list == [] && this.libDir == libDir && this.existing == existing
    {
      skill2app, list := map[], [];
      this.libDir, this.existing := libDir, existing;
    }

    /**
     * `getApp(root, name)`: maps each declared skill, in order, to a new
     * executor of the app. It stops at the first skill already mapped
     * ("skill conflicts") or, when the executor is invalid, at the first
     * skill with the executor's error; the skills before it stay mapped.
     */
    method GetApp(root: string, name: string, pkg: Profile) returns (r: Outcome<AppEntry>)
      modifies this`skill2app
      ensures var mapped := MappedCount(pkg, root + "/" + name, old(skill2app).Keys);
        && (r.Ok? <==> mapped == |pkg.metadata.skills|)
        && (r.Ok? ==> r.value == AppEntry(root + "/" + name, pkg.metadata))
        && (r.Err? ==> r.msg == GetAppError(pkg, root + "/" + name, old(skill2app).Keys))
        && skill2app.Keys == old(skill2app).Keys + SeqSet(pkg.metadata.skills[..mapped])
      ensures forall id :: id in old(skill2app) ==> skill2app[id] == old(skill2app)[id]
      ensures forall id :: id in skill2app && id !in old(skill2app) ==>
        fresh(skill2app[id]) && Loaded(skill2app[id], pkg, root + "/" + name, libDir)
    {
      var prefix := root + "/" + name;
      var skills := pkg.metadata.skills;
      ghost var k := FirstConflict(skills, old(skill2app).Keys);
      ghost var valid := ExecPath(pkg, prefix, libDir) in existing;
      for i := 0 to |skills|
        invariant i <= k && (i > 0 ==> valid)
        invariant skill2app.Keys == old(skill2app).Keys + SeqSet(skills[..i])
        invariant forall id :: id in old(skill2app) ==> skill2app[id] == old(skill2app)[id]
        invariant forall id :: id in skill2app && id !in old(skill2app) ==>
          fresh(skill2app[id]) && Loaded(skill2app[id], pkg, prefix, libDir)
      {
        var id := skills[i];
        if id in skill2app {
          ConflictStops(skills, old(skill2app).Keys, i);
          assert MappedCount(pkg, prefix, old(skill2app).Keys) == i < |skills|;
          assert GetAppError(pkg, prefix, old(skill2app).Keys) == "skill conflicts";
          return Err("skill conflicts");
        }
        NoConflictContinues(skills, old(skill2app).Keys, i);
        var err := MapSkill(id, pkg, prefix);
        if err.Some? {
          assert i == 0 && MappedCount(pkg, prefix, old(skill2app).Keys) == 0;
          assert GetAppError(pkg, prefix, old(skill2app).Keys) == err.value;
          return Err(err.value);
        }
        SeqSetSnoc(skills, i);
      }
      assert skills[..|skills|] == skills;
      assert MappedCount(pkg, prefix, old(skill2app).Keys) == |skills|;
      r := Ok(AppEntry(prefix, pkg.metadata));
    }

    /** One step of `getApp`: a new executor of the app for skill `id`, kept only when valid. */
    method MapSkill(id: string, pkg: Profile, prefix: string) returns (err: Option<string>)
      requires id !in skill2app
      modifies this`skill2app
      ensures err.None? <==> ExecPath(pkg, prefix, libDir) in existing
      ensures err.Some? ==> err.value == ExecPath(pkg, prefix, libDir) + " not found" && skill2app == old(skill2app)
      ensures err.None? ==> skill2app.Keys == old(skill2app).Keys + {id}
      ensures err.None? ==> forall k :: k in old(skill2app) ==> skill2app[k] == old(skill2app)[k]
      ensures err.None? ==> fresh(skill2app[id]) && Loaded(skill2app[id], pkg, prefix, libDir)
    {
      var app := new AppExecutor(pkg, prefix, libDir, existing);
      if !app.valid {
        return app.errmsg;
      }
      app.skills := Some(pkg.metadata.skills);
      skill2app := skill2app[id := app];
      err := None;
    }

    /**
     * `reload()`: empties the table, then loads every listed app in order;
     * the first error stops the loading. Every mapped skill is a skill some
     * listed app declares.
     */
    /** Every skill the first `n` listed apps declare is mapped to an executor loaded for its app. */
    ghost predicate AppsLoaded(apps: seq<(string, string, Profile)>, n: nat)
      requires n <= |apps|
      reads this, skill2app.Values
    {
      forall j, s :: 0 <= j < n && s in apps[j].2.metadata.skills ==>
        s in skill2app && Loaded(skill2app[s], apps[j].2, AppDir(apps[j]), libDir)
    }

    /** Every mapped skill is declared by one of the first `n` listed apps. */
    ghost predicate KeysDeclared(apps: seq<(string, string, Profile)>, n: nat)
      requires n <= |apps|
      reads this
    {
      forall id :: id in skill2app ==> exists j :: 0 <= j < n && id in apps[j].2.metadata.skills
    }

    /** One round of `reload`: `getApp` for the `i`-th listed app, keeping both loop invariants. */
    method LoadApp(apps: seq<(string, string, Profile)>, i: nat) returns (e: Outcome<AppEntry>)
      requires i < |apps| && KeysDeclared(apps, i) && AppsLoaded(apps, i)
      modifies this`skill2app
      ensures KeysDeclared(apps, i + 1)
      ensures e.Ok? ==> e.value == AppEntry(AppDir(apps[i]), apps[i].2.metadata) && AppsLoaded(apps, i + 1)
    {
      ghost var before := skill2app;
      e := GetApp(apps[i].0, apps[i].1, apps[i].2);
      forall id | id in skill2app
        ensures exists j :: 0 <= j < i + 1 && id in apps[j].2.metadata.skills
      {
        if id !in before {
          assert id in apps[i].2.metadata.skills;
        } else {
          assert old(KeysDeclared(apps, i));
        }
      }
      if e.Ok? {
        forall j, s | 0 <= j < i + 1 && s in apps[j].2.metadata.skills
          ensures s in skill2app
          ensures Loaded(skill2app[s], apps[j].2, AppDir(apps[j]), libDir)
        {
          if j < i {
            assert old(AppsLoaded(apps, i));
            assert s in before && skill2app[s] == before[s];
          } else {
            var sk := apps[i].2.metadata.skills;
            var k :| 0 <= k < |sk| && sk[k] == s;
            assert sk[..|sk|] == sk;
            assert s in SeqSet(sk[..|sk|]) && s !in before;
          }
        }
      }
    }

    method Reload(apps: seq<(string, string, Profile)>) returns (r: Outcome<seq<AppEntry>>)
      modifies this`skill2app, this`list
      ensures KeysDeclared(apps, |apps|)
      ensures r.Ok? ==> list == r.value && |list| == |apps|
      ensures r.Ok? ==> forall i :: 0 <= i < |apps| ==> list[i] == AppEntry(AppDir(apps[i]), apps[i].2.metadata)
      ensures r.Ok? ==> forall i, s :: 0 <= i < |apps| && s in apps[i].2.metadata.skills ==>
        s in skill2app && Loaded(skill2app[s], apps[i].2, AppDir(apps[i]), libDir)
      ensures r.Err? ==> list == old(list)
      ensures apps == [] ==> skill2app == map[] && r == Ok([])
    {
      skill2app := map[];
      var entries: seq<AppEntry> := [];
      for i := 0 to |apps|
        invariant KeysDeclared(apps, i) && AppsLoaded(apps, i)
        invariant |entries| == i && list == old(list)
        invariant forall j :: 0 <= j < i ==> entries[j] == AppEntry(AppDir(apps[j]), apps[j].2.metadata)
      {
        var e := LoadApp(apps, i);
        if e.Err? {
          assert KeysDeclared(apps, i + 1);
          return Err(e.msg);
        }
        entries := entries + [e.value];
      }
      assert AppsLoaded(apps, |apps|);
      list := entries;
      r := Ok(entries);
    }

    /**
     * `getHandlerById(id)`: follows `HandlerRoute`. The extapp bridge is asked
     * to build its handler for every unmapped id, even one it then refuses.
     * A missing entry where the source reads one is a `TypeError`.
     */
    method GetHandlerById(id: string, extappAccepts: bool) returns (r: Outcome<Connector>)
      modifies skill2app.Values
      ensures var local := |id| > 0 && id[0] == '@' && id in skill2app;
        var route := HandlerRoute(id, skill2app.Keys, if local then old(skill2app[id].skills) else None, extappAccepts);
        && (r.Err? <==> route.NoHandler?)
        && (r.Err? ==> r.msg == "TypeError")
        && (route.Direct? ==> skill2app[route.key].connector == Some(r.value))
        && (route.ViaExtapp? ==> skill2app["@extapp"].connector == Some(r.value))
        && (route.ViaMiss? ==> skill2app[route.key].connector == Some(r.value))
        && (route.ViaMiss? && "@extapp" in skill2app ==> skill2app["@extapp"].connector.Some?)
        && (route.Direct? && old(skill2app[route.key].connector).None? ==> r.value == skill2app[route.key].Build(route.key))
      ensures var localSkills := if IsLocalId(id) && id in skill2app then old(skill2app[id].skills) else None;
        var route := HandlerRoute(id, skill2app.Keys, localSkills, extappAccepts);
        var reachesExtapp := !route.Direct? && Resolvable(id, skill2app.Keys, localSkills) && "@extapp" in skill2app;
        var built := (if route.Direct? || route.ViaMiss? then {skill2app[route.key]} else {})
                   + (if reachesExtapp then {skill2app["@extapp"]} else {});
        && (reachesExtapp && old(skill2app["@extapp"].connector).None? ==>
              skill2app["@extapp"].connector == Some(skill2app["@extapp"].Build(LookupId(id, localSkills))))
        && (route.ViaMiss? && old(skill2app[route.key].connector).None? ==>
              r.value == skill2app[route.key].Build(LookupId(id, localSkills)))
        && (forall e :: e in skill2app.Values && e !in built ==> e.connector == old(e.connector))
      ensures forall e :: e in skill2app.Values ==> e.skills == old(e.skills)
      ensures forall e :: e in skill2app.Values && old(e.connector).Some? ==> e.connector == old(e.connector)
    {
      var appid := id;
      if |id| > 0 && id[0] == '@' {
        if id !in skill2app || skill2app[id].skills.None? {
          return Err("TypeError");
        }
        appid := ResolveSkill(id, skill2app[id].skills.value);
      }
      if appid in skill2app {
        var c := skill2app[appid].CreateHandler(appid);
        return Ok(c);
      }
      if "@extapp" in skill2app {
        var handler := skill2app["@extapp"].CreateHandler(appid);
        if extappAccepts {
          return Ok(handler);
        }
      }
      var miss: AppExecutor;
      if "miss" in skill2app {
        miss := skill2app["miss"];
      } else if "@miss" in skill2app {
        miss := skill2app["@miss"];
      } else {
        return Err("TypeError");
      }
      var c := miss.CreateHandler(appid);
      r := Ok(c);
    }

    /** `register(appId, config)`: (re)places the entry with an executor of that metadata and no prefix. */
    method Register(appId: string, config: Metadata)
      modifies this`skill2app
      ensures skill2app.Keys == old(skill2app).Keys + {appId}
      ensures forall k :: k in old(skill2app) && k != appId ==> skill2app[k] == old(skill2app)[k]
      ensures fresh(skill2app[appId]) && skill2app[appId].execType == TypeOf(config) && skill2app[appId].skills.None?
      ensures skill2app[appId].profile == Profile(config, None) && skill2app[appId].connector.None?
      ensures skill2app[appId].exec == ExecPath(Profile(config, None), "undefined", libDir)
      ensures skill2app[appId].valid <==> skill2app[appId].exec in existing
    {
      var e := new AppExecutor(Profile(config, None), "undefined", libDir, existing);
      skill2app := skill2app[appId := e];
    }

    /** `destroy(appId)`: removes exactly that entry. */
    method Destroy(appId: string)
      modifies this`skill2app
      ensures skill2app == old(skill2app) - {appId}
    {
      skill2app := skill2app - {appId};
    }
  }

  /** A skill declared by two apps: loading the second one fails and leaves the first one's mapping. */
  method ConflictingApps(skill: string, libDir: string) returns (first: bool, second: bool, stillFirst: bool)
    ensures first && !second && stillFirst
  {
    var pkg := Profile(Metadata(false, false, [skill]), None);
    var m := new AppManager(libDir, {"/apps/a/app.js", "/apps/b/app.js"});
    assert "/apps" + "/" + "a" + "/app.js" == "/apps/a/app.js";
    assert "/apps" + "/" + "b" + "/app.js" == "/apps/b/app.js";
    assert FirstConflict([skill], {}) == 1;
    assert FirstConflict([skill], {skill}) == 0;
    var a := m.GetApp("/apps", "a", pkg);
    assert [skill][..1] == [skill];
    first := a.Ok?;
    var owner := m.skill2app[skill];
    var b := m.GetApp("/apps", "b", pkg);
    second := b.Ok?;
    stillFirst := skill in m.skill2app && m.skill2app[skill] == owner;
  }

  /** A local app id is served by the executor of the app's cloud skill, built once. */
  method LocalIdResolves(local: string, cloud: string, libDir: string) returns (sameTwice: bool, servedBy: string)
    requires |local| > 0 && local[0] == '@' && CloudSkill(cloud)
    ensures sameTwice && servedBy == cloud
  {
    var pkg := Profile(Metadata(true, false, [local, cloud]), Some("main"));
    var m := new AppManager(libDir, {"/apps/a/main"});
    assert "/apps" + "/" + "a" + "/" + "main" == "/apps/a/main";
    assert local != cloud;
    assert FirstConflict([local, cloud], {}) == 2 by {
      assert FirstConflict([cloud], {local}) == 1;
    }
    var a := m.GetApp("/apps", "a", pkg);
    assert [local, cloud][..2] == [local, cloud];
    assert local in m.skill2app && cloud in m.skill2app;
    assert ResolveSkill(local, [local, cloud]) == cloud;
    var h1 := m.GetHandlerById(local, false);
    var h2 := m.GetHandlerById(cloud, false);
    sameTwice := h1.Ok? && h2.Ok? && h1.value == h2.value;
    servedBy := if h1.Ok? && h1.value.NativeConnector? then h1.value.appId else "";
  }
}

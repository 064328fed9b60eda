/**
 * The runtime's network and session gate. It tracks whether the network is
 * connected (unknown at start, so that the very first disconnect is acted
 * upon), whether an internet probe is in flight, and whether the device is
 * logged in; and it reacts to connects and disconnects by probing, asking
 * the runtime to reconnect, or sending the user to the network setup.
 *
 * Calls on the property store, the wifi library and the runtime are recorded
 * in `calls`. The wifi state, the wifi history, the foreground app and the
 * scheduler's apps are an `Env` argument; the probe's answer arrives through
 * `OnCheckNetworkResult`.
 */
module CustodianComponent {
  import opened Common

  /** `_networkConnected`: `undefined`, `true` or `false`. */
  datatype Connection = Unknown | Connected | Disconnected

  datatype Call =
    | SetProperty(key: string, value: string)
    | WifiCheckNetwork
    | WifiScanPassively
    | WifiReset
    | WifiRemoveAll
    | WifiDisableAll
    | NotifyNetworkConnected(appId: AppId)
    | Reconnect
    | OpenSetup
    | ShouldWelcome
    | SetOffline
    | ResetGetPropAll

  datatype Env = Env(
    currentAppId: Option<AppId>,
    wifiHistory: nat,
    wifiConnected: bool,
    schedulerApps: Option<seq<AppId>>)  // the scheduler's app ids, when the runtime has a scheduler

  const NetworkAppId: AppId := "@yoda/network"

  /** The calls of `resetNetwork(options)`: the wifi reset, removing or disabling the saved networks, the property, the setup. */
  function ResetCalls(removeAll: bool): (r: seq<Call>)
    ensures WifiRemoveAll in r <==> removeAll
    ensures WifiDisableAll in r <==> !removeAll
    ensures r[0] == WifiReset && r[|r| - 1] == OpenSetup
  {
    [WifiReset, if removeAll then WifiRemoveAll else WifiDisableAll,
     SetProperty("state.network.connected", "false"), OpenSetup]
  }

  /** The calls `onNetworkConnect` makes once it acts: the property, the probe, then every scheduler app in order. */
  function ConnectCalls(env: Env): (r: seq<Call>)
    ensures var apps := if env.schedulerApps.Some? then env.schedulerApps.value else [];
      && |r| == 2 + |apps|
      && r[..2] == [SetProperty("state.network.connected", "true"), WifiCheckNetwork]
      && forall i :: 0 <= i < |apps| ==> r[2 + i] == NotifyNetworkConnected(apps[i])
  {
    var apps := if env.schedulerApps.Some? then env.schedulerApps.value else [];
    [SetProperty("state.network.connected", "true"), WifiCheckNetwork] + seq(|apps|, i requires 0 <= i < |apps| => NotifyNetworkConnected(apps[i]))
  }

  /**
   * The calls `onNetworkDisconnect` makes once it acts: the network is marked
   * down; then nothing more while the network app is in front, passive
   * scanning when networks are saved, and otherwise the runtime's reset
   * (which removes the saved networks only if it passes its options on)
   * followed by the setup.
   */
  function DisconnectCalls(env: Env, passesResetOptions: bool): (r: seq<Call>)
    ensures |r| > 0 && r[0] == SetProperty("state.network.connected", "false")
    ensures WifiScanPassively in r <==> env.currentAppId != Some(NetworkAppId) && env.wifiHistory > 0
    ensures OpenSetup in r <==> env.currentAppId != Some(NetworkAppId) && env.wifiHistory == 0
    ensures WifiRemoveAll in r <==> env.currentAppId != Some(NetworkAppId) && env.wifiHistory == 0 && passesResetOptions
    ensures WifiDisableAll in r <==> env.currentAppId != Some(NetworkAppId) && env.wifiHistory == 0 && !passesResetOptions
    ensures env.currentAppId == Some(NetworkAppId) ==> r == [SetProperty("state.network.connected", "false")]
  {
    var marked := [SetProperty("state.network.connected", "false")];
    if env.currentAppId == Some(NetworkAppId) then marked
    else if env.wifiHistory > 0 then marked + [WifiScanPassively]
    else marked + [ShouldWelcome] + ResetCalls(passesResetOptions) + [OpenSetup]
  }

  class Custodian {
    /**
     * Whether the runtime's `resetNetwork` hands its options on to the
     * custodian: false for the runtime as written, true for the corrected one.
     */
    const passesResetOptions: bool
    var connection: Connection
    var checkingNetwork: bool
    var loggedIn: bool
    var calls: seq<Call>

    /** The initial state: connection unknown, no probe, not logged in; passive scanning is enabled. */
    constructor (passesResetOptions: bool)
      ensures this.passesResetOptions == passesResetOptions
      ensures connection == Unknown && !checkingNetwork && !loggedIn
      ensures calls == [WifiScanPassively]
    {
      this.passesResetOptions := passesResetOptions;
      connection, checkingNetwork, loggedIn := Unknown, false, false;
      calls := [WifiScanPassively];
    }

    /** `isPrepared`: connected and logged in. */
    predicate IsPrepared()
      reads this
    {
      connection == Connected && loggedIn
    }

    /** `isNetworkUnavailable`: not known to be connected, which includes the unknown state. */
    predicate IsNetworkUnavailable()
      reads this
    {
      connection != Connected
    }

    /** `isRegistering`: connected but not yet logged in. */
    predicate IsRegistering()
      reads this
    {
      connection == Connected && !loggedIn
    }

    /** Every state is in exactly one of: network unavailable, registering, prepared. */
    lemma StatesPartition()
      ensures IsNetworkUnavailable() != (IsRegistering() || IsPrepared())
      ensures !(IsRegistering() && IsPrepared())
    {
    }

    /**
     * `onNetworkConnect`: ignored when already connected or while a probe is
     * in flight. Otherwise the connection is taken as established before the
     * probe answers, the probe starts, and every app of the scheduler is told.
     */
    method OnNetworkConnect(env: Env)
      modifies this
      ensures old(connection) == Connected || old(checkingNetwork) ==> unchanged(this)
      ensures old(connection) != Connected && !old(checkingNetwork) ==>
        && connection == Connected && checkingNetwork && loggedIn == old(loggedIn)
        && calls == old(calls) + ConnectCalls(env)
    {
      if connection == Connected || checkingNetwork {
        return;
      }
      calls := calls + [SetProperty("state.network.connected", "true")];
      connection := Connected;
      checkingNetwork := true;
      calls := calls + [WifiCheckNetwork];
      if env.schedulerApps.Some? {
        var apps := env.schedulerApps.value;
        ghost var base := calls;
        for i := 0 to |apps|
          invariant connection == Connected && checkingNetwork && loggedIn == old(loggedIn)
          invariant |calls| == |base| + i && calls[..|base|] == base
          invariant forall j :: 0 <= j < i ==> calls[|base| + j] == NotifyNetworkConnected(apps[j])
        {
          calls := calls + [NotifyNetworkConnected(apps[i])];
        }
      }
    }

    /** The probe started by `onNetworkConnect` answers: a failure is handled as a disconnect, a success reconnects. */
    method OnCheckNetworkResult(failed: bool, env: Env)
      modifies this
      ensures !checkingNetwork && loggedIn == old(loggedIn)
      ensures !failed ==> connection == old(connection) && calls == old(calls) + [Reconnect]
      ensures failed ==> connection == Disconnected
      ensures failed && old(connection) == Disconnected ==> calls == old(calls)
      ensures failed && old(connection) != Disconnected ==> calls == old(calls) + DisconnectCalls(env, passesResetOptions)
    {
      checkingNetwork := false;
      if failed {
        OnNetworkDisconnect(env);
        return;
      }
      calls := calls + [Reconnect];
    }

    /**
     * `onNetworkDisconnect`: ignored only when the network is known to be
     * down. Otherwise it is marked down; then nothing more while the network
     * app is in front, passive scanning when networks are saved, and with no
     * saved network the runtime is asked to reset the network with
     * `removeAll` and the setup is opened.
     */
    method OnNetworkDisconnect(env: Env)
      modifies this
      ensures old(connection) == Disconnected ==> unchanged(this)
      ensures connection == Disconnected && checkingNetwork == old(checkingNetwork) && loggedIn == old(loggedIn)
      ensures old(connection) != Disconnected ==> calls == old(calls) + DisconnectCalls(env, passesResetOptions)
    {
      if connection == Disconnected {
        return;
      }
      calls := calls + [SetProperty("state.network.connected", "false")];
      connection := Disconnected;
      if env.currentAppId == Some(NetworkAppId) {
        return;
      }
      if env.wifiHistory > 0 {
        calls := calls + [WifiScanPassively];
        return;
      }
      if passesResetOptions {
        RuntimeResetNetwork(Some(true));
      } else {
        RuntimeResetNetworkAsWritten(Some(true));
      }
      calls := calls + [OpenSetup];
    }

    /** `onLoggedIn`. */
    method OnLoggedIn()
      modifies this
      ensures loggedIn && connection == old(connection) && checkingNetwork == old(checkingNetwork)
      ensures calls == old(calls) + [SetProperty("state.rokid.logged", "true")]
    {
      loggedIn := true;
      calls := calls + [SetProperty("state.rokid.logged", "true")];
    }

    /** `onLogout`: goes offline and makes the runtime's property snapshot empty. */
    method OnLogout()
      modifies this
      ensures !loggedIn && connection == old(connection) && checkingNetwork == old(checkingNetwork)
      ensures calls == old(calls) + [SetOffline, SetProperty("state.rokid.logged", "false"), ResetGetPropAll]
    {
      loggedIn := false;
      calls := calls + [SetOffline, SetProperty("state.rokid.logged", "false"), ResetGetPropAll];
    }

    /**
     * `resetNetwork(options)`: resets wifi, removes the saved networks when
     * `options.removeAll` is truthy and disables them otherwise, and always
     * leaves the network marked down before opening the setup.
     */
    method ResetNetwork(removeAll: Option<bool>)
      modifies this
      ensures connection == Disconnected && checkingNetwork == old(checkingNetwork) && loggedIn == old(loggedIn)
      ensures calls == old(calls) + ResetCalls(removeAll == Some(true))
    {
      var remove := removeAll == Some(true);
      calls := calls + [WifiReset];
      if remove {
        calls := calls + [WifiRemoveAll];
      } else {
        calls := calls + [WifiDisableAll];
      }
      calls := calls + [SetProperty("state.network.connected", "false")];
      connection := Disconnected;
      calls := calls + [OpenSetup];
    }

    /**
     * The runtime's `resetNetwork` as written: it takes no options, so the
     * `removeAll` its caller asks for never reaches the custodian.
     */
    method RuntimeResetNetworkAsWritten(removeAll: Option<bool>)
      modifies this
      ensures connection == Disconnected && checkingNetwork == old(checkingNetwork) && loggedIn == old(loggedIn)
      ensures calls == old(calls) + [ShouldWelcome] + ResetCalls(false)
    {
      calls := calls + [ShouldWelcome];
      ResetNetwork(None);
    }

    /** The runtime's `resetNetwork` passing its options on, as its callers expect. */
    method RuntimeResetNetwork(removeAll: Option<bool>)
      modifies this
      ensures connection == Disconnected && checkingNetwork == old(checkingNetwork) && loggedIn == old(loggedIn)
      ensures calls == old(calls) + [ShouldWelcome] + ResetCalls(removeAll == Some(true))
    {
      calls := calls + [ShouldWelcome];
      ResetNetwork(removeAll);
    }

    /**
     * `prepareNetwork`: a connected wifi counts as a connect; with saved
     * networks nothing happens; otherwise it counts as a disconnect.
     */
    method PrepareNetwork(env: Env)
      modifies this
      ensures env.wifiConnected && (old(connection) == Connected || old(checkingNetwork)) ==> unchanged(this)
      ensures env.wifiConnected && old(connection) != Connected && !old(checkingNetwork) ==>
        connection == Connected && checkingNetwork && calls == old(calls) + ConnectCalls(env)
      ensures !env.wifiConnected && env.wifiHistory > 0 ==> unchanged(this)
      ensures !env.wifiConnected && env.wifiHistory == 0 ==>
        && connection == Disconnected && checkingNetwork == old(checkingNetwork)
        && calls == old(calls) + (if old(connection) == Disconnected then [] else DisconnectCalls(env, passesResetOptions))
      ensures loggedIn == old(loggedIn)
    {
      if env.wifiConnected {
        OnNetworkConnect(env);
        return;
      }
      if env.wifiHistory > 0 {
        return;
      }
      OnNetworkDisconnect(env);
    }
  }

  function NoWifiEnv(): Env {
    Env(None, 0, false, None)
  }

  /** The very first disconnect, from the unknown state, is acted upon. */
  method FirstDisconnectIsProcessed() returns (markedDown: bool, setupOpened: bool)
    ensures markedDown && setupOpened
  {
    var c := new Custodian(false);
    c.OnNetworkDisconnect(NoWifiEnv());
    markedDown := SetProperty("state.network.connected", "false") in c.calls && c.connection == Disconnected;
    setupOpened := OpenSetup in c.calls;
  }

  /**
   * A connect while the probe of an earlier connect is in flight is dropped;
   * the probe's failure then brings the gate down.
   */
  method ConnectDuringProbe(env: Env) returns (secondDropped: bool, downAfterFailure: bool, prepared: bool)
    ensures secondDropped && downAfterFailure && !prepared
  {
    var c := new Custodian(false);
    c.OnNetworkConnect(env);
    var n := |c.calls|;
    c.OnNetworkConnect(env);
    secondDropped := |c.calls| == n;
    c.OnCheckNetworkResult(true, env);
    downAfterFailure := c.connection == Disconnected && !c.checkingNetwork;
    prepared := c.IsPrepared();
  }

  /** Connected and then logged in is prepared; logging out is registering again. */
  method LoginLogout(env: Env) returns (preparedAfterLogin: bool, registeringAfterLogout: bool)
    ensures preparedAfterLogin && registeringAfterLogout
  {
    var c := new Custodian(false);
    c.OnNetworkConnect(env);
    c.OnCheckNetworkResult(false, env);
    c.OnLoggedIn();
    preparedAfterLogin := c.IsPrepared();
    c.OnLogout();
    registeringAfterLogout := c.IsRegistering();
  }

  /**
   * As written, a disconnect with no saved network asks the runtime to remove
   * every saved network, and they are only disabled.
   */
  method ResetNetworkDropsRemoveAll() returns (removed: bool, disabled: bool)
    ensures !removed && disabled
  {
    var c := new Custodian(false);
    c.OnNetworkDisconnect(NoWifiEnv());
    removed := WifiRemoveAll in c.calls;
    disabled := WifiDisableAll in c.calls;
  }

  /** With the options passed on, a disconnect with no saved network removes them all. */
  method DisconnectWithoutHistoryRemovesAll() returns (removed: bool, disabled: bool)
    ensures removed && !disabled
  {
    var c := new Custodian(true);
    c.OnNetworkDisconnect(NoWifiEnv());
    removed := WifiRemoveAll in c.calls;
    disabled := WifiDisableAll in c.calls;
  }
}

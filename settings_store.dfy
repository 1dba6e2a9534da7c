/** The settings store of the React client (`SettingsManager` in
    client/src/lib/settingsManager.ts): one mutable settings record, written
    through to local storage after every mutation. Local storage is the
    `persisted` field; the value found there at start-up is a constructor
    parameter. */
module SettingsStore {
  import opened Common

  datatype Signal = Weak | Medium | Strong

  datatype Network = Network(name: string, signal: Signal, secured: bool, connected: bool)

  datatype Wifi = Wifi(enabled: bool, connected: Option<string>, availableNetworks: seq<Network>)

  datatype Ethernet = Ethernet(connected: bool, status: string)

  datatype NetworkState = NetworkState(wifi: Wifi, ethernet: Ethernet)

  datatype GoogleAccount = GoogleAccount(email: string, name: string, sync: bool, services: seq<string>)

  datatype AccountState = AccountState(googleAccount: GoogleAccount)

  datatype App = App(name: string, version: string, size: string, dataSize: string,
                     cacheSize: string, system: bool, icon: string)

  datatype AppsState = AppsState(installed: seq<App>, showSystemApps: bool, showAllApps: bool)

  datatype RemoteDevice = RemoteDevice(name: string, connected: bool, batteryLevel: string, lastConnected: string)

  datatype RemoteState = RemoteState(devices: seq<RemoteDevice>)

  datatype DisplayState = DisplayState(resolution: string, hdr: bool, audioOutput: string)

  datatype StorageState = StorageState(total: string, used: string, free: string)

  datatype SettingsState = SettingsState(network: NetworkState, account: AccountState, apps: AppsState,
                                         remote: RemoteState, display: DisplayState, storage: StorageState)

  /** Which size field `updateAppStorage` clears. */
  datatype StorageAction = Data | Cache

  /** The size shown for cleared data or cache. */
  const ClearedSize: string := "0 B"

  // ---------------------------------------------------------------------
  // Invariants of the record

  predicate NetworkNamesDistinct(nets: seq<Network>) {
    forall i, j :: 0 <= i < j < |nets| ==> nets[i].name != nets[j].name
  }

  predicate AtMostOneConnected(nets: seq<Network>) {
    forall i, j :: 0 <= i < |nets| && 0 <= j < |nets| && nets[i].connected && nets[j].connected ==> i == j
  }

  /** At most one listed network is marked connected, and it is the one named by `wifi.connected`. */
  predicate ConnectionConsistent(w: Wifi) {
    && AtMostOneConnected(w.availableNetworks)
    && forall i :: 0 <= i < |w.availableNetworks| && w.availableNetworks[i].connected ==>
         w.connected == Some(w.availableNetworks[i].name)
  }

  predicate AppNamesDistinct(apps: seq<App>) {
    forall i, j :: 0 <= i < j < |apps| ==> apps[i].name != apps[j].name
  }

  predicate WellFormed(s: SettingsState) {
    && NetworkNamesDistinct(s.network.wifi.availableNetworks)
    && ConnectionConsistent(s.network.wifi)
    && AppNamesDistinct(s.apps.installed)
  }

  /** Number of listed networks called `name`. */
  function CountNamed(nets: seq<Network>, name: string): nat {
    if nets == [] then 0 else (if nets[0].name == name then 1 else 0) + CountNamed(nets[1..], name)
  }

  /** Number of listed networks marked connected. */
  function CountConnected(nets: seq<Network>): nat {
    if nets == [] then 0 else (if nets[0].connected then 1 else 0) + CountConnected(nets[1..])
  }

  // ---------------------------------------------------------------------
  // The default record of `loadState`

  /** Fifteen apps with distinct names; the first is the system app "Optimum TV". */
  function DefaultApps(): (r: seq<App>)
    ensures |r| == 15 && AppNamesDistinct(r)
    ensures r[0].name == "Optimum TV" && r[0].system
  {
    var apps := [ App("Optimum TV", "2.1.0", "1.2 GB", "800 MB", "400 MB", true, "O"),
      App("Netflix", "8.5.0", "500 MB", "200 MB", "150 MB", false, "N"),
      App("YouTube", "17.49.37", "400 MB", "150 MB", "100 MB", false, "Y"),
      App("Prime Video", "3.0.355", "350 MB", "120 MB", "80 MB", false, "P"),
      App("Disney+", "2.15.0", "450 MB", "180 MB", "90 MB", false, "D"),
      App("Hulu", "4.47.0", "380 MB", "140 MB", "85 MB", false, "H"),
      App("HBO Max", "52.15.0", "420 MB", "160 MB", "95 MB", false, "H"),
      App("Peacock", "3.2.0", "390 MB", "145 MB", "88 MB", false, "P"),
      App("ESPN", "6.75.0", "360 MB", "130 MB", "75 MB", false, "E"),
      App("Spotify", "8.8.0", "320 MB", "110 MB", "70 MB", false, "S"),
      App("Chrome", "120.0", "280 MB", "100 MB", "65 MB", true, "C"),
      App("Play Store", "33.8.17", "250 MB", "90 MB", "60 MB", true, "P"),
      App("Google Play Services", "23.45.16", "300 MB", "120 MB", "80 MB", true, "G"),
      App("Android System", "13.0", "1.5 GB", "500 MB", "200 MB", true, "A"),
      App("System UI", "13.0", "800 MB", "300 MB", "150 MB", true, "S") ];
    assert forall i, j :: 0 <= i < j < |apps| ==>
             apps[i].name[0] != apps[j].name[0] || |apps[i].name| != |apps[j].name|;
    apps
  }

  /** The record `loadState` falls back to: Wi-Fi on and connected to "Home_Network_5G",
      the default apps with both list flags off. */
  function DefaultState(): (r: SettingsState)
    ensures r.network.wifi.enabled && r.network.wifi.connected == Some("Home_Network_5G")
    ensures |r.network.wifi.availableNetworks| == 4
    ensures r.apps == AppsState(DefaultApps(), false, false)
    ensures !r.network.ethernet.connected
  {
    SettingsState(
      NetworkState(
        Wifi(true, Some("Home_Network_5G"),
             [ Network("Home_Network_5G", Strong, true, true),
               Network("Neighbor_WiFi", Medium, true, false),
               Network("Public_WiFi", Weak, false, false),
               Network("Guest_Network", Strong, true, false) ]),
        Ethernet(false, "Not connected")),
      AccountState(GoogleAccount("user@gmail.com", "Stream User", true,
                                 ["Play Store", "YouTube", "Google Play Games"])),
      AppsState(DefaultApps(), false, false),
      RemoteState([RemoteDevice("Stream Remote 1", true, "85%", "Now")]),
      DisplayState("1080p", true, "HDMI"),
      StorageState("32 GB", "18.5 GB", "13.5 GB"))
  }

  /** The defaults satisfy the record's invariants, with exactly one network
      connected: the one `wifi.connected` names. */
  lemma DefaultStateWellFormed()
    ensures WellFormed(DefaultState())
    ensures CountConnected(DefaultState().network.wifi.availableNetworks) == 1
    ensures DefaultState().network.wifi.connected == Some("Home_Network_5G")
  {
    var nets := DefaultState().network.wifi.availableNetworks;
    assert CountConnected(nets[3..]) == 0;
  }

  // ---------------------------------------------------------------------
  // What each mutator does to the record

  /** `network.connected` recomputed for every entry, as the `map` in `connectToNetwork` does. */
  function MarkConnected(nets: seq<Network>, name: string): (r: seq<Network>)
    ensures |r| == |nets|
    ensures forall i :: 0 <= i < |r| ==>
              && r[i].connected == (nets[i].name == name)
              && r[i].name == nets[i].name
              && r[i].signal == nets[i].signal
              && r[i].secured == nets[i].secured
  {
    if nets == [] then []
    else [nets[0].(connected := nets[0].name == name)] + MarkConnected(nets[1..], name)
  }

  /** The record after `handleWifiToggle(enabled)`. */
  function WithWifiEnabled(s: SettingsState, enabled: bool): (r: SettingsState)
    ensures r.network.wifi.enabled == enabled
    ensures r.network.wifi.connected == s.network.wifi.connected
    ensures r.network.wifi.availableNetworks == s.network.wifi.availableNetworks
    ensures r.network.ethernet == s.network.ethernet
    ensures r.account == s.account && r.apps == s.apps && r.remote == s.remote
    ensures r.display == s.display && r.storage == s.storage
    ensures WellFormed(s) ==> WellFormed(r)
  {
    s.(network := s.network.(wifi := s.network.wifi.(enabled := enabled)))
  }

  /** The record after `connectToNetwork(name)`. Wi-Fi being off does not stop it. */
  function WithNetworkConnected(s: SettingsState, name: string): (r: SettingsState)
    ensures r.network.wifi.connected == Some(name)
    ensures r.network.wifi.enabled == s.network.wifi.enabled
    ensures |r.network.wifi.availableNetworks| == |s.network.wifi.availableNetworks|
    ensures forall i :: 0 <= i < |s.network.wifi.availableNetworks| ==>
              var before, after := s.network.wifi.availableNetworks[i], r.network.wifi.availableNetworks[i];
              && after.connected == (before.name == name)
              && after.name == before.name && after.signal == before.signal && after.secured == before.secured
    ensures r.network.ethernet == s.network.ethernet
    ensures r.account == s.account && r.apps == s.apps && r.remote == s.remote
    ensures r.display == s.display && r.storage == s.storage
    // distinct network names are enough to re-establish the connection invariant
    ensures NetworkNamesDistinct(s.network.wifi.availableNetworks) ==> ConnectionConsistent(r.network.wifi)
    ensures WellFormed(s) ==> WellFormed(r)
  {
    var w := s.network.wifi;
    s.(network := s.network.(wifi := w.(connected := Some(name),
                                        availableNetworks := MarkConnected(w.availableNetworks, name))))
  }

  /** The record after `toggleSystemApps(show)`. */
  function WithShowSystemApps(s: SettingsState, show: bool): (r: SettingsState)
    ensures r.apps.showSystemApps == show
    ensures r.apps.installed == s.apps.installed && r.apps.showAllApps == s.apps.showAllApps
    ensures r.network == s.network && r.account == s.account && r.remote == s.remote
    ensures r.display == s.display && r.storage == s.storage
    ensures WellFormed(s) ==> WellFormed(r)
  {
    s.(apps := s.apps.(showSystemApps := show))
  }

  /** The record after `toggleAllApps(show)`. */
  function WithShowAllApps(s: SettingsState, show: bool): (r: SettingsState)
    ensures r.apps.showAllApps == show
    ensures r.apps.installed == s.apps.installed && r.apps.showSystemApps == s.apps.showSystemApps
    ensures r.network == s.network && r.account == s.account && r.remote == s.remote
    ensures r.display == s.display && r.storage == s.storage
    ensures WellFormed(s) ==> WellFormed(r)
  {
    s.(apps := s.apps.(showAllApps := show))
  }

  /** Index of the first app called `name`: the `installed.find(...)` of `updateAppStorage`. */
  function FindApp(apps: seq<App>, name: string): (r: Option<nat>)
    ensures r.Some? ==> r.value < |apps| && apps[r.value].name == name
    ensures r.Some? ==> forall j :: 0 <= j < r.value ==> apps[j].name != name
    ensures r.None? ==> forall j :: 0 <= j < |apps| ==> apps[j].name != name
  {
    if apps == [] then None
    else if apps[0].name == name then Some(0)
    else match FindApp(apps[1..], name)
      case None => None
      case Some(k) => Some(k + 1)
  }

  /** An app record with one size field reset to the cleared sentinel. */
  function ClearedApp(a: App, action: StorageAction): App {
    match action
    case Data => a.(dataSize := ClearedSize)
    case Cache => a.(cacheSize := ClearedSize)
  }

  /** The record after `updateAppStorage(name, action)`. */
  function WithAppStorageCleared(s: SettingsState, name: string, action: StorageAction): (r: SettingsState)
    ensures |r.apps.installed| == |s.apps.installed|
    ensures FindApp(s.apps.installed, name).None? ==> r == s
    ensures FindApp(s.apps.installed, name).Some? ==>
              var i := FindApp(s.apps.installed, name).value;
              var before, after := s.apps.installed[i], r.apps.installed[i];
              && (action == Data ==> after.dataSize == ClearedSize && after.cacheSize == before.cacheSize)
              && (action == Cache ==> after.cacheSize == ClearedSize && after.dataSize == before.dataSize)
              && after.name == before.name && after.version == before.version && after.size == before.size
              && after.system == before.system && after.icon == before.icon
              && forall j :: 0 <= j < |s.apps.installed| && j != i ==> r.apps.installed[j] == s.apps.installed[j]
    ensures r.apps.showSystemApps == s.apps.showSystemApps && r.apps.showAllApps == s.apps.showAllApps
    ensures r.network == s.network && r.account == s.account && r.remote == s.remote
    ensures r.display == s.display && r.storage == s.storage
    ensures WellFormed(s) ==> WellFormed(r)
  {
    match FindApp(s.apps.installed, name)
    case None => s
    case Some(i) => s.(apps := s.apps.(installed := s.apps.installed[i := ClearedApp(s.apps.installed[i], action)]))
  }

  // ---------------------------------------------------------------------
  // Properties relating several operations

  lemma {:induction false} MarkConnectedCount(nets: seq<Network>, name: string)
    ensures CountConnected(MarkConnected(nets, name)) == CountNamed(nets, name)
  {
    if nets != [] {
      MarkConnectedCount(nets[1..], name);
      assert MarkConnected(nets, name)[1..] == MarkConnected(nets[1..], name);
    }
  }

  /** Connecting to a network listed exactly once leaves exactly one entry
      connected, and `wifi.connected` names it. */
  lemma ConnectUniqueNetwork(s: SettingsState, name: string)
    requires CountNamed(s.network.wifi.availableNetworks, name) == 1
    ensures var w := WithNetworkConnected(s, name).network.wifi;
            && CountConnected(w.availableNetworks) == 1
            && ConnectionConsistent(w)
  {
    var nets := s.network.wifi.availableNetworks;
    MarkConnectedCount(nets, name);
    forall i, j | 0 <= i < |nets| && 0 <= j < |nets| && i != j && nets[i].name == name
      ensures nets[j].name != name
    {
      if nets[j].name == name {
        CountAtLeastTwo(nets, name, i, j);
      }
    }
  }

  lemma {:induction false} CountAtLeastTwo(nets: seq<Network>, name: string, i: nat, j: nat)
    requires i < |nets| && j < |nets| && i != j
    requires nets[i].name == name && nets[j].name == name
    ensures CountNamed(nets, name) >= 2
  {
    if i > 0 && j > 0 {
      CountAtLeastTwo(nets[1..], name, i - 1, j - 1);
    } else {
      var k := if i == 0 then j else i;
      CountAtLeastOne(nets[1..], name, k - 1);
    }
  }

  lemma {:induction false} CountAtLeastOne(nets: seq<Network>, name: string, k: nat)
    requires k < |nets| && nets[k].name == name
    ensures CountNamed(nets, name) >= 1
  {
    if k > 0 {
      CountAtLeastOne(nets[1..], name, k - 1);
    }
  }

  /** Clearing the same app's storage twice is the same as clearing it once. */
  lemma ClearAppStorageIdempotent(s: SettingsState, name: string, action: StorageAction)
    ensures var once := WithAppStorageCleared(s, name, action);
            WithAppStorageCleared(once, name, action) == once
  {
    var once := WithAppStorageCleared(s, name, action);
    match FindApp(s.apps.installed, name)
    case None =>
    case Some(i) =>
      FindAppSameNames(s.apps.installed, once.apps.installed, name);
      assert once.apps.installed[i := ClearedApp(once.apps.installed[i], action)] == once.apps.installed;
  }

  /** `find` by name only looks at names. */
  lemma FindAppSameNames(a: seq<App>, b: seq<App>, name: string)
    requires |a| == |b| && forall k :: 0 <= k < |a| ==> a[k].name == b[k].name
    ensures FindApp(a, name) == FindApp(b, name)
  {
  }

  /** Turning Wi-Fi off and on again restores the record exactly: the toggle
      never touches the connection. */
  lemma WifiToggleRoundTrip(s: SettingsState)
    ensures WithWifiEnabled(WithWifiEnabled(s, !s.network.wifi.enabled), s.network.wifi.enabled) == s
  {
  }

  // ---------------------------------------------------------------------
  // The apps-panel list of `renderAppsPanel`

  function AppsPanelPredicate(showSystemApps: bool, showAllApps: bool): App -> bool {
    (a: App) => showSystemApps || !a.system || showAllApps
  }

  /** The apps listed by the store's own apps panel. */
  function AppsPanelList(apps: AppsState): (r: seq<App>)
    ensures forall a :: a in r <==> a in apps.installed && (apps.showSystemApps || !a.system || apps.showAllApps)
    ensures IsSubsequence(r, apps.installed)
    ensures apps.showSystemApps || apps.showAllApps ==> r == apps.installed
    ensures r == Filter(apps.installed, AppsPanelPredicate(apps.showSystemApps, apps.showAllApps))
  {
    var p := AppsPanelPredicate(apps.showSystemApps, apps.showAllApps);
    FilterIsSubsequence(apps.installed, p);
    if apps.showSystemApps || apps.showAllApps then FilterKeepsAll(apps.installed, p); Filter(apps.installed, p)
    else Filter(apps.installed, p)
  }

  // ---------------------------------------------------------------------
  // The store object

  class SettingsManager {
    var state: SettingsState
    /** What local storage holds under the store's key; `None` when nothing was ever saved. */
    var persisted: Option<SettingsState>

    /** `loadState`: the saved record if there is one, the defaults otherwise. Nothing is written. */
    constructor (saved: Option<SettingsState>)
      ensures state == (if saved.Some? then saved.value else DefaultState())
      ensures persisted == saved
      ensures saved.None? ==> WellFormed(state)
    {
      state := if saved.Some? then saved.value else DefaultState();
      persisted := saved;
      new;
      DefaultStateWellFormed();
    }

    /** `saveState`: write the whole record. */
    method SaveState()
      modifies this`persisted
      ensures persisted == Some(state)
    {
      persisted := Some(state);
    }

    method HandleWifiToggle(enabled: bool)
      modifies this
      ensures state == WithWifiEnabled(old(state), enabled)
      ensures persisted == Some(state)
    {
      state := state.(network := state.network.(wifi := state.network.wifi.(enabled := enabled)));
      SaveState();
    }

    method ConnectToNetwork(networkName: string)
      modifies this
      ensures state == WithNetworkConnected(old(state), networkName)
      ensures persisted == Some(state)
    {
      var wifi := state.network.wifi;
      var nets := MarkConnected(wifi.availableNetworks, networkName);
      state := state.(network := state.network.(wifi := wifi.(connected := Some(networkName))));
      state := state.(network := state.network.(wifi := state.network.wifi.(availableNetworks := nets)));
      SaveState();
    }

    method ToggleSystemApps(show: bool)
      modifies this
      ensures state == WithShowSystemApps(old(state), show)
      ensures persisted == Some(state)
    {
      state := state.(apps := state.apps.(showSystemApps := show));
      SaveState();
    }

    method ToggleAllApps(show: bool)
      modifies this
      ensures state == WithShowAllApps(old(state), show)
      ensures persisted == Some(state)
    {
      state := state.(apps := state.apps.(showAllApps := show));
      SaveState();
    }

    /** The force-stop confirmation: the user's answer, nothing else happens. */
    method ForceStopApp(appName: string, userAnswer: bool) returns (confirmed: bool)
      ensures confirmed == userAnswer
    {
      confirmed := userAnswer;
    }

    /** The clear-data confirmation: the user's answer, nothing else happens. */
    method ClearAppData(appName: string, userAnswer: bool) returns (confirmed: bool)
      ensures confirmed == userAnswer
    {
      confirmed := userAnswer;
    }

    /** The clear-cache confirmation: the user's answer, nothing else happens. */
    method ClearAppCache(appName: string, userAnswer: bool) returns (confirmed: bool)
      ensures confirmed == userAnswer
    {
      confirmed := userAnswer;
    }

    /** Clears one size field of the first app called `appName`; saves only when one was found. */
    method UpdateAppStorage(appName: string, action: StorageAction)
      modifies this
      ensures state == WithAppStorageCleared(old(state), appName, action)
      ensures persisted == if FindApp(old(state).apps.installed, appName).Some? then Some(state) else old(persisted)
    {
      var found := FindApp(state.apps.installed, appName);
      if found.Some? {
        var i := found.value;
        var app := state.apps.installed[i];
        if action == Data {
          app := app.(dataSize := ClearedSize);
        } else {
          app := app.(cacheSize := ClearedSize);
        }
        state := state.(apps := state.apps.(installed := state.apps.installed[i := app]));
        SaveState();
      }
    }

    /** The live network sub-record; a well-formed store hands out a consistent connection. */
    function GetNetworkState(): (r: NetworkState)
      reads this
      ensures r == state.network
      ensures WellFormed(state) ==> ConnectionConsistent(r.wifi) && NetworkNamesDistinct(r.wifi.availableNetworks)
    {
      state.network
    }

    function GetAccountState(): (r: AccountState)
      reads this
      ensures r == state.account
    {
      state.account
    }

    /** The live apps sub-record; a well-formed store hands out distinct app names. */
    function GetAppsState(): (r: AppsState)
      reads this
      ensures r == state.apps
      ensures WellFormed(state) ==> AppNamesDistinct(r.installed)
    {
      state.apps
    }

    function GetRemoteState(): (r: RemoteState)
      reads this
      ensures r == state.remote
    {
      state.remote
    }
  }
}

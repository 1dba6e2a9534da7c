/** The stand-alone settings page (`SettingsManager` in attached_assets/settings.js):
    a right-hand panel navigated through a history stack of rendered snapshots,
    plus a settings record written through to local storage.

    Rendered markup is an opaque string. A `<template>` element is a `Template`
    value, present or absent. Timers become either their eventual effect (closing
    the panel) or an explicit pending step that fires later (connecting to a
    network). */
module LegacySettings {
  import opened Common

  // ---------------------------------------------------------------------
  // The settings record

  datatype WifiSettings = WifiSettings(enabled: bool, connected: Option<string>)

  datatype DisplaySettings = DisplaySettings(resolution: string, hdr: bool, audioOutput: string)

  datatype RemoteSettings = RemoteSettings(paired: seq<string>, batteryLevel: string)

  datatype StorageSettings = StorageSettings(total: string, used: string, free: string)

  datatype AppStorage = AppStorage(total: string, data: string, cache: string)

  datatype MockApp = MockApp(name: string, icon: string, version: string, storage: AppStorage)

  datatype ParentalControls = ParentalControls(enabled: bool, pin: Option<string>)

  /** Apps are kept in an object keyed by app id (`optimum`, `netflix`). */
  datatype LegacyState = LegacyState(wifi: WifiSettings, display: DisplaySettings, remote: RemoteSettings,
                                     storage: StorageSettings, apps: map<string, MockApp>,
                                     language: string, parentalControls: ParentalControls)

  const ClearedSize: string := "0 B"

  /** The two mock apps, keyed `optimum` and `netflix`. */
  function MockApps(): (r: map<string, MockApp>)
    ensures r.Keys == {"optimum", "netflix"}
    ensures r["optimum"].name == "Optimum TV" && r["netflix"].name == "Netflix"
    ensures forall k :: k in r ==>
              && r[k].storage.total != ClearedSize
              && r[k].storage.data != ClearedSize
              && r[k].storage.cache != ClearedSize
  {
    map["optimum" := MockApp("Optimum TV", "https://i.imgur.com/XYZ123.png", "2.1.0",
                             AppStorage("1.2 GB", "800 MB", "400 MB")),
        "netflix" := MockApp("Netflix", "https://i.imgur.com/ABC456.png", "8.4.0",
                             AppStorage("2.1 GB", "1.5 GB", "600 MB"))]
  }

  /** The record `loadState` falls back to: Wi-Fi on with no connection, the mock apps. */
  function DefaultLegacyState(): (r: LegacyState)
    ensures r.wifi.enabled && r.wifi.connected.None? && WifiConsistent(r)
    ensures r.apps == MockApps() && r.language == "English"
    ensures !r.parentalControls.enabled && r.parentalControls.pin.None?
  {
    LegacyState(WifiSettings(true, None),
                DisplaySettings("1080p", true, "HDMI"),
                RemoteSettings(["Optimum Remote 1"], "85%"),
                StorageSettings("32 GB", "18.5 GB", "13.5 GB"),
                MockApps(),
                "English",
                ParentalControls(false, None))
  }

  /** Wi-Fi switched off never shows a connection. */
  predicate WifiConsistent(s: LegacyState) {
    !s.wifi.enabled ==> s.wifi.connected.None?
  }

  /** The record after the Wi-Fi switch changes to `checked`. */
  function WifiSwitched(s: LegacyState, checked: bool): (r: LegacyState)
    ensures r.wifi.enabled == checked
    ensures !checked ==> r.wifi.connected == None
    ensures checked ==> r.wifi.connected == s.wifi.connected
    ensures WifiConsistent(s) ==> WifiConsistent(r)
    ensures !checked ==> WifiConsistent(r)
    ensures r.display == s.display && r.remote == s.remote && r.storage == s.storage && r.apps == s.apps
    ensures r.language == s.language && r.parentalControls == s.parentalControls
  {
    s.(wifi := WifiSettings(checked, if checked then s.wifi.connected else None))
  }

  /** The record once a connection attempt to `ssid` completes. */
  function NetworkJoined(s: LegacyState, ssid: string): (r: LegacyState)
    ensures r.wifi.connected == Some(ssid) && r.wifi.enabled == s.wifi.enabled
    ensures s.wifi.enabled ==> WifiConsistent(r)
    ensures r.display == s.display && r.remote == s.remote && r.storage == s.storage && r.apps == s.apps
    ensures r.language == s.language && r.parentalControls == s.parentalControls
  {
    s.(wifi := s.wifi.(connected := Some(ssid)))
  }

  /** The record after `clearAppStorage(id)`: both sizes of that one app cleared. */
  function AppStorageCleared(s: LegacyState, id: string): (r: LegacyState)
    requires id in s.apps
    ensures r.apps.Keys == s.apps.Keys
    ensures r.apps[id].storage.data == ClearedSize && r.apps[id].storage.cache == ClearedSize
    ensures r.apps[id].storage.total == s.apps[id].storage.total
    ensures r.apps[id].name == s.apps[id].name && r.apps[id].version == s.apps[id].version
    ensures r.apps[id].icon == s.apps[id].icon
    ensures forall k :: k in s.apps && k != id ==> r.apps[k] == s.apps[k]
    ensures r.wifi == s.wifi && r.display == s.display && r.remote == s.remote && r.storage == s.storage
    ensures r.language == s.language && r.parentalControls == s.parentalControls
  {
    var app := s.apps[id];
    s.(apps := s.apps[id := app.(storage := app.storage.(data := ClearedSize, cache := ClearedSize))])
  }

  /** The record after the clear-data action on app `id`. */
  function AppDataCleared(s: LegacyState, id: string): (r: LegacyState)
    requires id in s.apps
    ensures r.apps.Keys == s.apps.Keys
    ensures r.apps[id].storage.data == ClearedSize
    ensures r.apps[id].storage.cache == s.apps[id].storage.cache && r.apps[id].storage.total == s.apps[id].storage.total
    ensures r.apps[id].name == s.apps[id].name && r.apps[id].version == s.apps[id].version
    ensures r.apps[id].icon == s.apps[id].icon
    ensures forall k :: k in s.apps && k != id ==> r.apps[k] == s.apps[k]
    ensures r.wifi == s.wifi && r.display == s.display && r.remote == s.remote && r.storage == s.storage
    ensures r.language == s.language && r.parentalControls == s.parentalControls
  {
    var app := s.apps[id];
    s.(apps := s.apps[id := app.(storage := app.storage.(data := ClearedSize))])
  }

  /** The record after the clear-cache action on app `id`. */
  function AppCacheCleared(s: LegacyState, id: string): (r: LegacyState)
    requires id in s.apps
    ensures r.apps.Keys == s.apps.Keys
    ensures r.apps[id].storage.cache == ClearedSize
    ensures r.apps[id].storage.data == s.apps[id].storage.data && r.apps[id].storage.total == s.apps[id].storage.total
    ensures r.apps[id].name == s.apps[id].name && r.apps[id].version == s.apps[id].version
    ensures r.apps[id].icon == s.apps[id].icon
    ensures forall k :: k in s.apps && k != id ==> r.apps[k] == s.apps[k]
    ensures r.wifi == s.wifi && r.display == s.display && r.remote == s.remote && r.storage == s.storage
    ensures r.language == s.language && r.parentalControls == s.parentalControls
  {
    var app := s.apps[id];
    s.(apps := s.apps[id := app.(storage := app.storage.(cache := ClearedSize))])
  }

  /** Clearing data and then cache is clearing the whole app storage, in either order. */
  lemma ClearDataThenCacheIsClearStorage(s: LegacyState, id: string)
    requires id in s.apps
    ensures AppCacheCleared(AppDataCleared(s, id), id) == AppStorageCleared(s, id)
    ensures AppDataCleared(AppCacheCleared(s, id), id) == AppStorageCleared(s, id)
  {
  }

  /** A connection that completes after Wi-Fi was switched off leaves the record
      showing a connection while Wi-Fi is off: the 2-second timer is never cancelled. */
  lemma LateConnectionAfterSwitchOff(s: LegacyState, ssid: string)
    ensures var r := NetworkJoined(WifiSwitched(s, false), ssid);
            !r.wifi.enabled && r.wifi.connected == Some(ssid) && !WifiConsistent(r)
  {
  }

  /** The connection step with the Wi-Fi switch checked again when the timer fires: a connection
      that lands after the switch went off is dropped. */
  function NetworkJoinedIfEnabled(s: LegacyState, ssid: string): (r: LegacyState)
    ensures s.wifi.enabled ==> r == NetworkJoined(s, ssid)
    ensures !s.wifi.enabled ==> r == s
  {
    if s.wifi.enabled then NetworkJoined(s, ssid) else s
  }

  /** The checked connection step keeps Wi-Fi consistency, also after a switch-off. */
  lemma JoinIfEnabledKeepsConsistent(s: LegacyState, ssid: string, checked: bool)
    requires WifiConsistent(s)
    ensures WifiConsistent(NetworkJoinedIfEnabled(s, ssid))
    ensures WifiConsistent(NetworkJoinedIfEnabled(WifiSwitched(s, checked), ssid))
  {
  }

  // ---------------------------------------------------------------------
  // Panel navigation

  /** A `<template>` element: the heading and body markup it clones into the panel. */
  datatype Template = Template(heading: string, body: string)

  /** What the open panel shows: its header text and its content markup. */
  datatype PanelView = PanelView(title: string, content: string)

  /** A back-navigation snapshot, as pushed by `updatePanelContent`. */
  datatype HistoryEntry = HistoryEntry(content: string, title: string)

  /** `currentPanel` (absent when no panel is open) and `panelHistory`. */
  datatype Navigation = Navigation(panel: Option<PanelView>, history: seq<HistoryEntry>)

  /** History only exists while a panel is open. */
  predicate NavValid(nav: Navigation) {
    nav.panel.None? ==> nav.history == []
  }

  function ClosedNavigation(): (r: Navigation)
    ensures r.panel.None? && r.history == [] && NavValid(r)
  {
    Navigation(None, [])
  }

  /** `updatePanelContent(template, title)`. */
  function Pushed(nav: Navigation, template: Option<Template>, title: string): (r: Navigation)
    ensures r.panel.Some? <==> nav.panel.Some?
    ensures nav.panel.Some? && template.Some? ==>
              && r.panel.value.title == title
              && |r.history| == |nav.history| + 1
              && r.history[..|nav.history|] == nav.history
    ensures nav.panel.None? || template.None? ==> r == nav
  {
    if nav.panel.None? || template.None? then nav
    else Navigation(Some(PanelView(title, template.value.body)),
                    nav.history + [HistoryEntry(nav.panel.value.content, nav.panel.value.title)])
  }

  /** `closePanel`, once its 300 ms timer has run. */
  function Closed(nav: Navigation): (r: Navigation)
    ensures r.panel.None? && r.history == (if nav.panel.Some? then [] else nav.history)
    ensures NavValid(nav) ==> r == ClosedNavigation()
  {
    if nav.panel.Some? then ClosedNavigation() else nav
  }

  /** `goBack`: restore the latest snapshot, or close when there is none. */
  function Popped(nav: Navigation): (r: Navigation)
    requires NavValid(nav)
    ensures NavValid(r)
    ensures nav.history == [] ==> r == ClosedNavigation()
    ensures nav.history != [] ==>
              && r.history == nav.history[..|nav.history| - 1]
              && r.panel == Some(PanelView(nav.history[|nav.history| - 1].title, nav.history[|nav.history| - 1].content))
  {
    if nav.history == [] then Closed(nav)
    else
      var previous := nav.history[|nav.history| - 1];
      Navigation(Some(PanelView(previous.title, previous.content)), nav.history[..|nav.history| - 1])
  }

  /** `createMainPanel`: open the device menu when its template exists. */
  function Opened(nav: Navigation, deviceMenu: Option<Template>): (r: Navigation)
    ensures r.history == nav.history
    ensures deviceMenu.Some? ==> r.panel == Some(PanelView(deviceMenu.value.heading, deviceMenu.value.body))
    ensures deviceMenu.None? ==> r == nav
  {
    if deviceMenu.None? then nav
    else Navigation(Some(PanelView(deviceMenu.value.heading, deviceMenu.value.body)), nav.history)
  }

  /** `showDeviceSettings`: close an open panel, otherwise open the main panel. */
  function Toggled(nav: Navigation, deviceMenu: Option<Template>): (r: Navigation)
    ensures NavValid(nav) ==> NavValid(r)
    ensures nav.panel.Some? ==> r.panel.None? && r.history == []
    ensures nav.panel.None? && deviceMenu.Some? ==> r.panel.Some? && r.history == nav.history
    ensures nav.panel.None? ==> r == Opened(nav, deviceMenu)
  {
    if nav.panel.Some? then Closed(nav) else Opened(nav, deviceMenu)
  }

  /** A push onto an open panel adds exactly one snapshot of what was shown and retitles the panel;
      without a panel or a template nothing changes. */
  lemma PushShape(nav: Navigation, template: Option<Template>, title: string)
    requires NavValid(nav)
    ensures NavValid(Pushed(nav, template, title))
    ensures nav.panel.Some? && template.Some? ==>
              var r := Pushed(nav, template, title);
              && |r.history| == |nav.history| + 1
              && r.history[..|nav.history|] == nav.history
              && r.history[|nav.history|] == HistoryEntry(nav.panel.value.content, nav.panel.value.title)
              && r.panel == Some(PanelView(title, template.value.body))
    ensures nav.panel.None? || template.None? ==> Pushed(nav, template, title) == nav
  {
  }

  /** Going back right after a push restores the panel and the history exactly. */
  lemma BackUndoesPush(nav: Navigation, template: Template, title: string)
    requires NavValid(nav) && nav.panel.Some?
    ensures Popped(Pushed(nav, Some(template), title)) == nav
  {
  }

  /** Pushes in order, one per (template, title) pair. */
  function PushedAll(nav: Navigation, steps: seq<(Template, string)>): Navigation
    decreases |steps|
  {
    if steps == [] then nav
    else var last := steps[|steps| - 1];
         Pushed(PushedAll(nav, steps[..|steps| - 1]), Some(last.0), last.1)
  }

  /** `n` presses of the back button. */
  function PoppedN(nav: Navigation, n: nat): Navigation
    requires NavValid(nav)
    decreases n
  {
    if n == 0 then nav
    else PopValid(nav); PoppedN(Popped(nav), n - 1)
  }

  lemma PopValid(nav: Navigation)
    requires NavValid(nav)
    ensures NavValid(Popped(nav))
  {
  }

  /** Pushing keeps the panel open, keeps the history well-formed and lengthens it by one per step. */
  lemma {:induction false} PushedAllShape(nav: Navigation, steps: seq<(Template, string)>)
    requires NavValid(nav) && nav.panel.Some?
    ensures var r := PushedAll(nav, steps);
            NavValid(r) && r.panel.Some? && |r.history| == |nav.history| + |steps|
    decreases |steps|
  {
    if steps != [] {
      PushedAllShape(nav, steps[..|steps| - 1]);
    }
  }

  /** LIFO at any depth: as many backs as pushes return to the starting panel and history. */
  lemma {:induction false} BackUndoesNestedPushes(nav: Navigation, steps: seq<(Template, string)>)
    requires NavValid(nav) && nav.panel.Some?
    ensures NavValid(PushedAll(nav, steps))
    ensures PoppedN(PushedAll(nav, steps), |steps|) == nav
    decreases |steps|
  {
    PushedAllShape(nav, steps);
    if steps != [] {
      var init, last := steps[..|steps| - 1], steps[|steps| - 1];
      PushedAllShape(nav, init);
      var mid := PushedAll(nav, init);
      BackUndoesPush(mid, last.0, last.1);
      calc {
        PoppedN(PushedAll(nav, steps), |steps|);
        PoppedN(Popped(Pushed(mid, Some(last.0), last.1)), |steps| - 1);
        PoppedN(mid, |init|);
        { BackUndoesNestedPushes(nav, init); }
        nav;
      }
    }
  }

  /** Back on an empty history is exactly `closePanel`; closing always ends with no panel and no history. */
  lemma BackOnEmptyHistoryCloses(nav: Navigation)
    requires NavValid(nav) && nav.history == []
    ensures Popped(nav) == Closed(nav)
    ensures Closed(nav) == ClosedNavigation()
  {
  }

  /** Opening when closed and then toggling again closes; toggling an open panel closes it. */
  lemma ToggleOpensThenCloses(nav: Navigation, deviceMenu: Template)
    requires NavValid(nav)
    ensures nav.panel.None? ==> Toggled(nav, Some(deviceMenu)).panel == Some(PanelView(deviceMenu.heading, deviceMenu.body))
    ensures nav.panel.None? ==> Toggled(Toggled(nav, Some(deviceMenu)), Some(deviceMenu)) == ClosedNavigation()
    ensures nav.panel.Some? ==> Toggled(nav, Some(deviceMenu)) == ClosedNavigation()
  {
  }

  // ---------------------------------------------------------------------
  // The menu entries of `deviceSettings`

  datatype DeviceSetting = DeviceSetting(key: string, title: string, icon: string, templateId: string)

  const DeviceSettings: seq<DeviceSetting> := [
    DeviceSetting("network", "Network & Internet", "fa-wifi", "wifi-panel-template"),
    DeviceSetting("display", "Display & Sound", "fa-tv", "display-panel-template"),
    DeviceSetting("remote", "Remote & Accessories", "fa-gamepad", "remote-panel-template"),
    DeviceSetting("storage", "Storage", "fa-hard-drive", "storage-panel-template"),
    DeviceSetting("about", "About", "fa-info-circle", "about-panel-template")
  ]

  const DeviceMenuTemplateId: string := "device-menu-template"

  // ---------------------------------------------------------------------
  // The manager object

  class SettingsManager {
    var state: LegacyState
    /** What local storage holds under the page's key; `None` when nothing was ever saved. */
    var persisted: Option<LegacyState>
    var currentPanel: Option<PanelView>
    var panelHistory: seq<HistoryEntry>
    /** Networks whose 2-second connection timer is still running, oldest first. */
    var pendingConnects: seq<string>
    /** Panel templates found in the document, by menu key. */
    const panelTemplates: map<string, Template>
    const deviceMenu: Option<Template>

    function Nav(): Navigation
      reads this
    {
      Navigation(currentPanel, panelHistory)
    }

    ghost predicate Valid()
      reads this
    {
      NavValid(Nav())
    }

    /** `document` maps element ids to the `<template>` elements present in the page. */
    constructor (saved: Option<LegacyState>, document: map<string, Template>)
      ensures Valid()
      ensures state == (if saved.Some? then saved.value else DefaultLegacyState())
      ensures persisted == saved
      ensures currentPanel == None && panelHistory == [] && pendingConnects == []
      ensures deviceMenu == (if DeviceMenuTemplateId in document then Some(document[DeviceMenuTemplateId]) else None)
      ensures forall i :: 0 <= i < |DeviceSettings| ==>
                (DeviceSettings[i].key in panelTemplates <==> DeviceSettings[i].templateId in document)
      ensures forall i :: 0 <= i < |DeviceSettings| && DeviceSettings[i].key in panelTemplates ==>
                panelTemplates[DeviceSettings[i].key] == document[DeviceSettings[i].templateId]
      ensures forall k :: k in panelTemplates ==> exists i :: 0 <= i < |DeviceSettings| && DeviceSettings[i].key == k
    {
      var found: map<string, Template> := map[];
      var i := 0;
      while i < |DeviceSettings|
        invariant 0 <= i <= |DeviceSettings|
        invariant forall j :: 0 <= j < i ==> (DeviceSettings[j].key in found <==> DeviceSettings[j].templateId in document)
        invariant forall j :: 0 <= j < i && DeviceSettings[j].key in found ==>
                    found[DeviceSettings[j].key] == document[DeviceSettings[j].templateId]
        invariant forall k :: k in found ==> exists j :: 0 <= j < i && DeviceSettings[j].key == k
      {
        var setting := DeviceSettings[i];
        if setting.templateId in document {
          found := found[setting.key := document[setting.templateId]];
        }
        i := i + 1;
      }
      state := if saved.Some? then saved.value else DefaultLegacyState();
      persisted := saved;
      currentPanel := None;
      panelHistory := [];
      pendingConnects := [];
      panelTemplates := found;
      deviceMenu := if DeviceMenuTemplateId in document then Some(document[DeviceMenuTemplateId]) else None;
    }

    method SaveState()
      modifies this`persisted
      ensures persisted == Some(state)
    {
      persisted := Some(state);
    }

    // --- navigation

    method ShowDeviceSettings()
      requires Valid()
      modifies this`currentPanel, this`panelHistory
      ensures Valid()
      ensures Nav() == Toggled(old(Nav()), deviceMenu)
    {
      if currentPanel.Some? {
        ClosePanel();
        return;
      }
      CreateMainPanel();
    }

    method CreateMainPanel()
      requires Valid()
      modifies this`currentPanel
      ensures Valid()
      ensures Nav() == Opened(old(Nav()), deviceMenu)
    {
      if deviceMenu.None? {
        return;
      }
      currentPanel := Some(PanelView(deviceMenu.value.heading, deviceMenu.value.body));
    }

    method UpdatePanelContent(template: Option<Template>, title: string)
      requires Valid()
      modifies this`currentPanel, this`panelHistory
      ensures Valid()
      ensures Nav() == Pushed(old(Nav()), template, title)
    {
      if currentPanel.None? || template.None? {
        return;
      }
      var shown := currentPanel.value;
      panelHistory := panelHistory + [HistoryEntry(shown.content, shown.title)];
      currentPanel := Some(PanelView(title, template.value.body));
    }

    /** A click on the menu item for `DeviceSettings[item]`. The page only renders these items inside
        the device menu; the model allows the click on any open panel, a superset of what the page does. */
    method SelectMenuItem(item: nat)
      requires Valid() && item < |DeviceSettings|
      modifies this`currentPanel, this`panelHistory
      ensures Valid()
      ensures var setting := DeviceSettings[item];
              Nav() == if setting.key in panelTemplates
                       then Pushed(old(Nav()), Some(panelTemplates[setting.key]), setting.title)
                       else old(Nav())
    {
      var setting := DeviceSettings[item];
      if setting.key in panelTemplates {
        UpdatePanelContent(Some(panelTemplates[setting.key]), setting.title);
      }
    }

    method GoBack()
      requires Valid()
      modifies this`currentPanel, this`panelHistory
      ensures Valid()
      ensures Nav() == Popped(old(Nav()))
    {
      if |panelHistory| == 0 {
        ClosePanel();
        return;
      }
      var previous := panelHistory[|panelHistory| - 1];
      panelHistory := panelHistory[..|panelHistory| - 1];
      currentPanel := Some(PanelView(previous.title, previous.content));
    }

    method ClosePanel()
      requires Valid()
      modifies this`currentPanel, this`panelHistory
      ensures Valid()
      ensures Nav() == Closed(old(Nav()))
      ensures currentPanel == None && panelHistory == []
    {
      if currentPanel.Some? {
        currentPanel := None;
        panelHistory := [];
      }
    }

    // --- settings listeners

    /** The Wi-Fi switch's change listener. */
    method WifiSwitchChanged(checked: bool)
      modifies this`state, this`persisted
      ensures state == WifiSwitched(old(state), checked)
      ensures persisted == Some(state)
    {
      state := state.(wifi := state.wifi.(enabled := checked));
      if !checked {
        state := state.(wifi := state.wifi.(connected := None));
      }
      SaveState();
    }

    /** A click on network `ssid`; `statusShown` says whether the page has a `#current-network` element.
        Only starts the 2-second timer. */
    method ConnectToNetwork(ssid: string, statusShown: bool)
      modifies this`pendingConnects
      ensures pendingConnects == if old(state).wifi.enabled && statusShown
                                 then old(pendingConnects) + [ssid] else old(pendingConnects)
    {
      if !state.wifi.enabled {
        return;
      }
      if !statusShown {
        return;
      }
      pendingConnects := pendingConnects + [ssid];
    }

    /** The oldest pending connection timer fires. Wi-Fi is not checked again. */
    method ConnectTimerFires()
      requires pendingConnects != []
      modifies this`state, this`persisted, this`pendingConnects
      ensures state == NetworkJoined(old(state), old(pendingConnects)[0])
      ensures pendingConnects == old(pendingConnects)[1..]
      ensures persisted == Some(state)
    {
      var ssid := pendingConnects[0];
      pendingConnects := pendingConnects[1..];
      state := state.(wifi := state.wifi.(connected := Some(ssid)));
      SaveState();
    }

    method SetResolution(resolution: string)
      modifies this`state, this`persisted
      ensures state == old(state).(display := old(state).display.(resolution := resolution))
      ensures persisted == Some(state)
    {
      state := state.(display := state.display.(resolution := resolution));
      SaveState();
    }

    method SetHdr(hdr: bool)
      modifies this`state, this`persisted
      ensures state == old(state).(display := old(state).display.(hdr := hdr))
      ensures persisted == Some(state)
    {
      state := state.(display := state.display.(hdr := hdr));
      SaveState();
    }

    method SetAudioOutput(audioOutput: string)
      modifies this`state, this`persisted
      ensures state == old(state).(display := old(state).display.(audioOutput := audioOutput))
      ensures persisted == Some(state)
    {
      state := state.(display := state.display.(audioOutput := audioOutput));
      SaveState();
    }

    /** A storage-panel "Clear" button for app `appId`; `userAnswer` is the reply to the confirmation,
        which is only asked for an existing app. */
    method ClearStorageClicked(appId: string, userAnswer: bool)
      modifies this`state, this`persisted
      ensures appId != "" && appId in old(state).apps && userAnswer ==>
                state == AppStorageCleared(old(state), appId) && persisted == Some(state)
      ensures !(appId != "" && appId in old(state).apps && userAnswer) ==>
                state == old(state) && persisted == old(persisted)
    {
      if appId != "" && appId in state.apps {
        if userAnswer {
          ClearAppStorage(appId);
        }
      }
    }

    method ClearAppStorage(appId: string)
      requires appId in state.apps
      modifies this`state, this`persisted
      ensures state == AppStorageCleared(old(state), appId)
      ensures persisted == Some(state)
    {
      var app := state.apps[appId];
      state := state.(apps := state.apps[appId := app.(storage := app.storage.(data := ClearedSize))]);
      app := state.apps[appId];
      state := state.(apps := state.apps[appId := app.(storage := app.storage.(cache := ClearedSize))]);
      SaveState();
    }

    /** An app-settings action button. `appKey` names the app record; `userAnswer` is the reply to a
        confirmation, used only by the actions that ask. A missing record aborts the action. */
    method HandleAppAction(action: string, appKey: string, userAnswer: bool)
      modifies this`state, this`persisted
      ensures action == "clear-data" && userAnswer && appKey in old(state).apps ==>
                state == AppDataCleared(old(state), appKey) && persisted == Some(state)
      ensures action == "clear-cache" && appKey in old(state).apps ==>
                state == AppCacheCleared(old(state), appKey) && persisted == Some(state)
      ensures !(action == "clear-data" && userAnswer && appKey in old(state).apps) &&
              !(action == "clear-cache" && appKey in old(state).apps) ==>
                state == old(state) && persisted == old(persisted)
    {
      if action == "force-stop" {
        // only a notification
      } else if action == "clear-data" {
        if userAnswer && appKey in state.apps {
          var app := state.apps[appKey];
          state := state.(apps := state.apps[appKey := app.(storage := app.storage.(data := ClearedSize))]);
          SaveState();
        }
      } else if action == "clear-cache" {
        if appKey in state.apps {
          var app := state.apps[appKey];
          state := state.(apps := state.apps[appKey := app.(storage := app.storage.(cache := ClearedSize))]);
          SaveState();
        }
      }
    }
  }
}

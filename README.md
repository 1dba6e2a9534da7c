# Streaming-device settings, modelled in Dafny

This project models the settings layer of a TV streaming-device front end.

- **The React settings store** (`SettingsStore`, `settings_store.dfy`). It is one mutable settings record: networks, account, installed apps, remotes, display and storage. Every mutator writes the whole record to local storage. The store is a class with a `state` field and a `persisted` field. `persisted` mirrors what local storage holds; the value found there at start-up is a constructor parameter. Each mutator is specified by a pure function on the record (`WithWifiEnabled`, `WithNetworkConnected`, ...). Those functions state, field by field, what changes and what does not. They also preserve the record's invariant `WellFormed`: distinct network names, at most one network marked connected and named by `wifi.connected`, and distinct app names.
- **The React settings overlay** (`SettingsPanel`, `settings_panel.dfy`). It holds the component's view state as a class whose click handlers update it. Pure functions decide what the device panel shows: its heading, the "recently opened" list, the "all apps" list and the per-view body.
- **The stand-alone settings page** (`LegacySettings`, `legacy_settings.dfy`). It has its own settings record, keyed by app id, and a right-hand panel navigated through a history stack of snapshots. Navigation is specified by pure functions on `Navigation(panel, history)`. The proved properties are these:
  - back undoes a push;
  - any number of backs undoes the same number of pushes (LIFO);
  - back on an empty history closes the panel.

  The 2-second network connection timer is an explicit pending queue (see "## Findings").
- **The home page script** (`HomeScreen`, `home_screen.dfy`). It covers the 12-hour clock text, proved to round-trip back to the 24-hour time, so distinct times of day are shown differently. It also covers the tab bar, where a click leaves exactly one button and at most one content active, the hover description line and the right-panel toggle.
- `Common` (`common.dfy`) holds `Option` and an order-preserving `Filter` with its subsequence lemmas.

## Model

| member | source | states |
|---|---|---|
| Common.Filter | client/src/lib/settingsManager.ts:438 | `Array.prototype.filter`: an element is in the result iff it is in the input and satisfies the predicate; each kept value occurs exactly as often as in the input, and the result is no longer than the input |
| SettingsStore.DefaultStateWellFormed | client/src/lib/settingsManager.ts:10-196 | the default record has distinct network and app names, exactly one network marked connected, and `wifi.connected` names that network ("Home_Network_5G") |
| SettingsStore.DefaultApps | client/src/lib/settingsManager.ts:36-172 | fifteen default apps with distinct names, the first being the system app "Optimum TV" |
| SettingsStore.DefaultState | client/src/lib/settingsManager.ts:10-196 | the fallback record: Wi-Fi on and connected to "Home_Network_5G" among four networks, ethernet disconnected, the default apps with both list flags off |
| SettingsStore.MarkConnected | client/src/lib/settingsManager.ts:210-213 | every network keeps its name, signal and security, and is marked connected exactly when its name is the chosen one |
| SettingsStore.WithWifiEnabled | client/src/lib/settingsManager.ts:203-206 | only `wifi.enabled` changes; the connection and the network list are kept; `WellFormed` is preserved |
| SettingsStore.WithNetworkConnected | client/src/lib/settingsManager.ts:208-215 | `wifi.connected` becomes the name and each entry's flag is recomputed by name, whether or not Wi-Fi is on; with distinct names the connection invariant is re-established; `WellFormed` is preserved |
| SettingsStore.WithShowSystemApps | client/src/lib/settingsManager.ts:217-220 | only `apps.showSystemApps` changes; `WellFormed` is preserved |
| SettingsStore.WithShowAllApps | client/src/lib/settingsManager.ts:222-225 | only `apps.showAllApps` changes; `WellFormed` is preserved |
| SettingsStore.FindApp | client/src/lib/settingsManager.ts:240 | returns the index of the first app with that name, or none when no app has it |
| SettingsStore.WithAppStorageCleared | client/src/lib/settingsManager.ts:239-249 | an unknown name leaves the record unchanged; otherwise only the first matching app's data (or cache) size becomes "0 B", and every other app and field is kept; `WellFormed` is preserved |
| SettingsStore.MarkConnectedCount | client/src/lib/settingsManager.ts:210-213 | after connecting, the number of connected entries equals the number of entries carrying the chosen name |
| SettingsStore.ConnectUniqueNetwork | client/src/lib/settingsManager.ts:208-215 | connecting to a network listed exactly once leaves exactly one entry connected, and it is the one `wifi.connected` names |
| SettingsStore.ClearAppStorageIdempotent | client/src/lib/settingsManager.ts:239-249 | clearing the same app's data (or cache) twice gives the same record as clearing it once |
| SettingsStore.WifiToggleRoundTrip | client/src/lib/settingsManager.ts:203-206 | switching Wi-Fi off and on again (or on and off) restores the record exactly, because the toggle never touches the connection |
| SettingsStore.AppsPanelList | client/src/lib/settingsManager.ts:438 | the apps panel lists, in order and with every occurrence, exactly the apps that are non-system or shown by one of the two flags (it is `Filter` with that predicate); with either flag on it lists every app |
| SettingsStore.SettingsManager.constructor | client/src/lib/settingsManager.ts:4-10 | the state is the saved record when there is one and the defaults otherwise; nothing is written; the defaults are well formed |
| SettingsStore.SettingsManager.SaveState | client/src/lib/settingsManager.ts:199-201 | local storage holds the current record |
| SettingsStore.SettingsManager.HandleWifiToggle | client/src/lib/settingsManager.ts:203-206 | the new state is `WithWifiEnabled` of the old one, and it is saved |
| SettingsStore.SettingsManager.ConnectToNetwork | client/src/lib/settingsManager.ts:208-215 | the new state is `WithNetworkConnected` of the old one, and it is saved |
| SettingsStore.SettingsManager.ToggleSystemApps | client/src/lib/settingsManager.ts:217-220 | the new state is `WithShowSystemApps` of the old one, and it is saved |
| SettingsStore.SettingsManager.ToggleAllApps | client/src/lib/settingsManager.ts:222-225 | the new state is `WithShowAllApps` of the old one, and it is saved |
| SettingsStore.SettingsManager.ForceStopApp | client/src/lib/settingsManager.ts:227-229 | returns the user's answer to the confirmation and changes nothing |
| SettingsStore.SettingsManager.ClearAppData | client/src/lib/settingsManager.ts:231-233 | returns the user's answer to the confirmation and changes nothing |
| SettingsStore.SettingsManager.ClearAppCache | client/src/lib/settingsManager.ts:235-237 | returns the user's answer to the confirmation and changes nothing |
| SettingsStore.SettingsManager.UpdateAppStorage | client/src/lib/settingsManager.ts:239-249 | the new state is `WithAppStorageCleared` of the old one; it is saved only when an app of that name exists |
| SettingsStore.SettingsManager.GetNetworkState | client/src/lib/settingsManager.ts:259-261 | the network sub-record; in a well-formed store its connection is consistent and its network names are distinct |
| SettingsStore.SettingsManager.GetAccountState | client/src/lib/settingsManager.ts:263-265 | the account sub-record of the current state |
| SettingsStore.SettingsManager.GetAppsState | client/src/lib/settingsManager.ts:267-269 | the apps sub-record; in a well-formed store its app names are distinct |
| SettingsStore.SettingsManager.GetRemoteState | client/src/lib/settingsManager.ts:271-273 | the remote sub-record of the current state |
| SettingsPanel.FindOption | client/src/components/SettingsPanel.tsx:495 | returns the first option with that id, or none when no option has it |
| SettingsPanel.HeaderTitle | client/src/components/SettingsPanel.tsx:492-496 | the main view is headed "Device & Remote Settings"; an open app shows its name; otherwise a heading exists iff the view is a known option id |
| SettingsPanel.HeaderNamesOption | client/src/components/SettingsPanel.tsx:492-496 | with no app open, each option's view is headed by that option's title |
| SettingsPanel.RecentlyOpened | client/src/components/SettingsPanel.tsx:266-269 | the first min(5, number of user apps) non-system apps, in installed order: a prefix of the user-app list, so at most five, and all non-system |
| SettingsPanel.AllAppsList | client/src/components/SettingsPanel.tsx:313-315 | lists, in installed order and with every occurrence, exactly the apps that are non-system or shown because system apps are asked for (it is `Filter` with that predicate) |
| SettingsPanel.AllAppsListAgainstStorePanel | client/src/components/SettingsPanel.tsx:313-315 | the overlay's list is always within the store panel's list, and equals it whenever the store's `showAllApps` flag is off |
| SettingsPanel.DevicePanelContent | client/src/components/SettingsPanel.tsx:124-399 | the main view shows the option menu and only it; the network, accounts and remote views show the store's network, account and remote-device records; the apps view shows the open app's details: the first installed app with that name, as `FindApp` locates it, and found iff one exists, otherwise the recent list or the all-apps list; unknown views show the placeholder |
| SettingsPanel.PlaceholderOptions | client/src/components/SettingsPanel.tsx:337-348 | the "Device Preferences" and "TV settings" options show only the placeholder |
| SettingsPanel.PanelState.constructor | client/src/components/SettingsPanel.tsx:12-18 | main views, empty description, device panel hidden, no app open, recent list shown |
| SettingsPanel.PanelState.Header | client/src/components/SettingsPanel.tsx:492-496 | the heading of the current device-panel view is `HeaderTitle` of the view and the open app: the device heading on the main view, the open app's name, or the option's title |
| SettingsPanel.PanelState.HandleMenuClick | client/src/components/SettingsPanel.tsx:95-101 | "device" opens the device panel and keeps the view; any other id becomes the current view |
| SettingsPanel.PanelState.HandleAppAction | client/src/components/SettingsPanel.tsx:103-122 | a confirmed clear-data or clear-cache clears that size of the named app through the store, saving only when the app exists; force-stop or a refusal changes nothing |
| SettingsPanel.PanelState.MainBack | client/src/components/SettingsPanel.tsx:405-410 | the back button returns to the main view |
| SettingsPanel.PanelState.SelectDeviceOption | client/src/components/SettingsPanel.tsx:520 | the chosen option's id becomes the device-panel view |
| SettingsPanel.PanelState.DeviceBack | client/src/components/SettingsPanel.tsx:477-487 | an open app is closed first, keeping the view; otherwise the view returns to the menu |
| SettingsPanel.PanelState.DeviceClose | client/src/components/SettingsPanel.tsx:497-506 | the device panel is hidden and reset to the menu with no app open |
| SettingsPanel.PanelState.OpenAppDetails | client/src/components/SettingsPanel.tsx:273 | the clicked app becomes the open app |
| SettingsPanel.PanelState.SetShowAllApps | client/src/components/SettingsPanel.tsx:258 | the list shown switches between recent apps and all apps |
| SettingsPanel.PanelState.HoverMenuItem | client/src/components/SettingsPanel.tsx:437 | the hovered entry's description is shown |
| SettingsPanel.PanelState.LeaveMenuItem | client/src/components/SettingsPanel.tsx:438 | the description is cleared |
| LegacySettings.WifiSwitched | attached_assets/settings.js:290-297 | the switch sets `enabled`; switching off drops the connection and makes the record Wi-Fi consistent; switching on keeps it; nothing else changes |
| LegacySettings.NetworkJoined | attached_assets/settings.js:525-528 | the connection becomes the network's SSID whatever the switch says; nothing else changes |
| LegacySettings.NetworkJoinedIfEnabled | attached_assets/settings.js:525-528 | the connection step with the Wi-Fi switch checked again: joins when Wi-Fi is on, changes nothing when it is off |
| LegacySettings.JoinIfEnabledKeepsConsistent | attached_assets/settings.js:515-533 | the checked connection step keeps Wi-Fi consistency, also when the switch went off while the timer ran |
| LegacySettings.AppStorageCleared | attached_assets/settings.js:557-562 | the app's data and cache both become "0 B", its total and identity are kept, and every other app and field is unchanged |
| LegacySettings.AppDataCleared | attached_assets/settings.js:542-548 | only the app's data size becomes "0 B"; its cache, total, name, version and icon, every other app, and every other field of the record are unchanged |
| LegacySettings.AppCacheCleared | attached_assets/settings.js:549-553 | only the app's cache size becomes "0 B"; its data, total, name, version and icon, every other app, and every other field of the record are unchanged |
| LegacySettings.ClearDataThenCacheIsClearStorage | attached_assets/settings.js:542-562 | clearing data and then cache, in either order, is the storage panel's full clear |
| LegacySettings.LateConnectionAfterSwitchOff | attached_assets/settings.js:515-533 | a connection whose timer fires after Wi-Fi was switched off leaves Wi-Fi off with a connection recorded, breaking Wi-Fi consistency |
| LegacySettings.MockApps | attached_assets/settings.js:10-31 | the two mock apps keyed `optimum` and `netflix`, named "Optimum TV" and "Netflix"; no app's total, data or cache size is "0 B" |
| LegacySettings.DefaultLegacyState | attached_assets/settings.js:85-113 | the fallback record: Wi-Fi on and unconnected (so Wi-Fi consistent), the mock apps, English, parental controls off without a PIN |
| LegacySettings.ClosedNavigation | attached_assets/settings.js:193-194 | no panel and no history, which is a valid navigation |
| LegacySettings.Pushed | attached_assets/settings.js:144-166 | `updatePanelContent`: on an open panel with a template the title changes and the history grows by one, keeping its old entries as a prefix; otherwise nothing changes |
| LegacySettings.Closed | attached_assets/settings.js:185-197 | `closePanel` once its timer ran: no panel, and no history when a panel was open |
| LegacySettings.Popped | attached_assets/settings.js:168-183 | `goBack`: the last snapshot is removed from the history and shown again; with no history the panel is closed; validity is kept |
| LegacySettings.Opened | attached_assets/settings.js:128-142 | `createMainPanel`: shows the device menu when its template exists, keeping the history; otherwise nothing changes |
| LegacySettings.Toggled | attached_assets/settings.js:119-126 | `showDeviceSettings`: an open panel is closed with its history; a closed one becomes `Opened` on the device menu, and stays unchanged when there is no device menu; validity is kept |
| LegacySettings.PushShape | attached_assets/settings.js:144-166 | a push onto an open panel appends one snapshot of what was shown and shows the template under the new title; without a panel or template nothing changes |
| LegacySettings.BackUndoesPush | attached_assets/settings.js:168-183 | going back right after a push restores the panel and the history exactly |
| LegacySettings.PopValid | attached_assets/settings.js:168-183 | going back keeps the rule that history only exists while a panel is open |
| LegacySettings.PushedAllShape | attached_assets/settings.js:144-166 | each push keeps the panel open and lengthens the history by one |
| LegacySettings.BackUndoesNestedPushes | attached_assets/settings.js:168-183 | LIFO at any depth: after n pushes, n backs return to the starting panel and history |
| LegacySettings.BackOnEmptyHistoryCloses | attached_assets/settings.js:168-197 | back with an empty history is the close, and closing ends with no panel and no history |
| LegacySettings.ToggleOpensThenCloses | attached_assets/settings.js:119-142 | the settings button opens the device menu when closed, and a second press closes it; pressed while a panel is open it closes it |
| LegacySettings.SettingsManager.constructor | attached_assets/settings.js:62-83 | the state is the saved record or the defaults; no panel is open; a menu key has a template exactly when its template id is in the page, and it is that element |
| LegacySettings.SettingsManager.SaveState | attached_assets/settings.js:115-117 | local storage holds the current record |
| LegacySettings.SettingsManager.ShowDeviceSettings | attached_assets/settings.js:119-126 | navigation becomes `Toggled` of the old navigation |
| LegacySettings.SettingsManager.CreateMainPanel | attached_assets/settings.js:128-142 | navigation becomes `Opened`: the device menu when its template exists, otherwise unchanged |
| LegacySettings.SettingsManager.UpdatePanelContent | attached_assets/settings.js:144-166 | navigation becomes `Pushed` of the old navigation |
| LegacySettings.SettingsManager.SelectMenuItem | attached_assets/settings.js:248-253 | a menu item pushes its template under its title when the template exists, and otherwise does nothing |
| LegacySettings.SettingsManager.GoBack | attached_assets/settings.js:168-183 | navigation becomes `Popped` of the old navigation |
| LegacySettings.SettingsManager.ClosePanel | attached_assets/settings.js:185-197 | navigation becomes closed: no panel, no history |
| LegacySettings.SettingsManager.WifiSwitchChanged | attached_assets/settings.js:290-297 | the new state is `WifiSwitched` of the old one, and it is saved |
| LegacySettings.SettingsManager.ConnectToNetwork | attached_assets/settings.js:515-523 | with Wi-Fi on and the status line present, one connection timer is queued for the SSID; otherwise nothing happens |
| LegacySettings.SettingsManager.ConnectTimerFires | attached_assets/settings.js:525-532 | the oldest timer leaves the queue; the state becomes `NetworkJoined` for its SSID and is saved |
| LegacySettings.SettingsManager.SetResolution | attached_assets/settings.js:336-340 | only the resolution changes, and the state is saved |
| LegacySettings.SettingsManager.SetHdr | attached_assets/settings.js:344-348 | only the HDR flag changes, and the state is saved |
| LegacySettings.SettingsManager.SetAudioOutput | attached_assets/settings.js:352-356 | only the audio output changes, and the state is saved |
| LegacySettings.SettingsManager.ClearStorageClicked | attached_assets/settings.js:429-437 | for an existing app id and a confirmed dialog, the state becomes `AppStorageCleared` and is saved; otherwise nothing changes |
| LegacySettings.SettingsManager.ClearAppStorage | attached_assets/settings.js:557-562 | the state becomes `AppStorageCleared` of the old one, and it is saved |
| LegacySettings.SettingsManager.HandleAppAction | attached_assets/settings.js:535-555 | a confirmed clear-data gives `AppDataCleared`, clear-cache gives `AppCacheCleared` without asking, and both save; force-stop, unknown actions and missing apps change nothing |
| HomeScreen.DecimalText | attached_assets/script.js:10 | shortest decimal text of the hour: digits only, one or two of them below 100, and reading it back gives the number |
| HomeScreen.PadStart | attached_assets/script.js:6 | pads on the left with the fill up to the width, keeping the original text as the suffix |
| HomeScreen.DisplayHour | attached_assets/script.js:8 | the 12-hour hour is in 1..12, agrees with the 24-hour hour modulo 12, and is 12 exactly at midnight and noon |
| HomeScreen.Meridiem | attached_assets/script.js:7 | "PM" exactly from noon on, "AM" before |
| HomeScreen.MinuteText | attached_assets/script.js:6 | always two digits whose value is the minute, with a leading zero below 10 |
| HomeScreen.DisplayHourRoundTrip | attached_assets/script.js:7-8 | the displayed hour and its suffix determine the 24-hour hour |
| HomeScreen.ClockText | attached_assets/script.js:10 | the text `${hours}:${minutes} ${ampm}` is 7 or 8 characters and splits at its `:` and space into the hour digits, the two minute digits and the suffix |
| HomeScreen.ClockTextRoundTrip | attached_assets/script.js:3-11 | the clock text parses back to the hour and minute it was made from |
| HomeScreen.ClockTextInjective | attached_assets/script.js:3-11 | distinct times of day never show the same clock text |
| HomeScreen.TabBar.constructor | attached_assets/script.js:26-27 | the tab buttons and contents, with their current `active` flags and each button's target |
| HomeScreen.TabBar.Click | attached_assets/script.js:29-40 | afterwards exactly the clicked button is active, and the only active content is its target (none when the target id is missing) |
| HomeScreen.DescriptionLine.constructor | attached_assets/script.js:44 | the description element, holding whatever text the page's markup gives it |
| HomeScreen.DescriptionLine.MouseEnter | attached_assets/script.js:47-52 | a non-empty `data-text` becomes the description; a missing or empty one leaves it unchanged |
| HomeScreen.DescriptionLine.MouseLeave | attached_assets/script.js:54-56 | the description is cleared |
| HomeScreen.RightPanel.constructor | attached_assets/script.js:61 | the right panel, active exactly when the page's markup gives it the `active` class |
| HomeScreen.RightPanel.DeviceSettingsClicked | attached_assets/script.js:64-66 | the right panel becomes active |
| HomeScreen.RightPanel.BackClicked | attached_assets/script.js:68-70 | the right panel becomes inactive |

## Left out

- Rendering: the HTML produced by `updatePanel` and the `render*Panel` methods of the React store, the JSX of the overlay, and the `initialize*Panel` markup of the stand-alone page. These are not modelled. Markup is an opaque string and a `<template>` is a `Template` value.
- Local storage and JSON: storage is the `persisted` field, and the saved value is already parsed. `JSON.parse` throwing on corrupt data is not modelled; neither store has a fallback for it.
- The React store's Wi-Fi toggle leaves `wifi.connected` and the per-network flags in place. The model follows the code; `WifiToggleRoundTrip` proves it.
- Notifications (`showNotification`), `alert`, `console.log`, `addRemote` and `addAccessory`: they only talk to the user. The confirmation dialogs (`window.confirm`) become a `userAnswer` parameter.
- LegacySettings.SettingsManager.ClosePanel: the 300 ms close timer is modelled as its eventual effect. The window in which the panel is closing but still open is not modelled.
- The remote-pairing (3 s) and update-check (2 s) timers only show notifications.
- The storage bar's percentage width uses floating point and is not modelled.
- LegacySettings.SettingsManager.HandleAppAction: the page looks the record up as `apps[app.id]`, but no app record carries an `id`. The page's only route to this handler passes no app; `initializeEventListeners` calls a `showPanel` method that does not exist. The model therefore takes the app key as an explicit parameter. It treats a missing key as no change, where the page would throw.
- SettingsPanel.DevicePanelContent: when `showAppDetails` names no installed app, the model renders an empty details body (`AppDetailsBody(None)`), where the component would throw on reading `app.icon` of `undefined`. The case cannot arise: `OpenAppDetails` is only called with names taken from the installed list, and no operation removes or renames apps.
- LegacySettings.SettingsManager.GoBack and LegacySettings.SettingsManager.UpdatePanelContent: both assume the panel's header and content elements exist, as the page's templates provide them. settings.js:148-149 dereferences them unchecked, so the throw on a missing element is not modelled.
- `initializePanelContent` and `initializeDeviceMenu` re-attach listeners after every navigation. Listeners are modelled once, as methods.
- Getters in the React store hand out the live sub-record, and the overlay reads through it. The model returns values, so aliasing of those references is not captured.
- HomeScreen.TabBar: a `data-target` naming an element that is not a tab content is not modelled. A missing target is modelled: every content is left inactive, since the handler throws after that point.
- `HomeScreen` clock: the current time is a parameter. The 1-second `setInterval` is not modelled. Neither is the welcome overlay, which only fades on timers.
- The option menu entry click in the stand-alone page is `SelectMenuItem`. The legacy menu-rendering loop itself is not modelled.
- client/src/components/TopNav.tsx, client/src/pages/Home.tsx, client/src/pages/Apps.tsx and client/src/App.tsx are not part of this model:
  - TopNav.tsx mounts the overlay behind its settings button and shows a clock formatted by `toLocaleTimeString` on a 1-second interval.
  - Home.tsx is a static page with a 4-second welcome timer.
  - Apps.tsx is a static app grid.
  - App.tsx only wires the router.

## Findings

| source | as written | input that shows it | evidently intended | confidence | as-written member | corrected member |
|---|---|---|---|---|---|---|
| attached_assets/settings.js:525-528 | the connection timer records `wifi.connected` without looking at `wifi.enabled`, and switching Wi-Fi off (lines 290-297) does not cancel it | Wi-Fi on, a click on a network, then the switch turned off within 2 seconds: the timer leaves Wi-Fi off with that network recorded as connected | the timer re-checks the switch and drops the connection when Wi-Fi is off | high; not executed | LegacySettings.LateConnectionAfterSwitchOff | LegacySettings.JoinIfEnabledKeepsConsistent |

The manager class models the page as written: `ConnectTimerFires` uses `NetworkJoined`. `NetworkJoinedIfEnabled` is the corrected step, and `JoinIfEnabledKeepsConsistent` proves that it keeps Wi-Fi consistency.

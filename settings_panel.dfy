/** The React settings overlay (client/src/components/SettingsPanel.tsx): five
    pieces of view state updated by click handlers, the store instance they act
    on, and the pure projections that decide what the device panel shows. */
module SettingsPanel {
  import opened Common
  import opened SettingsStore

  /** An option of the device panel's menu. */
  datatype DeviceOption = DeviceOption(id: string, title: string)

  const DevicePanelOptions: seq<DeviceOption> := [
    DeviceOption("network", "Network & Internet"),
    DeviceOption("accounts", "Accounts & Sign In"),
    DeviceOption("apps", "Apps"),
    DeviceOption("preferences", "Device Preferences"),
    DeviceOption("tv", "TV settings"),
    DeviceOption("remote", "Remote & Accessories")
  ]

  const MainView: string := "main"
  const DeviceHeading: string := "Device & Remote Settings"
  const RecentLimit: nat := 5

  /** The three buttons of the app-details view. */
  datatype AppAction = ForceStop | ClearData | ClearCache

  /** JavaScript truthiness of `showAppDetails`: `null` and `''` are false. */
  predicate AppOpen(showAppDetails: Option<string>) {
    showAppDetails.Some? && showAppDetails.value != ""
  }

  /** `devicePanelOptions.find(opt => opt.id === id)`. */
  function FindOption(options: seq<DeviceOption>, id: string): (r: Option<DeviceOption>)
    ensures r.Some? ==> r.value in options && r.value.id == id
    ensures r.Some? ==> exists k :: 0 <= k < |options| && options[k] == r.value &&
                                    forall j :: 0 <= j < k ==> options[j].id != id
    ensures r.None? ==> forall j :: 0 <= j < |options| ==> options[j].id != id
  {
    if options == [] then None
    else if options[0].id == id then Some(options[0])
    else
      var rest := FindOption(options[1..], id);
      if rest.Some? then
        ghost var k :| 0 <= k < |options[1..]| && options[1..][k] == rest.value &&
                       forall j :: 0 <= j < k ==> options[1..][j].id != id;
        assert options[k + 1] == rest.value;
        rest
      else rest
  }

  /** The device panel's heading; `None` is the empty heading of an unknown view. */
  function HeaderTitle(devicePanelView: string, showAppDetails: Option<string>): (r: Option<string>)
    ensures devicePanelView == MainView ==> r == Some(DeviceHeading)
    ensures devicePanelView != MainView && AppOpen(showAppDetails) ==> r == Some(showAppDetails.value)
    ensures devicePanelView != MainView && !AppOpen(showAppDetails) ==>
              (r.Some? <==> exists k :: 0 <= k < |DevicePanelOptions| && DevicePanelOptions[k].id == devicePanelView)
  {
    if devicePanelView == MainView then Some(DeviceHeading)
    else if AppOpen(showAppDetails) then showAppDetails
    else match FindOption(DevicePanelOptions, devicePanelView)
      case Some(option) => Some(option.title)
      case None => None
  }

  predicate OptionIdsDistinct(options: seq<DeviceOption>) {
    forall i, j :: 0 <= i < j < |options| ==> options[i].id != options[j].id
  }

  /** Among options with distinct ids, looking up an option's id finds that option. */
  lemma {:induction false} FindOptionDistinct(options: seq<DeviceOption>, k: nat)
    requires OptionIdsDistinct(options) && k < |options|
    ensures FindOption(options, options[k].id) == Some(options[k])
  {
    if k > 0 {
      assert options[1..][k - 1] == options[k];
      FindOptionDistinct(options[1..], k - 1);
    }
  }

  /** With no app open, each option's view is headed by that option's title. */
  lemma HeaderNamesOption(k: nat, showAppDetails: Option<string>)
    requires k < |DevicePanelOptions| && !AppOpen(showAppDetails)
    ensures HeaderTitle(DevicePanelOptions[k].id, showAppDetails) == Some(DevicePanelOptions[k].title)
  {
    var options := DevicePanelOptions;
    forall i, j | 0 <= i < j < |options| ensures options[i].id != options[j].id {
      assert options[i].id[0] != options[j].id[0] || |options[i].id| != |options[j].id|;
    }
    FindOptionDistinct(options, k);
  }

  predicate IsUserApp(a: App) {
    !a.system
  }

  /** "Recently opened apps": the first five non-system apps, in list order. */
  function RecentlyOpened(installed: seq<App>): (r: seq<App>)
    ensures |r| <= RecentLimit
    ensures forall i :: 0 <= i < |r| ==> !r[i].system
    ensures IsSubsequence(r, installed)
    ensures var userApps := Filter(installed, IsUserApp);
            && |r| == (if |userApps| < RecentLimit then |userApps| else RecentLimit)
            && r == userApps[..|r|]
  {
    var userApps := Filter(installed, IsUserApp);
    var n := if |userApps| < RecentLimit then |userApps| else RecentLimit;
    FilterIsSubsequence(installed, IsUserApp);
    SubsequencePrefix(userApps, installed, n);
    userApps[..n]
  }

  function AllAppsPredicate(showSystemApps: bool): App -> bool {
    (a: App) => showSystemApps || !a.system
  }

  /** The "All apps" list: system apps only when they are asked for. */
  function AllAppsList(apps: AppsState): (r: seq<App>)
    ensures forall a :: a in r <==> a in apps.installed && (apps.showSystemApps || !a.system)
    ensures IsSubsequence(r, apps.installed)
    ensures r == Filter(apps.installed, AllAppsPredicate(apps.showSystemApps))
  {
    FilterIsSubsequence(apps.installed, AllAppsPredicate(apps.showSystemApps));
    Filter(apps.installed, AllAppsPredicate(apps.showSystemApps))
  }

  /** The component's list ignores the store's `showAllApps` flag: it lists the store panel's apps
      exactly when that flag is off, and a subset of them otherwise. */
  lemma AllAppsListAgainstStorePanel(apps: AppsState)
    ensures forall a :: a in AllAppsList(apps) ==> a in AppsPanelList(apps)
    ensures !apps.showAllApps ==> AllAppsList(apps) == AppsPanelList(apps)
  {
    if !apps.showAllApps {
      FilterAgreeing(apps.installed, AllAppsPredicate(apps.showSystemApps),
                     AppsPanelPredicate(apps.showSystemApps, apps.showAllApps));
    }
  }

  /** What the device panel's body shows. */
  datatype DevicePanelBody =
    | OptionMenu(options: seq<DeviceOption>)
    | NetworkBody(network: NetworkState)
    | AccountsBody(account: AccountState)
    | AppDetailsBody(app: Option<App>)
    | RecentAppsBody(apps: seq<App>)
    | AllAppsBody(showSystemApps: bool, apps: seq<App>)
    | RemoteBody(devices: seq<RemoteDevice>)
    | ComingSoon

  /** The main-view option menu, or `renderDevicePanelContent`'s dispatch on the view id. */
  function DevicePanelContent(devicePanelView: string, showAppDetails: Option<string>, showAllApps: bool,
                              s: SettingsState): (r: DevicePanelBody)
    ensures devicePanelView == MainView <==> r.OptionMenu?
    ensures r.OptionMenu? ==> r.options == DevicePanelOptions
    ensures devicePanelView == "network" ==> r == NetworkBody(s.network)
    ensures devicePanelView == "accounts" ==> r == AccountsBody(s.account)
    ensures devicePanelView == "remote" ==> r == RemoteBody(s.remote.devices)
    ensures devicePanelView == "apps" && AppOpen(showAppDetails) ==>
              r.AppDetailsBody? &&
              (r.app.Some? <==> exists k :: 0 <= k < |s.apps.installed| && s.apps.installed[k].name == showAppDetails.value) &&
              (r.app.Some? ==> r.app.value in s.apps.installed && r.app.value.name == showAppDetails.value)
    ensures devicePanelView == "apps" && AppOpen(showAppDetails) && FindApp(s.apps.installed, showAppDetails.value).Some? ==>
              r == AppDetailsBody(Some(s.apps.installed[FindApp(s.apps.installed, showAppDetails.value).value]))
    ensures devicePanelView == "apps" && !AppOpen(showAppDetails) && !showAllApps ==>
              r == RecentAppsBody(RecentlyOpened(s.apps.installed))
    ensures devicePanelView == "apps" && !AppOpen(showAppDetails) && showAllApps ==>
              r == AllAppsBody(s.apps.showSystemApps, AllAppsList(s.apps))
    ensures devicePanelView !in {MainView, "network", "accounts", "apps", "remote"} ==> r == ComingSoon
  {
    if devicePanelView == MainView then OptionMenu(DevicePanelOptions)
    else if devicePanelView == "network" then NetworkBody(s.network)
    else if devicePanelView == "accounts" then AccountsBody(s.account)
    else if devicePanelView == "apps" then
      if AppOpen(showAppDetails) then
        match FindApp(s.apps.installed, showAppDetails.value)
        case Some(i) => AppDetailsBody(Some(s.apps.installed[i]))
        case None => AppDetailsBody(None)
      else if !showAllApps then RecentAppsBody(RecentlyOpened(s.apps.installed))
      else AllAppsBody(s.apps.showSystemApps, AllAppsList(s.apps))
    else if devicePanelView == "remote" then RemoteBody(s.remote.devices)
    else ComingSoon
  }

  /** The "Device Preferences" and "TV settings" options are placeholders. */
  lemma PlaceholderOptions(showAppDetails: Option<string>, showAllApps: bool, s: SettingsState)
    ensures DevicePanelContent(DevicePanelOptions[3].id, showAppDetails, showAllApps, s) == ComingSoon
    ensures DevicePanelContent(DevicePanelOptions[4].id, showAppDetails, showAllApps, s) == ComingSoon
  {
  }

  /** The component's state; `manager` is the store instance it creates once. */
  class PanelState {
    const manager: SettingsManager
    var currentView: string
    var description: string
    var showDevicePanel: bool
    var devicePanelView: string
    var showAppDetails: Option<string>
    var showAllApps: bool

    constructor (manager: SettingsManager)
      ensures this.manager == manager
      ensures currentView == MainView && description == "" && !showDevicePanel
      ensures devicePanelView == MainView && showAppDetails == None && !showAllApps
    {
      this.manager := manager;
      currentView := MainView;
      description := "";
      showDevicePanel := false;
      devicePanelView := MainView;
      showAppDetails := None;
      showAllApps := false;
    }

    /** The heading the device panel currently shows. */
    function Header(): (r: Option<string>)
      reads this
      ensures devicePanelView == MainView ==> r == Some(DeviceHeading)
      ensures devicePanelView != MainView && AppOpen(showAppDetails) ==> r == showAppDetails
      ensures r == HeaderTitle(devicePanelView, showAppDetails)
    {
      HeaderTitle(devicePanelView, showAppDetails)
    }

    /** A click on a settings-menu entry: `device` opens the device panel, anything else becomes the view. */
    method HandleMenuClick(id: string)
      modifies this`showDevicePanel, this`currentView
      ensures id == "device" ==> showDevicePanel && currentView == old(currentView)
      ensures id != "device" ==> currentView == id && showDevicePanel == old(showDevicePanel)
    {
      if id == "device" {
        showDevicePanel := true;
      } else {
        currentView := id;
      }
    }

    /** An app-details button; `userAnswer` is the reply to its confirmation dialog. */
    method HandleAppAction(appName: string, action: AppAction, userAnswer: bool)
      modifies manager
      ensures action == ClearData && userAnswer ==>
                manager.state == WithAppStorageCleared(old(manager.state), appName, Data)
      ensures action == ClearCache && userAnswer ==>
                manager.state == WithAppStorageCleared(old(manager.state), appName, Cache)
      ensures action != ForceStop && userAnswer ==>
                manager.persisted == if FindApp(old(manager.state).apps.installed, appName).Some?
                                     then Some(manager.state) else old(manager.persisted)
      ensures action == ForceStop || !userAnswer ==>
                manager.state == old(manager.state) && manager.persisted == old(manager.persisted)
    {
      var confirmed := false;
      match action
      case ForceStop =>
        confirmed := manager.ForceStopApp(appName, userAnswer);
      case ClearData =>
        confirmed := manager.ClearAppData(appName, userAnswer);
        if confirmed {
          manager.UpdateAppStorage(appName, Data);
        }
      case ClearCache =>
        confirmed := manager.ClearAppCache(appName, userAnswer);
        if confirmed {
          manager.UpdateAppStorage(appName, Cache);
        }
    }

    /** The main panel's back button, shown only away from the main view. */
    method MainBack()
      requires currentView != MainView
      modifies this`currentView
      ensures currentView == MainView
    {
      currentView := MainView;
    }

    /** A click on a device-panel option. */
    method SelectDeviceOption(id: string)
      modifies this`devicePanelView
      ensures devicePanelView == id
    {
      devicePanelView := id;
    }

    /** The device panel's back button, shown only away from its main view: leaves the app details
        if one is open, otherwise returns to the option menu. */
    method DeviceBack()
      requires devicePanelView != MainView
      modifies this`showAppDetails, this`devicePanelView
      ensures AppOpen(old(showAppDetails)) ==> showAppDetails == None && devicePanelView == old(devicePanelView)
      ensures !AppOpen(old(showAppDetails)) ==> devicePanelView == MainView && showAppDetails == old(showAppDetails)
    {
      if AppOpen(showAppDetails) {
        showAppDetails := None;
      } else {
        devicePanelView := MainView;
      }
    }

    /** The device panel's close button, shown only on its main view. */
    method DeviceClose()
      requires devicePanelView == MainView
      modifies this`showDevicePanel, this`devicePanelView, this`showAppDetails
      ensures !showDevicePanel && devicePanelView == MainView && showAppDetails == None
    {
      showDevicePanel := false;
      devicePanelView := MainView;
      showAppDetails := None;
    }

    /** A click on an app in either list. */
    method OpenAppDetails(name: string)
      modifies this`showAppDetails
      ensures showAppDetails == Some(name)
    {
      showAppDetails := Some(name);
    }

    /** "See all apps" (`show`) and the all-apps "Back" button (`!show`). */
    method SetShowAllApps(show: bool)
      modifies this`showAllApps
      ensures showAllApps == show
    {
      showAllApps := show;
    }

    /** Pointer entering a menu entry shows its description; leaving clears it. */
    method HoverMenuItem(itemDescription: string)
      modifies this`description
      ensures description == itemDescription
    {
      description := itemDescription;
    }

    method LeaveMenuItem()
      modifies this`description
      ensures description == ""
    {
      description := "";
    }
  }
}

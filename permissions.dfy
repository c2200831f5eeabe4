/**
 * Which Android runtime permissions a beacon scan needs, grouped as the
 * permissions screen shows them (one button per group), whether they are
 * granted, and the decision taken when a group's button is tapped. The
 * operating system's answers (the SDK level, which permissions are granted,
 * whether to show a rationale) and the app's shared preferences are the
 * state of an `AndroidContext`.
 */
module Permissions {

  // Build.VERSION_CODES
  const SDK_M: int := 23
  const SDK_Q: int := 29
  const SDK_S: int := 31
  const SDK_TIRAMISU: int := 33

  // Manifest.permission
  const ACCESS_FINE_LOCATION: string := "android.permission.ACCESS_FINE_LOCATION"
  const ACCESS_BACKGROUND_LOCATION: string := "android.permission.ACCESS_BACKGROUND_LOCATION"
  const BLUETOOTH_SCAN: string := "android.permission.BLUETOOTH_SCAN"
  const BLUETOOTH_CONNECT: string := "android.permission.BLUETOOTH_CONNECT"
  const POST_NOTIFICATIONS: string := "android.permission.POST_NOTIFICATIONS"

  const FINE_LOCATION_GROUP: seq<string> := [ACCESS_FINE_LOCATION]
  const BACKGROUND_LOCATION_GROUP: seq<string> := [ACCESS_BACKGROUND_LOCATION]
  const BLUETOOTH_GROUP: seq<string> := [BLUETOOTH_SCAN, BLUETOOTH_CONNECT]
  const NOTIFICATIONS_GROUP: seq<string> := [POST_NOTIFICATIONS]

  /** The position of a group in the order the groups are listed, or 4 for any other group. */
  function Rank(group: seq<string>): nat
  {
    if group == FINE_LOCATION_GROUP then 0
    else if group == BACKGROUND_LOCATION_GROUP then 1
    else if group == BLUETOOTH_GROUP then 2
    else if group == NOTIFICATIONS_GROUP then 3
    else 4
  }

  /** The default button titles, keyed by the first permission of each group. */
  function DefaultPermissionTitles(): (titles: map<string, string>)
    ensures titles.Keys == {ACCESS_FINE_LOCATION, ACCESS_BACKGROUND_LOCATION, BLUETOOTH_SCAN, POST_NOTIFICATIONS}
  {
    map[ACCESS_FINE_LOCATION := "Location", ACCESS_BACKGROUND_LOCATION := "Background Location",
        BLUETOOTH_SCAN := "Bluetooth", POST_NOTIFICATIONS := "Notifications"]
  }

  /**
   * `beaconScanPermissionGroupsNeeded`: fine location from M, background
   * location from Q when background access is requested, Bluetooth scan and
   * connect from S, notifications from TIRAMISU, in that order.
   */
  function BeaconScanPermissionGroupsNeeded(sdkInt: int, backgroundAccessRequested: bool): (groups: seq<seq<string>>)
    ensures sdkInt < SDK_M ==> groups == []
    ensures FINE_LOCATION_GROUP in groups <==> sdkInt >= SDK_M
    ensures BACKGROUND_LOCATION_GROUP in groups <==> sdkInt >= SDK_Q && backgroundAccessRequested
    ensures BLUETOOTH_GROUP in groups <==> sdkInt >= SDK_S
    ensures NOTIFICATIONS_GROUP in groups <==> sdkInt >= SDK_TIRAMISU
  {
    (if sdkInt >= SDK_M then [FINE_LOCATION_GROUP] else [])
      + (if sdkInt >= SDK_Q && backgroundAccessRequested then [BACKGROUND_LOCATION_GROUP] else [])
      + (if sdkInt >= SDK_S then [BLUETOOTH_GROUP] else [])
      + (if sdkInt >= SDK_TIRAMISU then [NOTIFICATIONS_GROUP] else [])
  }

  /**
   * The groups come in the fixed order (each ranks below the next), and every
   * group is non-empty with a default title for its first permission, so the
   * screen's `first()` and title lookup are always defined.
   */
  lemma GroupsOrderedAndTitled(sdkInt: int, backgroundAccessRequested: bool)
    ensures var groups := BeaconScanPermissionGroupsNeeded(sdkInt, backgroundAccessRequested);
      && (forall i, j :: 0 <= i < j < |groups| ==> Rank(groups[i]) < Rank(groups[j]) <= 3)
      && (forall g :: g in groups ==> |g| > 0 && g[0] in DefaultPermissionTitles())
  {
    var fine, background, bluetooth, notifications := FINE_LOCATION_GROUP, BACKGROUND_LOCATION_GROUP, BLUETOOTH_GROUP, NOTIFICATIONS_GROUP;
    assert Rank(fine) == 0 && Rank(background) == 1 && Rank(bluetooth) == 2 && Rank(notifications) == 3;
    var groups := BeaconScanPermissionGroupsNeeded(sdkInt, backgroundAccessRequested);
    var bg := sdkInt >= SDK_Q && backgroundAccessRequested;
    if sdkInt < SDK_M {
      assert groups == [];
    } else if sdkInt < SDK_S {
      assert groups == if bg then [fine, background] else [fine];
    } else if sdkInt < SDK_TIRAMISU {
      assert groups == if bg then [fine, background, bluetooth] else [fine, bluetooth];
    } else {
      assert groups == if bg then [fine, background, bluetooth, notifications] else [fine, bluetooth, notifications];
    }
  }

  /** The stored "first time asking" flag of a permission; a permission never stored reads as true. */
  function FirstTime(preferences: map<string, bool>, permission: string): bool
  {
    if permission in preferences then preferences[permission] else true
  }

  /** What tapping a group's button leads to. */
  datatype PromptOutcome = AlreadyGranted | RequestLaunched | CannotRequestDialog

  /**
   * `promptForPermissions(group)` as a function of the state it reads: the
   * outcome and the preferences afterwards. Nothing happens when the whole
   * group is granted; otherwise the request is launched when a rationale is
   * to be shown (always, below M) or when this is the first time the group's
   * first permission is asked for, and launching clears that one flag.
   */
  function Prompt(preferences: map<string, bool>, group: seq<string>, granted: set<string>,
                  rationale: set<string>, sdkInt: int): (r: (PromptOutcome, map<string, bool>))
    ensures r.0 == AlreadyGranted <==> forall p :: p in group ==> p in granted
    ensures r.0 == RequestLaunched <==>
      && (exists p :: p in group && p !in granted)
      && (sdkInt < SDK_M || group[0] in rationale || FirstTime(preferences, group[0]))
    ensures r.0 == RequestLaunched ==> r.1 == preferences[group[0] := false]
    ensures r.0 != RequestLaunched ==> r.1 == preferences
  {
    if forall p :: p in group ==> p in granted then (AlreadyGranted, preferences)
    else
      var firstPermission := group[0];
      var showRationale := if sdkInt >= SDK_M then firstPermission in rationale else true;
      if showRationale || FirstTime(preferences, firstPermission) then
        (RequestLaunched, preferences[firstPermission := false])
      else
        (CannotRequestDialog, preferences)
  }

  /**
   * From M on, once a group has been asked for and is still not granted, a
   * second tap without a rationale shows the "previously denied" dialog
   * instead of asking again.
   */
  lemma SecondPromptShowsDialog(preferences: map<string, bool>, group: seq<string>, granted: set<string>,
                                rationale: set<string>, sdkInt: int)
    requires sdkInt >= SDK_M
    requires exists p :: p in group && p !in granted
    requires group[0] !in rationale
    ensures var after := Prompt(preferences, group, granted, rationale, sdkInt).1;
      Prompt(after, group, granted, rationale, sdkInt).0 == CannotRequestDialog
  {
    var first := Prompt(preferences, group, granted, rationale, sdkInt);
    if first.0 == RequestLaunched {
      assert FirstTime(first.1, group[0]) == false;
    }
  }

  /** What the operating system and the app's storage tell the permission code. */
  class AndroidContext {
    /** `Build.VERSION.SDK_INT`. */
    const sdkInt: int
    /** The permissions for which `checkSelfPermission` answers PERMISSION_GRANTED. */
    var granted: set<string>
    /** The permissions for which `shouldShowRequestPermissionRationale` answers true. */
    var rationale: set<string>
    /** The shared preferences file "org.altbeacon.permisisons". */
    var preferences: map<string, bool>

    constructor (sdkInt: int, granted: set<string>, rationale: set<string>)
      ensures this.sdkInt == sdkInt && this.granted == granted && this.rationale == rationale
      ensures preferences == map[]
    {
      this.sdkInt := sdkInt;
      this.granted, this.rationale := granted, rationale;
      preferences := map[];
    }
  }

  class PermissionsHelper {
    const context: AndroidContext

    constructor (context: AndroidContext)
      ensures this.context == context
    {
      this.context := context;
    }

    /** `checkSelfPermission(...) == PERMISSION_GRANTED`: the system's answer, read from the context. */
    function IsPermissionGranted(permission: string): (granted: bool)
      reads context
      ensures granted <==> permission in context.granted
    {
      permission in context.granted
    }

    method SetFirstTimeAskingPermission(permission: string, isFirstTime: bool)
      modifies context
      ensures context.preferences == old(context.preferences)[permission := isFirstTime]
      ensures context.granted == old(context.granted) && context.rationale == old(context.rationale)
      ensures forall p :: (IsFirstTimeAskingPermission(p) == (if p == permission then isFirstTime else old(IsFirstTimeAskingPermission(p))))
    {
      context.preferences := context.preferences[permission := isFirstTime];
    }

    /** True for a permission never stored, else the value last stored for it. */
    function IsFirstTimeAskingPermission(permission: string): (isFirstTime: bool)
      reads context
      ensures permission !in context.preferences ==> isFirstTime
      ensures permission in context.preferences ==> isFirstTime == context.preferences[permission]
    {
      FirstTime(context.preferences, permission)
    }
  }

  /** The permissions screen: one button per group needed. */
  class BeaconScanPermissionsActivity {
    const context: AndroidContext
    var permissionGroups: seq<seq<string>>

    /** `onCreate`: the groups are computed once, from the intent's background flag. */
    constructor (context: AndroidContext, backgroundAccessRequested: bool)
      ensures this.context == context
      ensures permissionGroups == BeaconScanPermissionGroupsNeeded(context.sdkInt, backgroundAccessRequested)
    {
      this.context := context;
      permissionGroups := BeaconScanPermissionGroupsNeeded(context.sdkInt, backgroundAccessRequested);
    }

    method AllPermissionsGranted(permissionsGroup: seq<string>) returns (ok: bool)
      ensures ok <==> forall p :: p in permissionsGroup ==> p in context.granted
    {
      var permissionsHelper := new PermissionsHelper(context);
      for i := 0 to |permissionsGroup|
        invariant forall k :: 0 <= k < i ==> permissionsGroup[k] in context.granted
      {
        if !permissionsHelper.IsPermissionGranted(permissionsGroup[i]) {
          return false;
        }
      }
      return true;
    }

    method AllPermissionGroupsGranted() returns (ok: bool)
      ensures ok <==> AllGranted(permissionGroups, context.granted)
    {
      for i := 0 to |permissionGroups|
        invariant forall k, p :: 0 <= k < i && p in permissionGroups[k] ==> p in context.granted
      {
        var groupGranted := AllPermissionsGranted(permissionGroups[i]);
        if !groupGranted {
          return false;
        }
      }
      return true;
    }

    /** The button handler: ask for the group, or explain that it was denied before. */
    method PromptForPermissions(permissionsGroup: seq<string>) returns (outcome: PromptOutcome)
      modifies context
      ensures context.granted == old(context.granted) && context.rationale == old(context.rationale)
      ensures (outcome, context.preferences)
        == Prompt(old(context.preferences), permissionsGroup, context.granted, context.rationale, context.sdkInt)
    {
      var allGranted := AllPermissionsGranted(permissionsGroup);
      if allGranted {
        outcome := AlreadyGranted;
      } else {
        var firstPermission := permissionsGroup[0];
        var showRationale := true;
        if context.sdkInt >= SDK_M {
          showRationale := firstPermission in context.rationale;
        }
        var helper := new PermissionsHelper(context);
        if showRationale || helper.IsFirstTimeAskingPermission(firstPermission) {
          helper.SetFirstTimeAskingPermission(firstPermission, false);
          outcome := RequestLaunched;
        } else {
          outcome := CannotRequestDialog;
        }
      }
    }
  }

  /** Every permission of every group is in `granted`. */
  predicate AllGranted(groups: seq<seq<string>>, granted: set<string>)
  {
    forall g, p :: g in groups && p in g ==> p in granted
  }

  /** The companion `allPermissionsGranted(context, backgroundAccessRequested)`. */
  method AllPermissionsGrantedFor(context: AndroidContext, backgroundAccessRequested: bool) returns (ok: bool)
    ensures ok <==> AllGranted(BeaconScanPermissionGroupsNeeded(context.sdkInt, backgroundAccessRequested), context.granted)
  {
    var permissionsHelper := new PermissionsHelper(context);
    var permissionsGroups := BeaconScanPermissionGroupsNeeded(context.sdkInt, backgroundAccessRequested);
    for i := 0 to |permissionsGroups|
      invariant AllGranted(permissionsGroups[..i], context.granted)
    {
      var group := permissionsGroups[i];
      for j := 0 to |group|
        invariant forall m :: 0 <= m < j ==> group[m] in context.granted
      {
        if !permissionsHelper.IsPermissionGranted(group[j]) {
          assert group in permissionsGroups && group[j] in group;
          return false;
        }
      }
      assert permissionsGroups[..i + 1] == permissionsGroups[..i] + [group];
    }
    assert permissionsGroups[..|permissionsGroups|] == permissionsGroups;
    return true;
  }
}

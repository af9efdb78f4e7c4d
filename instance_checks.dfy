/**
 * The predicates of src/resources/instance.jsx that decide which actions a
 * server allows, and the two small readers of a server's flavor and of a
 * subnet. A server is the record the compute API returns; only the fields
 * these helpers read are kept, and a field that may be absent is an Option.
 */
module InstanceChecks {
  import opened Js

  /** An attached volume: the root flag and the device path it is attached at. */
  datatype Volume = Volume(isRootVolume: bool, device: Option<string>)

  /** A flavor, of which only the extra specs are read. */
  datatype Flavor = Flavor(extraSpecs: Option<map<string, string>>)

  /** A server record. */
  datatype Instance = Instance(
    status: string,
    vmState: Option<string>,
    taskState: Option<string>,
    locked: bool,
    isoServer: Option<bool>,
    rootDeviceName: Option<string>,
    volumesAttached: Option<seq<Volume>>,
    flavorInfo: Option<Flavor>)

  datatype Pool = Pool(start: Option<string>)

  datatype Subnet = Subnet(allocationPools: Option<seq<Pool>>)

  // ---------------------------------------------------------------------
  // Status checks

  /** The list contains the lower-case form of `s`. */
  predicate ListsLower(statusList: seq<string>, s: string) {
    ToLowerCase(s) in statusList
  }

  /**
   * `checkStatus(statusList, instance)`: the list (empty when undefined)
   * holds the lower-cased status, or the vm state is set and the list holds
   * its lower-cased form.
   */
  function CheckStatus(statusList: Option<seq<string>>, instance: Instance): (r: bool)
    ensures r <==> (exists s :: s in statusList.GetOr([]) &&
                      (s == ToLowerCase(instance.status) ||
                       (Truthy(instance.vmState) && s == ToLowerCase(instance.vmState.value))))
  {
    var list := statusList.GetOr([]);
    ListsLower(list, instance.status) || (Truthy(instance.vmState) && ListsLower(list, instance.vmState.value))
  }

  /** An undefined list matches nothing. */
  lemma CheckStatusUndefinedList(instance: Instance)
    ensures !CheckStatus(None, instance)
  {
  }

  /** Checking against two lists joined is checking against either. */
  lemma CheckStatusAppend(a: seq<string>, b: seq<string>, instance: Instance)
    ensures CheckStatus(Some(a + b), instance) <==> CheckStatus(Some(a), instance) || CheckStatus(Some(b), instance)
  {
  }

  /** The check ignores the case of the status and of the vm state. */
  lemma CheckStatusIgnoresCase(statusList: Option<seq<string>>, instance: Instance)
    ensures var lowered := instance.(status := ToLowerCase(instance.status),
                                     vmState := if instance.vmState.Some? then Some(ToLowerCase(instance.vmState.value)) else None);
      CheckStatus(statusList, lowered) == CheckStatus(statusList, instance)
  {
    ToLowerCaseIdempotent(instance.status);
    if instance.vmState.Some? {
      ToLowerCaseIdempotent(instance.vmState.value);
      assert (ToLowerCase(instance.vmState.value) == "") == (instance.vmState.value == "");
    }
  }

  /** A list entry with a capital letter never matches: both sides are lower-cased first. */
  lemma CheckStatusSkipsCapitalised(statusList: seq<string>, instance: Instance)
    requires forall s :: s in statusList ==> exists i :: 0 <= i < |s| && IsUpper(s[i])
    ensures !CheckStatus(Some(statusList), instance)
  {
    var st := ToLowerCase(instance.status);
    assert forall i :: 0 <= i < |st| ==> !IsUpper(st[i]);
    assert st !in statusList;
    if Truthy(instance.vmState) {
      var vm := ToLowerCase(instance.vmState.value);
      assert forall i :: 0 <= i < |vm| ==> !IsUpper(vm[i]);
      assert vm !in statusList;
    }
  }

  /** `isActiveOrShutOff`. */
  function IsActiveOrShutOff(instance: Instance): (r: bool)
    ensures r <==> IsActive(instance) || IsShutOff(instance)
  {
    CheckStatusAppend(["active"], ["shutoff"], instance);
    assert ["active"] + ["shutoff"] == ["active", "shutoff"];
    CheckStatus(Some(["active", "shutoff"]), instance)
  }

  /** `isShutOff`: the status or the vm state is `shutoff` in any case. */
  function IsShutOff(instance: Instance): (r: bool)
    ensures r <==> ToLowerCase(instance.status) == "shutoff" ||
                   (Truthy(instance.vmState) && ToLowerCase(instance.vmState.value) == "shutoff")
  {
    CheckStatus(Some(["shutoff"]), instance)
  }

  /** `isActive`: the status or the vm state is `active` in any case. */
  function IsActive(instance: Instance): (r: bool)
    ensures r <==> ToLowerCase(instance.status) == "active" ||
                   (Truthy(instance.vmState) && ToLowerCase(instance.vmState.value) == "active")
  {
    CheckStatus(Some(["active"]), instance)
  }

  /** `isNotError`: neither the status nor the vm state is `error` in any case. */
  function IsNotError(instance: Instance): (r: bool)
    ensures r <==> ToLowerCase(instance.status) != "error" &&
                   !(Truthy(instance.vmState) && ToLowerCase(instance.vmState.value) == "error")
  {
    !CheckStatus(Some(["error"]), instance)
  }

  /** `isBuilding`: the status is exactly `build`, compared with its case. */
  function IsBuilding(instance: Instance): (r: bool)
    ensures r <==> instance.status == "build"
    ensures r ==> CheckStatus(Some(["build"]), instance)
  {
    ToLowerCaseOfLower("build");
    instance.status == "build"
  }

  /** Unlike the status checks, `isBuilding` does not ignore case. */
  lemma IsBuildingIsCaseSensitive(instance: Instance)
    requires instance.status == "BUILD"
    ensures !IsBuilding(instance) && CheckStatus(Some(["build"]), instance)
  {
    assert ToLowerCase("BUILD") == "build";
  }

  // ---------------------------------------------------------------------
  // Lock and task checks

  /** `isLocked`. */
  function IsLocked(instance: Instance): (r: bool)
    ensures r != IsNotLocked(instance)
  {
    instance.locked
  }

  /** `isNotLocked`. */
  function IsNotLocked(instance: Instance): (r: bool)
    ensures r <==> !instance.locked
  {
    !instance.locked
  }

  /**
   * `isNotLockedOrAdmin(instance, isAdmin = false)`: an unlocked server
   * passes; a locked one passes only for an administrator.
   */
  function IsNotLockedOrAdmin(instance: Instance, isAdmin: Option<bool>): (r: bool)
    ensures IsNotLocked(instance) ==> r
    ensures IsLocked(instance) ==> (r <==> isAdmin == Some(true))
  {
    if IsLocked(instance) then isAdmin.GetOr(false) else true
  }

  /** `isNotDeleting`: false exactly when the task state is `deleting` in any case. */
  function IsNotDeleting(instance: Instance): (r: bool)
    ensures !r <==> Truthy(instance.taskState) && ToLowerCase(instance.taskState.value) == "deleting"
  {
    if Truthy(instance.taskState) then ToLowerCase(instance.taskState.value) != "deleting" else true
  }

  /** `isIsoInstance`: the `iso_server` flag, false when undefined. */
  function IsIsoInstance(instance: Instance): (r: bool)
    ensures r <==> instance.isoServer == Some(true)
  {
    instance.isoServer.GetOr(false)
  }

  // ---------------------------------------------------------------------
  // Root volume

  const DefaultRootDeviceName: string := "/dev/vda"

  /** A volume that serves as the root disk of a server whose root device is `rootName`. */
  predicate IsRootOf(v: Volume, rootName: string) {
    v.isRootVolume || v.device == Some(rootName)
  }

  /** `volumes.find(...)`: the first root volume, if any. */
  function FindRootVolume(volumes: seq<Volume>, rootName: string): (r: Option<nat>)
    ensures r.Some? ==> r.value < |volumes| && IsRootOf(volumes[r.value], rootName) &&
                        forall j :: 0 <= j < r.value ==> !IsRootOf(volumes[j], rootName)
    ensures r.None? <==> forall j :: 0 <= j < |volumes| ==> !IsRootOf(volumes[j], rootName)
  {
    if volumes == [] then None
    else if IsRootOf(volumes[0], rootName) then Some(0)
    else
      var rest := FindRootVolume(volumes[1..], rootName);
      if rest.Some? then Some(rest.value + 1) else None
  }

  /**
   * `hasRootVolume`: some attached volume is flagged as root or sits at the
   * root device name, which defaults to /dev/vda; no volumes means none.
   */
  function HasRootVolume(instance: Instance): (r: bool)
    ensures var vs := instance.volumesAttached.GetOr([]);
      r <==> exists v :: v in vs && IsRootOf(v, instance.rootDeviceName.GetOr(DefaultRootDeviceName))
  {
    var vs := instance.volumesAttached.GetOr([]);
    var name := instance.rootDeviceName.GetOr(DefaultRootDeviceName);
    var found := FindRootVolume(vs, name);
    if found.None? then
      assert forall v :: v in vs ==> !IsRootOf(v, name) by {
        forall v | v in vs ensures !IsRootOf(v, name) {
          var j :| 0 <= j < |vs| && vs[j] == v;
        }
      }
      false
    else
      assert vs[found.value] in vs;
      true
  }

  /** Without attached volumes there is no root volume. */
  lemma NoVolumesNoRoot(instance: Instance)
    requires instance.volumesAttached.None? || instance.volumesAttached == Some([])
    ensures !HasRootVolume(instance)
  {
  }

  /** A volume at /dev/vda is the root volume of a server that names no root device. */
  lemma DefaultRootDevice(instance: Instance, v: Volume)
    requires instance.rootDeviceName.None? && instance.volumesAttached.Some? && v in instance.volumesAttached.value
    requires v.device == Some("/dev/vda")
    ensures HasRootVolume(instance)
  {
  }

  // ---------------------------------------------------------------------
  // Flavor extra specs and subnets

  /** The extra specs that mark a bare-metal flavor, with the value each must have. */
  const IronicMarkers: map<string, string> := map[":architecture" := "bare_metal", "trait:CUSTOM_GOLD" := "required"]

  /** The extra specs of the server's flavor, empty when the flavor or its specs are undefined. */
  function ExtraSpecs(instance: Instance): map<string, string> {
    instance.flavorInfo.GetOr(Flavor(None)).extraSpecs.GetOr(map[])
  }

  /**
   * `isIronicInstance`: the flavor's architecture is bare_metal or it
   * requires the CUSTOM_GOLD trait.
   */
  function IsIronicInstance(instance: Instance): (r: bool)
    ensures r <==> exists k :: k in IronicMarkers && k in ExtraSpecs(instance) && ExtraSpecs(instance)[k] == IronicMarkers[k]
  {
    var extra := ExtraSpecs(instance);
    assert ":architecture" in IronicMarkers && "trait:CUSTOM_GOLD" in IronicMarkers;
    (":architecture" in extra && extra[":architecture"] == "bare_metal") ||
    ("trait:CUSTOM_GOLD" in extra && extra["trait:CUSTOM_GOLD"] == "required")
  }

  /** A server whose flavor is unknown is not bare metal. */
  lemma NoFlavorNotIronic(instance: Instance)
    requires instance.flavorInfo.None?
    ensures !IsIronicInstance(instance)
  {
  }

  const LiveResizeKey: string := "hw:live_resize"

  /**
   * `hasOnlineResizeFlavor` as written: the default object stands in for a
   * missing server or flavor, but the extra specs are then destructured from
   * undefined, which throws. Present specs give the truthiness of the
   * `hw:live_resize` value, a string.
   */
  function HasOnlineResizeFlavorAsWritten(item: Option<Instance>): (r: Result<bool>)
    ensures r.TypeError? <==> item.None? || item.value.flavorInfo.None? || item.value.flavorInfo.value.extraSpecs.None?
    ensures r.Ok? ==> r.value == HasOnlineResizeFlavor(item)
  {
    var flavor := if item.Some? then item.value.flavorInfo else None;
    match flavor
    case None => TypeError
    case Some(f) =>
      match f.extraSpecs
      case None => TypeError
      case Some(specs) => Ok(LiveResizeKey in specs && specs[LiveResizeKey] != "")
  }

  /** A server record without flavor information makes the written helper throw. */
  lemma HasOnlineResizeFlavorThrowsWithoutFlavor(instance: Instance)
    requires instance.flavorInfo.None?
    ensures HasOnlineResizeFlavorAsWritten(Some(instance)) == TypeError
    ensures HasOnlineResizeFlavorAsWritten(None) == TypeError
    ensures !HasOnlineResizeFlavor(Some(instance))
  {
  }

  /**
   * `hasOnlineResizeFlavor` as its guards intend: a missing server, flavor or
   * extra specs means no live resize; otherwise the `hw:live_resize` spec is
   * set to a non-empty string.
   */
  function HasOnlineResizeFlavor(item: Option<Instance>): (r: bool)
    ensures r <==> item.Some? && LiveResizeKey in ExtraSpecs(item.value) && ExtraSpecs(item.value)[LiveResizeKey] != ""
  {
    var specs := if item.Some? then ExtraSpecs(item.value) else map[];
    LiveResizeKey in specs && specs[LiveResizeKey] != ""
  }

  /** The spec value is a string, so the text "false" still enables live resize. */
  lemma LiveResizeFalseTextEnables(instance: Instance)
    requires ExtraSpecs(instance) == map[LiveResizeKey := "false"]
    ensures HasOnlineResizeFlavor(Some(instance))
  {
  }

  /**
   * `getIpInitValue`: null without a subnet, otherwise the start address of
   * the subnet's first allocation pool; reading the first pool of a missing
   * or empty list throws.
   */
  function GetIpInitValue(subnet: Option<Subnet>): (r: Result<Option<string>>)
    ensures subnet.None? ==> r == Ok(None)
    ensures subnet.Some? ==> (r.TypeError? <==> subnet.value.allocationPools.None? || subnet.value.allocationPools.value == [])
    ensures subnet.Some? && subnet.value.allocationPools.Some? && subnet.value.allocationPools.value != [] ==>
              r == Ok(subnet.value.allocationPools.value[0].start)
  {
    match subnet
    case None => Ok(None)
    case Some(s) =>
      match s.allocationPools
      case None => TypeError
      case Some(pools) =>
        if pools == [] then TypeError
        else Ok(pools[0].start)
  }
}

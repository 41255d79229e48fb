/** The devices page (client/src/pages/devices.tsx): the search-and-type
    filter over the inventory, the "Add Device" form, deletion behind a
    confirmation, and the status toggle. */
module Devices {
  import opened Collections
  import opened Text
  import opened Records
  import opened Tags
  import opened Store

  /** The tag field of the "Add Device" form: `data.tags ? data.tags.split(',')
      .map(t => t.trim()) : []`. An empty field gives no tags; otherwise every
      comma-separated piece is kept trimmed, the empty ones included. */
  function ParseDeviceTags(field: string): (r: seq<string>)
    ensures field == "" ==> r == []
    ensures field != "" ==> r == SplitTrimmed(field)
    ensures field != "" ==> |r| == multiset(field)[','] + 1
    ensures forall t :: t in r ==> IsTrimmed(t) && ',' !in t
  {
    if field == "" then [] else SplitTrimmed(field)
  }

  /** A device's clean tags typed back into the form as `a, b, c` come back unchanged. */
  lemma DeviceTagsRoundTrip(tags: seq<string>)
    requires forall t :: t in tags ==> IsCleanTag(t)
    ensures ParseDeviceTags(Join(tags, ", ")) == tags
  {
    if tags != [] {
      SplitTrimmedJoin(tags);
      assert tags[0] in tags;
      assert |Join(tags, ", ")| >= |tags[0]| > 0 by {
        JoinStartsWithFirst(tags);
      }
    }
  }

  /** `tags.join(", ")` starts with the first tag. */
  lemma JoinStartsWithFirst(tags: seq<string>)
    requires |tags| >= 1
    ensures |Join(tags, ", ")| >= |tags[0]|
  {
  }

  /** Unlike the notes and scripts editors, the device form keeps empty pieces:
      a lone comma gives two empty tags on a device and none on a note. */
  lemma DeviceTagsKeepEmptyPieces()
    ensures ParseDeviceTags(",") == ["", ""]
    ensures ParseTagList(",") == []
  {
    SplitAtSeparator("", ',');
    assert [','] + "" == ",";
    var st := SplitTrimmed(",");
    assert |st| == 2 && st[0] == Trim("") && st[1] == Trim("");
    assert st == ["", ""];
    KeepNone(st, NonEmpty);
  }

  /** The search half of the page filter: the name contains the term ignoring
      case, or the IP address contains it as typed, or some tag contains it
      ignoring case. */
  predicate MatchesSearch(d: Device, term: string)
  {
    IncludesFolded(d.name, term) || Includes(d.ip, term) || AnyTagIncludes(d.tags, term)
  }

  /** The type half: `"all"` or the type's own literal. */
  predicate MatchesType(d: Device, typeFilter: string)
  {
    typeFilter == "all" || DeviceTypeName(d.deviceType) == typeFilter
  }

  function DeviceShown(term: string, typeFilter: string): Device -> bool
  {
    d => MatchesSearch(d, term) && MatchesType(d, typeFilter)
  }

  /** `devices.filter(...)`: exactly the devices matching both halves, in inventory order. */
  function FilterDevices(ds: seq<Device>, term: string, typeFilter: string): (r: seq<Device>)
    ensures forall d :: d in r <==> d in ds && MatchesSearch(d, term) && MatchesType(d, typeFilter)
    ensures forall d :: multiset(r)[d] ==
              if MatchesSearch(d, term) && MatchesType(d, typeFilter) then multiset(ds)[d] else 0
    ensures IsSubsequence(r, ds)
  {
    KeepCounts(ds, DeviceShown(term, typeFilter));
    KeepOrder(ds, DeviceShown(term, typeFilter));
    Keep(ds, DeviceShown(term, typeFilter))
  }

  /** The page opens with an empty search and the `"all"` filter: every device is shown. */
  lemma InitialFilterShowsAll(ds: seq<Device>)
    ensures FilterDevices(ds, "", "all") == ds
  {
    forall d | d in ds ensures DeviceShown("", "all")(d) {
      IncludesFoldedEmpty(d.name);
    }
    KeepAll(ds, DeviceShown("", "all"));
  }

  /** A type filter shows only devices of that type, and a filter that names no
      type (other than `"all"`) shows nothing. */
  lemma FilterByType(ds: seq<Device>, term: string, typeFilter: string)
    requires typeFilter != "all"
    ensures forall d :: d in FilterDevices(ds, term, typeFilter) ==> DeviceTypeName(d.deviceType) == typeFilter
    ensures ParseDeviceType(typeFilter).None? ==> FilterDevices(ds, term, typeFilter) == []
  {
    if ParseDeviceType(typeFilter).None? {
      forall d | d in ds ensures !DeviceShown(term, typeFilter)(d) {
        DeviceTypeRoundTrip(d.deviceType);
      }
      KeepNone(ds, DeviceShown(term, typeFilter));
    }
  }

  /** `toggleStatus`: an online device goes offline; any other goes online. */
  function ToggledStatus(s: Status): (r: Status)
    ensures r != Maintenance
    ensures r == Offline <==> s == Online
  {
    if s == Online then Offline else Online
  }

  /** Toggling twice restores the status, except that a device in maintenance
      ends up offline. */
  lemma ToggleTwice(s: Status)
    ensures ToggledStatus(ToggledStatus(s)) == s <==> s != Maintenance
    ensures s == Maintenance ==> ToggledStatus(ToggledStatus(s)) == Offline
  {
  }

  /** The fields of the "Add Device" form, as react-hook-form hands them over. */
  datatype DeviceForm = DeviceForm(
    name: string,
    deviceType: DeviceType,
    ip: string,
    mac: string,
    os: string,
    location: string,
    tags: string)

  /** The record `onSubmit` passes to `addDevice`: the form's fields, the parsed
      tags, status offline, no last-seen time. `addDevice` gives it its id. */
  function DeviceFromForm(f: DeviceForm): (d: Device)
    ensures d.name == f.name && d.deviceType == f.deviceType && d.ip == f.ip && d.mac == f.mac
    ensures d.os == f.os && d.location == f.location
    ensures d.tags == ParseDeviceTags(f.tags)
    ensures d.status == Offline && d.lastSeen == None
  {
    Device("", f.name, f.deviceType, f.os, f.ip, f.mac, f.location, ParseDeviceTags(f.tags), Offline, None)
  }

  /** The view state of the page. */
  class DevicesPage {
    var searchTerm: string
    var typeFilter: string
    var isAddOpen: bool

    constructor ()
      ensures searchTerm == "" && typeFilter == "all" && !isAddOpen
    {
      searchTerm := "";
      typeFilter := "all";
      isAddOpen := false;
    }

    /** The devices listed for the current search and filter. */
    function Shown(store: AppStore): seq<Device>
      reads this, store
    {
      FilterDevices(store.devices, searchTerm, typeFilter)
    }

    method OpenAdd()
      modifies this
      ensures isAddOpen && searchTerm == old(searchTerm) && typeFilter == old(typeFilter)
    {
      isAddOpen := true;
    }

    /** `onSubmit`: register the device, then close the dialog. */
    method Submit(store: AppStore, f: DeviceForm, newId: string)
      modifies this, store
      ensures store.devices == old(store.devices) + [DeviceFromForm(f).(id := newId)]
      ensures store.user == old(store.user) && store.notes == old(store.notes)
      ensures store.checklists == old(store.checklists) && store.scripts == old(store.scripts)
      ensures !isAddOpen && searchTerm == old(searchTerm) && typeFilter == old(typeFilter)
    {
      store.AddDevice(DeviceFromForm(f), newId);
      isAddOpen := false;
    }

    /** `handleDelete`: the device is deleted only when the user confirms. */
    method HandleDelete(store: AppStore, id: string, confirmed: bool)
      modifies store
      ensures store.devices == if confirmed then RemoveKey(old(store.devices), DeviceId, id) else old(store.devices)
      ensures store.user == old(store.user) && store.notes == old(store.notes)
      ensures store.checklists == old(store.checklists) && store.scripts == old(store.scripts)
    {
      if confirmed {
        store.DeleteDevice(id);
      }
    }

    /** `toggleStatus`: a status-only update of the device with that id. */
    method ToggleStatus(store: AppStore, id: string, current: Status)
      modifies store
      ensures store.devices == UpdatedDevices(old(store.devices), id, EmptyDevicePatch.(status := Some(ToggledStatus(current))))
      ensures forall i :: 0 <= i < |store.devices| && old(store.devices)[i].id == id ==>
                store.devices[i] == old(store.devices)[i].(status := ToggledStatus(current))
      ensures store.user == old(store.user) && store.notes == old(store.notes)
      ensures store.checklists == old(store.checklists) && store.scripts == old(store.scripts)
    {
      var patch := EmptyDevicePatch.(status := Some(ToggledStatus(current)));
      store.UpdateDevice(id, patch);
      forall i | 0 <= i < |store.devices| && old(store.devices)[i].id == id
        ensures store.devices[i] == old(store.devices)[i].(status := ToggledStatus(current))
      {
        MergeDeviceStatusOnly(old(store.devices)[i], ToggledStatus(current));
      }
    }
  }
}

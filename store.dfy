/** The application store `useStore` (client/src/lib/store.ts, lines 100-167):
    one object whose fields `user`, `devices`, `notes` and `checklists` each
    action overwrites with a newly built value. Fresh ids and the clock are
    parameters. The `scripts` collection and its three actions are not in
    store.ts; they are modelled on the pattern of the notes actions, since the
    scripts page calls them. */
module Store {
  import opened Collections
  import opened Records
  import opened Json
  import opened Codec

  const MockToken := "mock-token"

  /** The seed devices: the first two were last seen at start-up, each at its
      own clock read, and the third a day before start-up. */
  function InitialDevices(seen1: string, seen2: string, dayAgo: string): seq<Device>
  {
    [ Device("1", "pve-01", Server, "Proxmox VE 8.1", "192.168.1.10", "00:11:32:XX:XX:XX", "Rack U2",
             ["virtualization", "prod"], Online, Some(seen1)),
      Device("2", "opnsense-gw", Router, "OPNsense 24.1", "192.168.1.1", "00:00:5E:XX:XX:XX", "Rack U1",
             ["gateway", "firewall"], Online, Some(seen2)),
      Device("3", "kali-vm", Desktop, "Kali Linux", "192.168.1.105", "AA:BB:CC:DD:EE:FF", "Virtual",
             ["pentest", "lab"], Offline, Some(dayAgo)) ]
  }

  const SeedNoteTitle := "Network Segmentation Plan"
  const SeedNoteContent :=
    "# VLANs\n- 10: Mgmt\n- 20: Servers\n- 30: IoT\n- 40: Guest\n\nNeed to configure firewall rules for inter-vlan routing."

  /** The seed note; its two times are two separate clock reads. */
  function InitialNotes(created: string, updated: string): seq<Note>
  {
    [ Note("1", SeedNoteTitle, SeedNoteContent, None, created, updated, ["network", "planning"]) ]
  }

  const SeedChecklistTitle := "New Server Provisioning"
  const SeedChecklistDescription := "Steps to take when setting up a new Linux box"
  const SeedTask1 := "Update packages (apt update && apt upgrade)"
  const SeedTask2 := "Create non-root user with sudo"
  const SeedTask3 := "Configure SSH (keys only, no root login)"
  const SeedTask4 := "Install Fail2Ban"
  const SeedTask5 := "Configure UFW"

  function InitialChecklists(): seq<Checklist>
  {
    [ Checklist("1", SeedChecklistTitle, SeedChecklistDescription,
        [ Task("t1", SeedTask1, false),
          Task("t2", SeedTask2, false),
          Task("t3", SeedTask3, false),
          Task("t4", SeedTask4, false),
          Task("t5", SeedTask5, false) ],
        "Setup") ]
  }

  /** The device list after `updateDevice(id, patch)`. */
  function UpdatedDevices(ds: seq<Device>, id: string, patch: DevicePatch): (r: seq<Device>)
    ensures |r| == |ds|
    ensures forall i :: 0 <= i < |ds| && ds[i].id == id ==> r[i] == MergeDevice(ds[i], patch)
    ensures forall i :: 0 <= i < |ds| && ds[i].id != id ==> r[i] == ds[i]
    ensures !HasKey(ds, DeviceId, id) ==> r == ds
  {
    UpdateWhere(ds, DeviceId, id, (d: Device) => MergeDevice(d, patch))
  }

  /** The note list after `updateNote(id, patch)` at time `now`. */
  function UpdatedNotes(ns: seq<Note>, id: string, patch: NotePatch, now: string): (r: seq<Note>)
    ensures |r| == |ns|
    ensures forall i :: 0 <= i < |ns| && ns[i].id == id ==> r[i] == MergeNoteAt(ns[i], patch, now) && r[i].updatedAt == now
    ensures forall i :: 0 <= i < |ns| && ns[i].id != id ==> r[i] == ns[i]
    ensures !HasKey(ns, NoteId, id) ==> r == ns
  {
    UpdateWhere(ns, NoteId, id, (n: Note) => MergeNoteAt(n, patch, now))
  }

  /** The checklist list after `updateChecklist(id, patch)`. */
  function UpdatedChecklists(cs: seq<Checklist>, id: string, patch: ChecklistPatch): (r: seq<Checklist>)
    ensures |r| == |cs|
    ensures forall i :: 0 <= i < |cs| && cs[i].id == id ==> r[i] == MergeChecklist(cs[i], patch)
    ensures forall i :: 0 <= i < |cs| && cs[i].id != id ==> r[i] == cs[i]
    ensures !HasKey(cs, ChecklistId, id) ==> r == cs
  {
    UpdateWhere(cs, ChecklistId, id, (c: Checklist) => MergeChecklist(c, patch))
  }

  /** The script list after `updateScript(id, patch)` at time `now`. */
  function UpdatedScripts(ss: seq<Script>, id: string, patch: ScriptPatch, now: string): (r: seq<Script>)
    ensures |r| == |ss|
    ensures forall i :: 0 <= i < |ss| && ss[i].id == id ==> r[i] == MergeScriptAt(ss[i], patch, now) && r[i].updatedAt == now
    ensures forall i :: 0 <= i < |ss| && ss[i].id != id ==> r[i] == ss[i]
    ensures !HasKey(ss, ScriptId, id) ==> r == ss
  {
    UpdateWhere(ss, ScriptId, id, (s: Script) => MergeScriptAt(s, patch, now))
  }

  /** The record `addNote` appends: the generated id and two clock reads, one
      for `createdAt` and a later one for `updatedAt`, override whatever the
      argument carries in those fields. */
  function StampedNote(n: Note, newId: string, createdNow: string, updatedNow: string): (r: Note)
    ensures r.id == newId && r.createdAt == createdNow && r.updatedAt == updatedNow
    ensures r.title == n.title && r.content == n.content && r.deviceId == n.deviceId && r.tags == n.tags
  {
    n.(id := newId, createdAt := createdNow, updatedAt := updatedNow)
  }

  /** The record `addScript` appends, stamped like a note. */
  function StampedScript(s: Script, newId: string, createdNow: string, updatedNow: string): (r: Script)
    ensures r.id == newId && r.createdAt == createdNow && r.updatedAt == updatedNow
    ensures r.name == s.name && r.language == s.language && r.description == s.description &&
            r.content == s.content && r.tags == s.tags
    ensures r.linkedDeviceIds == s.linkedDeviceIds && r.linkedChecklistIds == s.linkedChecklistIds
  {
    s.(id := newId, createdAt := createdNow, updatedAt := updatedNow)
  }

  /** Adding a device under an id the list does not hold and deleting that id
      gives the list back. */
  lemma AddThenDeleteDevice(ds: seq<Device>, d: Device, newId: string)
    requires !HasKey(ds, DeviceId, newId)
    ensures RemoveKey(ds + [d.(id := newId)], DeviceId, newId) == ds
  {
    AppendThenRemove(ds, d.(id := newId), DeviceId);
  }

  lemma AddThenDeleteNote(ns: seq<Note>, n: Note, newId: string, createdNow: string, updatedNow: string)
    requires !HasKey(ns, NoteId, newId)
    ensures RemoveKey(ns + [StampedNote(n, newId, createdNow, updatedNow)], NoteId, newId) == ns
  {
    AppendThenRemove(ns, StampedNote(n, newId, createdNow, updatedNow), NoteId);
  }

  lemma AddThenDeleteChecklist(cs: seq<Checklist>, c: Checklist, newId: string)
    requires !HasKey(cs, ChecklistId, newId)
    ensures RemoveKey(cs + [c.(id := newId)], ChecklistId, newId) == cs
  {
    AppendThenRemove(cs, c.(id := newId), ChecklistId);
  }

  class AppStore {
    var user: Option<User>
    var devices: seq<Device>
    var notes: seq<Note>
    var checklists: seq<Checklist>
    var scripts: seq<Script>

    /** The part of the state that `exportData` writes and `importData` replaces. */
    function Persisted(): Snapshot
      reads this
    {
      Snapshot(devices, notes, checklists)
    }

    /** The initial state: logged out, with the seed records. The five strings
        are the start-up clock reads, in source order. */
    constructor (seen1: string, seen2: string, dayAgo: string, noteCreated: string, noteUpdated: string)
      ensures user == None
      ensures devices == InitialDevices(seen1, seen2, dayAgo) && notes == InitialNotes(noteCreated, noteUpdated)
      ensures checklists == InitialChecklists() && scripts == []
    {
      user := None;
      devices := InitialDevices(seen1, seen2, dayAgo);
      notes := InitialNotes(noteCreated, noteUpdated);
      checklists := InitialChecklists();
      scripts := [];
    }

    /** `login(username)`: any name is accepted, with the fixed mock token. */
    method Login(username: string)
      modifies this
      ensures user == Some(User(username, MockToken))
      ensures Persisted() == old(Persisted()) && scripts == old(scripts)
    {
      user := Some(User(username, MockToken));
    }

    /** `logout()`: idempotent, since it always leaves `user` empty. */
    method Logout()
      modifies this
      ensures user == None
      ensures Persisted() == old(Persisted()) && scripts == old(scripts)
    {
      user := None;
    }

    method AddDevice(device: Device, newId: string)
      modifies this
      ensures devices == old(devices) + [device.(id := newId)]
      ensures user == old(user) && notes == old(notes) && checklists == old(checklists) && scripts == old(scripts)
    {
      devices := devices + [device.(id := newId)];
    }

    method UpdateDevice(id: string, patch: DevicePatch)
      modifies this
      ensures devices == UpdatedDevices(old(devices), id, patch)
      ensures user == old(user) && notes == old(notes) && checklists == old(checklists) && scripts == old(scripts)
    {
      devices := UpdatedDevices(devices, id, patch);
    }

    method DeleteDevice(id: string)
      modifies this
      ensures devices == RemoveKey(old(devices), DeviceId, id)
      ensures user == old(user) && notes == old(notes) && checklists == old(checklists) && scripts == old(scripts)
    {
      devices := RemoveKey(devices, DeviceId, id);
    }

    method AddNote(note: Note, newId: string, createdNow: string, updatedNow: string)
      modifies this
      ensures notes == old(notes) + [StampedNote(note, newId, createdNow, updatedNow)]
      ensures user == old(user) && devices == old(devices) && checklists == old(checklists) && scripts == old(scripts)
    {
      notes := notes + [StampedNote(note, newId, createdNow, updatedNow)];
    }

    method UpdateNote(id: string, patch: NotePatch, now: string)
      modifies this
      ensures notes == UpdatedNotes(old(notes), id, patch, now)
      ensures user == old(user) && devices == old(devices) && checklists == old(checklists) && scripts == old(scripts)
    {
      notes := UpdatedNotes(notes, id, patch, now);
    }

    method DeleteNote(id: string)
      modifies this
      ensures notes == RemoveKey(old(notes), NoteId, id)
      ensures user == old(user) && devices == old(devices) && checklists == old(checklists) && scripts == old(scripts)
    {
      notes := RemoveKey(notes, NoteId, id);
    }

    method AddChecklist(checklist: Checklist, newId: string)
      modifies this
      ensures checklists == old(checklists) + [checklist.(id := newId)]
      ensures user == old(user) && devices == old(devices) && notes == old(notes) && scripts == old(scripts)
    {
      checklists := checklists + [checklist.(id := newId)];
    }

    method UpdateChecklist(id: string, patch: ChecklistPatch)
      modifies this
      ensures checklists == UpdatedChecklists(old(checklists), id, patch)
      ensures user == old(user) && devices == old(devices) && notes == old(notes) && scripts == old(scripts)
    {
      checklists := UpdatedChecklists(checklists, id, patch);
    }

    method DeleteChecklist(id: string)
      modifies this
      ensures checklists == RemoveKey(old(checklists), ChecklistId, id)
      ensures user == old(user) && devices == old(devices) && notes == old(notes) && scripts == old(scripts)
    {
      checklists := RemoveKey(checklists, ChecklistId, id);
    }

    method AddScript(script: Script, newId: string, createdNow: string, updatedNow: string)
      modifies this
      ensures scripts == old(scripts) + [StampedScript(script, newId, createdNow, updatedNow)]
      ensures Persisted() == old(Persisted()) && user == old(user)
    {
      scripts := scripts + [StampedScript(script, newId, createdNow, updatedNow)];
    }

    method UpdateScript(id: string, patch: ScriptPatch, now: string)
      modifies this
      ensures scripts == UpdatedScripts(old(scripts), id, patch, now)
      ensures Persisted() == old(Persisted()) && user == old(user)
    {
      scripts := UpdatedScripts(scripts, id, patch, now);
    }

    method DeleteScript(id: string)
      modifies this
      ensures scripts == RemoveKey(old(scripts), ScriptId, id)
      ensures Persisted() == old(Persisted()) && user == old(user)
    {
      scripts := RemoveKey(scripts, ScriptId, id);
    }

    /** `exportData()`: reads the state and changes nothing; importing the
        text it returns gives the three collections back. */
    method ExportData() returns (t: Text)
      ensures t == Export(Persisted())
      ensures Import(t) == Some(Persisted())
    {
      t := Export(Persisted());
      ExportImportRoundTrip(Persisted());
    }

    /** `importData(text)`: all or nothing. On success the three collections
        are replaced by the decoded payload; otherwise nothing changes. The
        session and the scripts are never touched. */
    method ImportData(t: Text) returns (ok: bool)
      modifies this
      ensures ok <==> Import(t).Some?
      ensures ok ==> GuardAsWritten(t) && Persisted() == Import(t).value
      ensures !ok ==> Persisted() == old(Persisted())
      ensures user == old(user) && scripts == old(scripts)
    {
      var imported := Import(t);
      if imported.Some? {
        var s := imported.value;
        devices, notes, checklists := s.devices, s.notes, s.checklists;
        ok := true;
      } else {
        ok := false;
      }
    }
  }

  /** Export followed by import, on one store: `importData(exportData())`
      returns true and leaves every collection as it was. */
  method ExportThenImport(store: AppStore) returns (ok: bool)
    modifies store
    ensures ok
    ensures store.Persisted() == old(store.Persisted()) && store.scripts == old(store.scripts)
    ensures store.user == old(store.user)
  {
    var t := store.ExportData();
    ok := store.ImportData(t);
  }
}

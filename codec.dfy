/** `exportData` and `importData` (client/src/lib/store.ts, lines 146-161):
    the snapshot `{devices, notes, checklists}` as a JSON value, its typed
    decoding, and the guard `importData` applies before replacing the state. */
module Codec {
  import opened Collections
  import opened Json
  import opened Records

  datatype Snapshot = Snapshot(devices: seq<Device>, notes: seq<Note>, checklists: seq<Checklist>)

  // Lists.

  function EncodeList<T>(xs: seq<T>, enc: T -> Json): (r: seq<Json>)
    ensures |r| == |xs|
  {
    if xs == [] then [] else [enc(xs[0])] + EncodeList(xs[1..], enc)
  }

  /** Decodes every item, failing as soon as one item does not decode. */
  function DecodeList<T>(items: seq<Json>, dec: Json -> Option<T>): (r: Option<seq<T>>)
    ensures r.Some? ==> |r.value| == |items|
  {
    if items == [] then Some([])
    else
      var head :- dec(items[0]);
      var tail :- DecodeList(items[1..], dec);
      Some([head] + tail)
  }

  /** A list of values that each decode back decodes back. */
  lemma {:induction false} ListRoundTrip<T>(xs: seq<T>, enc: T -> Json, dec: Json -> Option<T>)
    requires forall x :: x in xs ==> dec(enc(x)) == Some(x)
    ensures DecodeList(EncodeList(xs, enc), dec) == Some(xs)
  {
    if xs != [] {
      assert forall x :: x in xs[1..] ==> x in xs;
      ListRoundTrip(xs[1..], enc, dec);
      var items := EncodeList(xs, enc);
      assert items[0] == enc(xs[0]) && items[1..] == EncodeList(xs[1..], enc);
      assert xs == [xs[0]] + xs[1..];
    }
  }

  function EncodeString(s: string): Json { JString(s) }

  function DecodeString(j: Json): Option<string>
  {
    if j.JString? then Some(j.s) else None
  }

  function EncodeStrings(xs: seq<string>): Json { JArray(EncodeList(xs, EncodeString)) }

  // Fields of an object.

  function StringField(m: map<string, Json>, key: string): Option<string>
  {
    if key in m then DecodeString(m[key]) else None
  }

  function StringsField(m: map<string, Json>, key: string): Option<seq<string>>
  {
    if key in m && m[key].JArray? then DecodeList(m[key].items, DecodeString) else None
  }

  /** An optional string property: absent is `Some(None)`, a string is
      `Some(Some(s))`, anything else fails. */
  function OptionalStringField(m: map<string, Json>, key: string): Option<Option<string>>
  {
    if key !in m then Some(None)
    else if m[key].JString? then Some(Some(m[key].s))
    else None
  }

  /** `JSON.stringify` leaves out a property whose value is `undefined`. */
  function WithOptional(m: map<string, Json>, key: string, v: Option<string>): map<string, Json>
  {
    if v.Some? then m[key := JString(v.value)] else m
  }

  lemma StringsRoundTrip(xs: seq<string>)
    ensures DecodeList(EncodeStrings(xs).items, DecodeString) == Some(xs)
  {
    ListRoundTrip(xs, EncodeString, DecodeString);
  }

  // Devices.

  function EncodeDevice(d: Device): Json
  {
    JObject(WithOptional(map[
      "id" := JString(d.id), "name" := JString(d.name),
      "type" := JString(DeviceTypeName(d.deviceType)), "os" := JString(d.os),
      "ip" := JString(d.ip), "mac" := JString(d.mac), "location" := JString(d.location),
      "tags" := EncodeStrings(d.tags), "status" := JString(StatusName(d.status))],
      "lastSeen", d.lastSeen))
  }

  function DecodeDevice(j: Json): Option<Device>
  {
    if !j.JObject? then None
    else
      var m := j.fields;
      var id :- StringField(m, "id");
      var name :- StringField(m, "name");
      var typeName :- StringField(m, "type");
      var deviceType :- ParseDeviceType(typeName);
      var os :- StringField(m, "os");
      var ip :- StringField(m, "ip");
      var mac :- StringField(m, "mac");
      var location :- StringField(m, "location");
      var tags :- StringsField(m, "tags");
      var statusName :- StringField(m, "status");
      var status :- ParseStatus(statusName);
      var lastSeen :- OptionalStringField(m, "lastSeen");
      Some(Device(id, name, deviceType, os, ip, mac, location, tags, status, lastSeen))
  }

  lemma DeviceRoundTrip(d: Device)
    ensures DecodeDevice(EncodeDevice(d)) == Some(d)
  {
    DeviceTypeRoundTrip(d.deviceType);
    StatusRoundTrip(d.status);
    StringsRoundTrip(d.tags);
    var m := EncodeDevice(d).fields;
    EncodedDeviceNames(d);
    EncodedDeviceDetails(d);
    DecodeDeviceFields(m, d);
  }

  /** The identifying properties of an encoded device. */
  lemma EncodedDeviceNames(d: Device)
    ensures var m := EncodeDevice(d).fields;
      StringField(m, "id") == Some(d.id) && StringField(m, "name") == Some(d.name) &&
      StringField(m, "type") == Some(DeviceTypeName(d.deviceType)) && StringField(m, "os") == Some(d.os) &&
      StringField(m, "status") == Some(StatusName(d.status))
  {
  }

  /** The remaining properties of an encoded device. */
  lemma EncodedDeviceDetails(d: Device)
    ensures var m := EncodeDevice(d).fields;
      StringField(m, "ip") == Some(d.ip) && StringField(m, "mac") == Some(d.mac) &&
      StringField(m, "location") == Some(d.location) && OptionalStringField(m, "lastSeen") == Some(d.lastSeen) &&
      "tags" in m && m["tags"] == EncodeStrings(d.tags)
  {
  }

  /** An object whose properties read back as a device's fields decodes to that device. */
  lemma DecodeDeviceFields(m: map<string, Json>, d: Device)
    requires StringField(m, "id") == Some(d.id) && StringField(m, "name") == Some(d.name)
    requires StringField(m, "type") == Some(DeviceTypeName(d.deviceType)) && StringField(m, "os") == Some(d.os)
    requires StringField(m, "status") == Some(StatusName(d.status))
    requires StringField(m, "ip") == Some(d.ip) && StringField(m, "mac") == Some(d.mac)
    requires StringField(m, "location") == Some(d.location) && OptionalStringField(m, "lastSeen") == Some(d.lastSeen)
    requires StringsField(m, "tags") == Some(d.tags)
    requires ParseDeviceType(DeviceTypeName(d.deviceType)) == Some(d.deviceType)
    requires ParseStatus(StatusName(d.status)) == Some(d.status)
    ensures DecodeDevice(JObject(m)) == Some(d)
  {
  }

  // Notes.

  function EncodeNote(n: Note): Json
  {
    JObject(WithOptional(map[
      "id" := JString(n.id), "title" := JString(n.title), "content" := JString(n.content),
      "createdAt" := JString(n.createdAt), "updatedAt" := JString(n.updatedAt),
      "tags" := EncodeStrings(n.tags)],
      "deviceId", n.deviceId))
  }

  function DecodeNote(j: Json): Option<Note>
  {
    if !j.JObject? then None
    else
      var m := j.fields;
      var id :- StringField(m, "id");
      var title :- StringField(m, "title");
      var content :- StringField(m, "content");
      var deviceId :- OptionalStringField(m, "deviceId");
      var createdAt :- StringField(m, "createdAt");
      var updatedAt :- StringField(m, "updatedAt");
      var tags :- StringsField(m, "tags");
      Some(Note(id, title, content, deviceId, createdAt, updatedAt, tags))
  }

  lemma NoteRoundTrip(n: Note)
    ensures DecodeNote(EncodeNote(n)) == Some(n)
  {
    StringsRoundTrip(n.tags);
  }

  // Checklists and their tasks.

  function EncodeTask(t: Task): Json
  {
    JObject(map["id" := JString(t.id), "text" := JString(t.text), "completed" := JBool(t.completed)])
  }

  function DecodeTask(j: Json): Option<Task>
  {
    if !j.JObject? then None
    else
      var m := j.fields;
      var id :- StringField(m, "id");
      var text :- StringField(m, "text");
      if "completed" in m && m["completed"].JBool? then Some(Task(id, text, m["completed"].b)) else None
  }

  function EncodeChecklist(c: Checklist): Json
  {
    JObject(map[
      "id" := JString(c.id), "title" := JString(c.title), "description" := JString(c.description),
      "tasks" := JArray(EncodeList(c.tasks, EncodeTask)), "category" := JString(c.category)])
  }

  function DecodeChecklist(j: Json): Option<Checklist>
  {
    if !j.JObject? then None
    else
      var m := j.fields;
      var id :- StringField(m, "id");
      var title :- StringField(m, "title");
      var description :- StringField(m, "description");
      var tasks :- if "tasks" in m && m["tasks"].JArray? then DecodeList(m["tasks"].items, DecodeTask) else None;
      var category :- StringField(m, "category");
      Some(Checklist(id, title, description, tasks, category))
  }

  lemma ChecklistRoundTrip(c: Checklist)
    ensures DecodeChecklist(EncodeChecklist(c)) == Some(c)
  {
    forall t | t in c.tasks
      ensures DecodeTask(EncodeTask(t)) == Some(t)
    {
      TaskRoundTrip(t);
    }
    ListRoundTrip(c.tasks, EncodeTask, DecodeTask);
    EncodedChecklistFields(c);
    DecodeChecklistFields(EncodeChecklist(c).fields, c);
  }

  lemma TaskRoundTrip(t: Task)
    ensures DecodeTask(EncodeTask(t)) == Some(t)
  {
  }

  /** The properties of an encoded checklist. */
  lemma EncodedChecklistFields(c: Checklist)
    ensures var m := EncodeChecklist(c).fields;
      StringField(m, "id") == Some(c.id) && StringField(m, "title") == Some(c.title) &&
      StringField(m, "description") == Some(c.description) && StringField(m, "category") == Some(c.category) &&
      "tasks" in m && m["tasks"] == JArray(EncodeList(c.tasks, EncodeTask))
  {
  }

  /** An object whose properties read back as a checklist's fields decodes to that checklist. */
  lemma DecodeChecklistFields(m: map<string, Json>, c: Checklist)
    requires StringField(m, "id") == Some(c.id) && StringField(m, "title") == Some(c.title)
    requires StringField(m, "description") == Some(c.description) && StringField(m, "category") == Some(c.category)
    requires "tasks" in m && m["tasks"].JArray? && DecodeList(m["tasks"].items, DecodeTask) == Some(c.tasks)
    ensures DecodeChecklist(JObject(m)) == Some(c)
  {
  }

  // The snapshot.

  function EncodeSnapshot(s: Snapshot): Json
  {
    JObject(map[
      "devices" := JArray(EncodeList(s.devices, EncodeDevice)),
      "notes" := JArray(EncodeList(s.notes, EncodeNote)),
      "checklists" := JArray(EncodeList(s.checklists, EncodeChecklist))])
  }

  function ArrayField<T>(m: map<string, Json>, key: string, dec: Json -> Option<T>): Option<seq<T>>
  {
    if key in m && m[key].JArray? then DecodeList(m[key].items, dec) else None
  }

  function DecodeSnapshot(j: Json): Option<Snapshot>
  {
    if !j.JObject? then None
    else
      var devices :- ArrayField(j.fields, "devices", DecodeDevice);
      var notes :- ArrayField(j.fields, "notes", DecodeNote);
      var checklists :- ArrayField(j.fields, "checklists", DecodeChecklist);
      Some(Snapshot(devices, notes, checklists))
  }

  /** `exportData()`: `JSON.stringify({ devices, notes, checklists })`. */
  function Export(s: Snapshot): (t: Text)
    ensures Parse(t) == Parsed(EncodeSnapshot(s))
  {
    Stringify(EncodeSnapshot(s))
  }

  /** The guard of `importData` as written: parse (a syntax error is caught),
      then `data.devices && data.notes && data.checklists`, where reading a
      property of `null` throws and is caught too. */
  predicate GuardAsWritten(t: Text)
  {
    match Parse(t)
    case ParseFailed(_) => false
    case Parsed(data) =>
      var devices := Member(data, "devices");
      if devices.Throws? then false
      else TruthyAccess(devices) && TruthyAccess(Member(data, "notes")) && TruthyAccess(Member(data, "checklists"))
  }

  /** The snapshot `importData` installs, or `None` when it returns false: the
      guard as written, and then the three values must decode as lists of records. */
  function Import(t: Text): (r: Option<Snapshot>)
    ensures r.Some? <==> GuardAsWritten(t) && Parse(t).Parsed? && DecodeSnapshot(Parse(t).value).Some?
    ensures r.Some? ==> Parse(t).Parsed? && DecodeSnapshot(Parse(t).value) == r
  {
    if GuardAsWritten(t) then DecodeSnapshot(Parse(t).value) else None
  }

  lemma DevicesRoundTrip(ds: seq<Device>)
    ensures DecodeList(EncodeList(ds, EncodeDevice), DecodeDevice) == Some(ds)
  {
    forall d | d in ds ensures DecodeDevice(EncodeDevice(d)) == Some(d) { DeviceRoundTrip(d); }
    ListRoundTrip(ds, EncodeDevice, DecodeDevice);
  }

  lemma NotesRoundTrip(ns: seq<Note>)
    ensures DecodeList(EncodeList(ns, EncodeNote), DecodeNote) == Some(ns)
  {
    forall n | n in ns ensures DecodeNote(EncodeNote(n)) == Some(n) { NoteRoundTrip(n); }
    ListRoundTrip(ns, EncodeNote, DecodeNote);
  }

  lemma ChecklistsRoundTrip(cs: seq<Checklist>)
    ensures DecodeList(EncodeList(cs, EncodeChecklist), DecodeChecklist) == Some(cs)
  {
    forall c | c in cs ensures DecodeChecklist(EncodeChecklist(c)) == Some(c) { ChecklistRoundTrip(c); }
    ListRoundTrip(cs, EncodeChecklist, DecodeChecklist);
  }

  lemma SnapshotRoundTrip(s: Snapshot)
    ensures DecodeSnapshot(EncodeSnapshot(s)) == Some(s)
  {
    DevicesRoundTrip(s.devices);
    NotesRoundTrip(s.notes);
    ChecklistsRoundTrip(s.checklists);
    EncodedSnapshotFields(s);
    DecodeSnapshotFields(EncodeSnapshot(s).fields, s);
  }

  /** The three properties of an encoded snapshot. */
  lemma EncodedSnapshotFields(s: Snapshot)
    ensures var m := EncodeSnapshot(s).fields;
      "devices" in m && m["devices"] == JArray(EncodeList(s.devices, EncodeDevice)) &&
      "notes" in m && m["notes"] == JArray(EncodeList(s.notes, EncodeNote)) &&
      "checklists" in m && m["checklists"] == JArray(EncodeList(s.checklists, EncodeChecklist))
  {
  }

  /** An object whose three properties decode as the snapshot's lists decodes to the snapshot. */
  lemma DecodeSnapshotFields(m: map<string, Json>, s: Snapshot)
    requires ArrayField(m, "devices", DecodeDevice) == Some(s.devices)
    requires ArrayField(m, "notes", DecodeNote) == Some(s.notes)
    requires ArrayField(m, "checklists", DecodeChecklist) == Some(s.checklists)
    ensures DecodeSnapshot(JObject(m)) == Some(s)
  {
  }

  /** Importing an export gives back exactly the exported collections. */
  lemma ExportImportRoundTrip(s: Snapshot)
    ensures Import(Export(s)) == Some(s)
  {
    SnapshotRoundTrip(s);
    DecodableImpliesGuard(Export(s));
  }

  /** Text that is not JSON is rejected. */
  lemma ImportRejectsMalformed(raw: string)
    ensures !GuardAsWritten(Malformed(raw)) && Import(Malformed(raw)) == None
  {
  }

  /** `JSON.parse("null")` succeeds, `null.devices` throws, and the throw is caught. */
  lemma ImportRejectsNull()
    ensures !GuardAsWritten(Serialised(JNull)) && Import(Serialised(JNull)) == None
  {
  }

  /** A value that lacks one of the three keys, or holds a falsy value under
      one of them, is rejected; so is any value that is not an object. */
  lemma ImportNeedsAllThreeKeys(t: Text)
    requires t.Serialised?
    requires !t.value.JObject? || !Present(t.value.fields, "devices") ||
             !Present(t.value.fields, "notes") || !Present(t.value.fields, "checklists")
    ensures !GuardAsWritten(t) && Import(t) == None
  {
  }

  /** The key is there and its value is truthy. */
  predicate Present(m: map<string, Json>, key: string)
  {
    key in m && Truthy(m[key])
  }

  /** `{"devices": [], "notes": []}` lacks `checklists` and is rejected. */
  lemma ImportRejectsMissingChecklists()
    ensures Import(Serialised(JObject(map["devices" := JArray([]), "notes" := JArray([])]))) == None
  {
    ImportNeedsAllThreeKeys(Serialised(JObject(map["devices" := JArray([]), "notes" := JArray([])])));
  }

  /** The guard as written lets through payloads with no typed reading:
      `{"devices": 1, "notes": 1, "checklists": 1}` passes the truthiness test
      although none of its values is a list of records. */
  lemma GuardAdmitsUndecodable()
    ensures GuardAsWritten(Serialised(JObject(map["devices" := JNumber(1), "notes" := JNumber(1), "checklists" := JNumber(1)])))
    ensures Import(Serialised(JObject(map["devices" := JNumber(1), "notes" := JNumber(1), "checklists" := JNumber(1)]))) == None
  {
  }

  /** Every decodable payload passes the guard as written, since arrays are
      truthy; the corrected import refuses nothing the guard meant to accept. */
  lemma DecodableImpliesGuard(t: Text)
    requires t.Serialised? && DecodeSnapshot(t.value).Some?
    ensures GuardAsWritten(t) && Import(t) == DecodeSnapshot(t.value)
  {
  }
}

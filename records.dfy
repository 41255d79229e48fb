/** The records the store holds (client/src/lib/store.ts, lines 4-46) and the
    `Partial<…>` patches its update actions merge over them. A patch field is
    `Some` when the patch object carries that key; `{...record, ...patch}` then
    takes the patch's value for exactly those keys. */
module Records {
  import opened Collections

  datatype DeviceType = Server | Desktop | Laptop | Router | Switch | Iot | OtherType

  datatype Status = Online | Offline | Maintenance

  /** `type` is a Dafny keyword; the field is called `deviceType` here. */
  datatype Device = Device(
    id: string,
    name: string,
    deviceType: DeviceType,
    os: string,
    ip: string,
    mac: string,
    location: string,
    tags: seq<string>,
    status: Status,
    lastSeen: Option<string>)

  datatype Note = Note(
    id: string,
    title: string,
    content: string,
    deviceId: Option<string>,
    createdAt: string,
    updatedAt: string,
    tags: seq<string>)

  datatype Task = Task(id: string, text: string, completed: bool)

  datatype Checklist = Checklist(
    id: string,
    title: string,
    description: string,
    tasks: seq<Task>,
    category: string)

  datatype User = User(username: string, token: string)

  datatype Language = Bash | Python | PowerShell | JavaScript | OtherLanguage

  /** The `Script` record that the scripts page imports from the store. */
  datatype Script = Script(
    id: string,
    name: string,
    language: Language,
    description: string,
    content: string,
    tags: seq<string>,
    createdAt: string,
    updatedAt: string,
    linkedDeviceIds: Option<seq<string>>,
    linkedChecklistIds: Option<seq<string>>)

  function DeviceId(d: Device): string { d.id }
  function NoteId(n: Note): string { n.id }
  function TaskId(t: Task): string { t.id }
  function ChecklistId(c: Checklist): string { c.id }
  function ScriptId(s: Script): string { s.id }

  // The string literals of the enumerations.

  function DeviceTypeName(t: DeviceType): string
  {
    match t
    case Server => "server"
    case Desktop => "desktop"
    case Laptop => "laptop"
    case Router => "router"
    case Switch => "switch"
    case Iot => "iot"
    case OtherType => "other"
  }

  function ParseDeviceType(s: string): (r: Option<DeviceType>)
    ensures r.Some? ==> DeviceTypeName(r.value) == s
  {
    if s == "server" then Some(Server)
    else if s == "desktop" then Some(Desktop)
    else if s == "laptop" then Some(Laptop)
    else if s == "router" then Some(Router)
    else if s == "switch" then Some(Switch)
    else if s == "iot" then Some(Iot)
    else if s == "other" then Some(OtherType)
    else None
  }

  lemma DeviceTypeRoundTrip(t: DeviceType)
    ensures ParseDeviceType(DeviceTypeName(t)) == Some(t)
  {
  }

  function StatusName(s: Status): string
  {
    match s
    case Online => "online"
    case Offline => "offline"
    case Maintenance => "maintenance"
  }

  function ParseStatus(s: string): (r: Option<Status>)
    ensures r.Some? ==> StatusName(r.value) == s
  {
    if s == "online" then Some(Online)
    else if s == "offline" then Some(Offline)
    else if s == "maintenance" then Some(Maintenance)
    else None
  }

  lemma StatusRoundTrip(s: Status)
    ensures ParseStatus(StatusName(s)) == Some(s)
  {
  }

  function LanguageName(l: Language): string
  {
    match l
    case Bash => "bash"
    case Python => "python"
    case PowerShell => "powershell"
    case JavaScript => "javascript"
    case OtherLanguage => "other"
  }

  // Patches: `Partial<Device>`, `Partial<Note>`, `Partial<Checklist>`, `Partial<Script>`.

  datatype DevicePatch = DevicePatch(
    id: Option<string>,
    name: Option<string>,
    deviceType: Option<DeviceType>,
    os: Option<string>,
    ip: Option<string>,
    mac: Option<string>,
    location: Option<string>,
    tags: Option<seq<string>>,
    status: Option<Status>,
    lastSeen: Option<string>)

  const EmptyDevicePatch := DevicePatch(None, None, None, None, None, None, None, None, None, None)

  /** `{ ...d, ...p }`. */
  function MergeDevice(d: Device, p: DevicePatch): Device
  {
    Device(p.id.GetOr(d.id), p.name.GetOr(d.name), p.deviceType.GetOr(d.deviceType),
           p.os.GetOr(d.os), p.ip.GetOr(d.ip), p.mac.GetOr(d.mac), p.location.GetOr(d.location),
           p.tags.GetOr(d.tags), p.status.GetOr(d.status),
           if p.lastSeen.Some? then p.lastSeen else d.lastSeen)
  }

  /** `{ ...p, ...q }`: the later patch wins on the keys both carry. */
  function ThenDevice(p: DevicePatch, q: DevicePatch): DevicePatch
  {
    DevicePatch(
      if q.id.Some? then q.id else p.id,
      if q.name.Some? then q.name else p.name,
      if q.deviceType.Some? then q.deviceType else p.deviceType,
      if q.os.Some? then q.os else p.os,
      if q.ip.Some? then q.ip else p.ip,
      if q.mac.Some? then q.mac else p.mac,
      if q.location.Some? then q.location else p.location,
      if q.tags.Some? then q.tags else p.tags,
      if q.status.Some? then q.status else p.status,
      if q.lastSeen.Some? then q.lastSeen else p.lastSeen)
  }

  /** The shallow merge: an empty patch changes nothing, a patch applied twice
      is applied once, and two merges in a row are one merge of the combined
      patch. */
  lemma MergeDeviceLaws(d: Device, p: DevicePatch, q: DevicePatch)
    ensures MergeDevice(d, EmptyDevicePatch) == d
    ensures MergeDevice(MergeDevice(d, p), p) == MergeDevice(d, p)
    ensures MergeDevice(MergeDevice(d, p), q) == MergeDevice(d, ThenDevice(p, q))
  {
  }

  /** A status-only patch, as the devices page sends, changes the status and nothing else. */
  lemma MergeDeviceStatusOnly(d: Device, s: Status)
    ensures MergeDevice(d, EmptyDevicePatch.(status := Some(s))) == d.(status := s)
  {
  }

  datatype NotePatch = NotePatch(
    id: Option<string>,
    title: Option<string>,
    content: Option<string>,
    deviceId: Option<string>,
    createdAt: Option<string>,
    updatedAt: Option<string>,
    tags: Option<seq<string>>)

  const EmptyNotePatch := NotePatch(None, None, None, None, None, None, None)

  /** `{ ...n, ...p, updatedAt: now }`, the merge of `updateNote`. */
  function MergeNoteAt(n: Note, p: NotePatch, now: string): Note
  {
    Note(p.id.GetOr(n.id), p.title.GetOr(n.title), p.content.GetOr(n.content),
         if p.deviceId.Some? then p.deviceId else n.deviceId,
         p.createdAt.GetOr(n.createdAt), now, p.tags.GetOr(n.tags))
  }

  /** `updatedAt` is the supplied clock value even when the patch carries an
      `updatedAt` of its own; an empty patch changes `updatedAt` only. */
  lemma MergeNoteLaws(n: Note, p: NotePatch, now: string)
    ensures MergeNoteAt(n, p, now).updatedAt == now
    ensures MergeNoteAt(n, p.(updatedAt := None), now) == MergeNoteAt(n, p, now)
    ensures MergeNoteAt(n, EmptyNotePatch, now) == n.(updatedAt := now)
  {
  }

  datatype ChecklistPatch = ChecklistPatch(
    id: Option<string>,
    title: Option<string>,
    description: Option<string>,
    tasks: Option<seq<Task>>,
    category: Option<string>)

  const EmptyChecklistPatch := ChecklistPatch(None, None, None, None, None)

  /** `{ ...c, ...p }`. */
  function MergeChecklist(c: Checklist, p: ChecklistPatch): Checklist
  {
    Checklist(p.id.GetOr(c.id), p.title.GetOr(c.title), p.description.GetOr(c.description),
              p.tasks.GetOr(c.tasks), p.category.GetOr(c.category))
  }

  /** An empty patch changes nothing; a tasks-only patch, as the checklist page
      sends, replaces the task list and nothing else. */
  lemma MergeChecklistLaws(c: Checklist, p: ChecklistPatch, ts: seq<Task>)
    ensures MergeChecklist(c, EmptyChecklistPatch) == c
    ensures MergeChecklist(MergeChecklist(c, p), p) == MergeChecklist(c, p)
    ensures MergeChecklist(c, EmptyChecklistPatch.(tasks := Some(ts))) == c.(tasks := ts)
  {
  }

  datatype ScriptPatch = ScriptPatch(
    id: Option<string>,
    name: Option<string>,
    language: Option<Language>,
    description: Option<string>,
    content: Option<string>,
    tags: Option<seq<string>>,
    createdAt: Option<string>,
    updatedAt: Option<string>,
    linkedDeviceIds: Option<seq<string>>,
    linkedChecklistIds: Option<seq<string>>)

  const EmptyScriptPatch := ScriptPatch(None, None, None, None, None, None, None, None, None, None)

  /** `{ ...s, ...p, updatedAt: now }`, on the pattern of `updateNote`. */
  function MergeScriptAt(s: Script, p: ScriptPatch, now: string): Script
  {
    Script(p.id.GetOr(s.id), p.name.GetOr(s.name), p.language.GetOr(s.language),
           p.description.GetOr(s.description), p.content.GetOr(s.content), p.tags.GetOr(s.tags),
           p.createdAt.GetOr(s.createdAt), now,
           if p.linkedDeviceIds.Some? then p.linkedDeviceIds else s.linkedDeviceIds,
           if p.linkedChecklistIds.Some? then p.linkedChecklistIds else s.linkedChecklistIds)
  }

  lemma MergeScriptLaws(s: Script, p: ScriptPatch, now: string)
    ensures MergeScriptAt(s, p, now).updatedAt == now
    ensures MergeScriptAt(s, EmptyScriptPatch, now) == s.(updatedAt := now)
  {
  }
}

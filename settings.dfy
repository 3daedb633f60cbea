/** The settings page: pet profiles, notification, network and system
    settings, the switches that flip them, and the partial import of a
    settings document. Every handler builds one new value from the old one,
    so each is a function from page state to page state. */
module Settings {
  import opened Wrappers
  import opened Decimal
  import opened Keyed

  datatype Gender = Male | Female

  datatype Pet = Pet(id: string, name: string, gender: Gender, color: string, breed: string,
                     weight: real, birthDate: string, notes: string, avatar: string)

  /** A pet without its id: the add-form's staged values. */
  datatype PetDraft = PetDraft(name: string, gender: Gender, color: string, breed: string,
                               weight: real, birthDate: string, notes: string, avatar: string)

  /** `Partial<PetProfile>`: a field is present (`Some`) or absent (`None`). */
  datatype PetUpdate = PetUpdate(id: Option<string>, name: Option<string>, gender: Option<Gender>,
                                 color: Option<string>, breed: Option<string>, weight: Option<real>,
                                 birthDate: Option<string>, notes: Option<string>, avatar: Option<string>)

  datatype NotificationSettings = NotificationSettings(
    lowFood: bool, lowWater: bool, feedingComplete: bool, systemErrors: bool,
    scheduleReminders: bool, maintenanceAlerts: bool, soundEnabled: bool, pushNotifications: bool)

  datatype NotificationKey =
    LowFood | LowWater | FeedingComplete | SystemErrors |
    ScheduleReminders | MaintenanceAlerts | SoundEnabled | PushNotifications

  datatype NetworkSettings = NetworkSettings(
    wifiSSID: string, wifiPassword: string, mqttBroker: string, mqttPort: int,
    apiEndpoint: string, deviceId: string, autoReconnect: bool)

  datatype Units = Metric | Imperial

  datatype SystemSettings = SystemSettings(
    timeZone: string, language: string, units: Units, autoUpdate: bool,
    debugMode: bool, maintenanceMode: bool, dataRetention: int)

  /** The system settings that have a switch. */
  datatype SystemFlag = AutoUpdate | DebugMode | MaintenanceMode

  /** The page's state. */
  datatype SettingsPage = SettingsPage(
    pets: seq<Pet>, notifications: NotificationSettings, network: NetworkSettings,
    system: SystemSettings, editingPet: Option<string>, showAddPet: bool, newPet: PetDraft)

  const DefaultPetDraft := PetDraft("", Male, "", "ไจแอน", 100.0, "", "", "🐹")

  const InitialSettings := SettingsPage(
    [Pet("1", "ยูจิ", Male, "ส้มตัดขาว", "ไจแอน", 120.0, "2023-06-15", "ชอบวิ่งในล้อ กินเยอะตอนเย็น", "🐹"),
     Pet("2", "ลูน่า", Female, "ดำตัดขาว", "ไจแอน", 110.0, "2023-07-20", "ขี้อาย ชอบซ่อนตัว กินช้าๆ", "🐹")],
    NotificationSettings(true, true, true, true, false, true, true, true),
    NetworkSettings("Home_WiFi_5G", "••••••••••", "mqtt.petfeeder.local", 1883,
                    "https://api.petfeeder.com/v1", "PF-YJ-LN-001", true),
    SystemSettings("Asia/Bangkok", "th-TH", Metric, true, false, false, 30),
    None, false, DefaultPetDraft)

  // ---------------------------------------------------------------- pets

  function PetOf(id: string, d: PetDraft): Pet
  {
    Pet(id, d.name, d.gender, d.color, d.breed, d.weight, d.birthDate, d.notes, d.avatar)
  }

  function DraftOf(p: Pet): PetDraft
  {
    PetDraft(p.name, p.gender, p.color, p.breed, p.weight, p.birthDate, p.notes, p.avatar)
  }

  /** `addPet`: the draft becomes a pet at the end of the list, with the
      decimal text of the new length as its id; the form closes and its
      fields go back to their defaults. */
  function AddPet(pg: SettingsPage): (r: SettingsPage)
    ensures |r.pets| == |pg.pets| + 1 && r.pets[..|pg.pets|] == pg.pets
    ensures DraftOf(r.pets[|pg.pets|]) == pg.newPet
    ensures r.pets[|pg.pets|].id == NatToString(|pg.pets| + 1)
    ensures AllDigits(r.pets[|pg.pets|].id) && ParseNat(r.pets[|pg.pets|].id) == |pg.pets| + 1
    ensures !r.showAddPet && r.newPet == DefaultPetDraft
    ensures r.(pets := pg.pets, showAddPet := pg.showAddPet, newPet := pg.newPet) == pg
  {
    ParseNatToString(|pg.pets| + 1);
    pg.(pets := pg.pets + [PetOf(NatToString(|pg.pets| + 1), pg.newPet)],
        showAddPet := false, newPet := DefaultPetDraft)
  }

  /** The key `deletePet` and `updatePet` compare with. */
  function PetId(p: Pet): string
  {
    p.id
  }

  /** `deletePet`: only the pet list changes. */
  function DeletePet(pg: SettingsPage, id: string): (r: SettingsPage)
    ensures r.pets == Without(pg.pets, PetId, id)
    ensures r.(pets := pg.pets) == pg
  {
    pg.(pets := Without(pg.pets, PetId, id))
  }

  /** `{ ...p, ...updates }`: a field present in the update wins, an
      absent one keeps the pet's value. */
  function Merged(p: Pet, u: PetUpdate): (r: Pet)
    ensures (u.id.Some? ==> r.id == u.id.value) && (u.id.None? ==> r.id == p.id)
    ensures (u.name.Some? ==> r.name == u.name.value) && (u.name.None? ==> r.name == p.name)
    ensures (u.gender.Some? ==> r.gender == u.gender.value) && (u.gender.None? ==> r.gender == p.gender)
    ensures (u.color.Some? ==> r.color == u.color.value) && (u.color.None? ==> r.color == p.color)
    ensures (u.breed.Some? ==> r.breed == u.breed.value) && (u.breed.None? ==> r.breed == p.breed)
    ensures (u.weight.Some? ==> r.weight == u.weight.value) && (u.weight.None? ==> r.weight == p.weight)
    ensures (u.birthDate.Some? ==> r.birthDate == u.birthDate.value) && (u.birthDate.None? ==> r.birthDate == p.birthDate)
    ensures (u.notes.Some? ==> r.notes == u.notes.value) && (u.notes.None? ==> r.notes == p.notes)
    ensures (u.avatar.Some? ==> r.avatar == u.avatar.value) && (u.avatar.None? ==> r.avatar == p.avatar)
  {
    Pet(Pick(u.id, p.id), Pick(u.name, p.name), Pick(u.gender, p.gender), Pick(u.color, p.color),
        Pick(u.breed, p.breed), Pick(u.weight, p.weight), Pick(u.birthDate, p.birthDate),
        Pick(u.notes, p.notes), Pick(u.avatar, p.avatar))
  }

  function Pick<T>(o: Option<T>, fallback: T): T
  {
    if o.Some? then o.value else fallback
  }

  const NoChange := PetUpdate(None, None, None, None, None, None, None, None, None)

  /** `{ ...u, ...v }`: the later update wins field by field. */
  function Then(u: PetUpdate, v: PetUpdate): PetUpdate
  {
    PetUpdate(if v.id.Some? then v.id else u.id, if v.name.Some? then v.name else u.name,
              if v.gender.Some? then v.gender else u.gender, if v.color.Some? then v.color else u.color,
              if v.breed.Some? then v.breed else u.breed, if v.weight.Some? then v.weight else u.weight,
              if v.birthDate.Some? then v.birthDate else u.birthDate,
              if v.notes.Some? then v.notes else u.notes, if v.avatar.Some? then v.avatar else u.avatar)
  }

  /** Merging an empty update changes nothing; merging the same update
      again changes nothing more; two merges in a row are one merge of the
      combined update. */
  lemma MergedLaws(p: Pet, u: PetUpdate, v: PetUpdate)
    ensures Merged(p, NoChange) == p
    ensures Merged(Merged(p, u), u) == Merged(p, u)
    ensures Merged(Merged(p, u), v) == Merged(p, Then(u, v))
  {
  }

  /** The list after `updatePet(id, updates)`: matching pets are merged with
      the update, the others stay as they were. */
  function PetsUpdated(pets: seq<Pet>, id: string, u: PetUpdate): (r: seq<Pet>)
    ensures |r| == |pets|
    ensures forall i :: 0 <= i < |pets| && pets[i].id != id ==> r[i] == pets[i]
    ensures forall i :: 0 <= i < |pets| && pets[i].id == id ==> r[i] == Merged(pets[i], u)
  {
    MapWhere(pets, PetId, id, (p: Pet) => Merged(p, u))
  }

  /** `updatePet`: the list is updated and the editor closes. */
  function UpdatePet(pg: SettingsPage, id: string, u: PetUpdate): (r: SettingsPage)
    ensures r.pets == PetsUpdated(pg.pets, id, u) && r.editingPet == None
    ensures r.(pets := pg.pets, editingPet := pg.editingPet) == pg
  {
    pg.(pets := PetsUpdated(pg.pets, id, u), editingPet := None)
  }

  /** Every edit field of the open editor sends an update without an id, so
      the edited pet keeps its id. */
  lemma UpdateKeepsIds(pets: seq<Pet>, id: string, u: PetUpdate)
    requires u.id.None?
    ensures forall i :: 0 <= i < |pets| ==> PetsUpdated(pets, id, u)[i].id == pets[i].id
  {
  }

  /** The edit button of a pet: it closes the editor of that pet and opens
      it otherwise. */
  function EditClicked(editing: Option<string>, petId: string): (r: Option<string>)
    ensures r == None <==> editing == Some(petId)
    ensures r != None ==> r == Some(petId)
  {
    if editing == Some(petId) then None else Some(petId)
  }

  /** Two clicks on the same pet's edit button restore the editor state
      exactly when no other pet's editor was open; from another pet's
      editor they end with no editor open. */
  lemma EditClickedTwice(editing: Option<string>, petId: string)
    ensures EditClicked(EditClicked(editing, petId), petId) == editing
        <==> editing == None || editing == Some(petId)
    ensures editing != None && editing != Some(petId) ==>
      EditClicked(EditClicked(editing, petId), petId) == None
  {
  }

  function ToggleEditing(pg: SettingsPage, petId: string): (r: SettingsPage)
    ensures r.editingPet == EditClicked(pg.editingPet, petId)
    ensures r.(editingPet := pg.editingPet) == pg
  {
    pg.(editingPet := EditClicked(pg.editingPet, petId))
  }

  /** The "add pet" button opens and closes the add form. */
  function ToggleAddPetForm(pg: SettingsPage): (r: SettingsPage)
    ensures r.showAddPet == !pg.showAddPet
    ensures r.(showAddPet := pg.showAddPet) == pg
  {
    pg.(showAddPet := !pg.showAddPet)
  }

  /** The add form's cancel button closes the form; the typed values stay. */
  function CancelAddPet(pg: SettingsPage): (r: SettingsPage)
    ensures !r.showAddPet
    ensures r.(showAddPet := pg.showAddPet) == pg
  {
    pg.(showAddPet := false)
  }

  /** Cancelling and reopening the add form shows the values typed before. */
  lemma CancelKeepsDraft(pg: SettingsPage)
    ensures var r := ToggleAddPetForm(CancelAddPet(pg));
      r.showAddPet && r.newPet == pg.newPet && r.pets == pg.pets
  {
  }

  /** One input of the add form: the field it sets and the value it sends
      (the weight input's text already read as a number). */
  datatype DraftEdit = NameInput(name: string) | GenderInput(gender: Gender) | ColorInput(color: string)
                     | WeightInput(weight: real) | NotesInput(notes: string)

  /** `setNewPet((prev) => ({ ...prev, field: value }))`: the one field the
      input belongs to changes, the rest of the draft and the page stay. */
  function DraftEdited(pg: SettingsPage, e: DraftEdit): (r: SettingsPage)
    ensures r.(newPet := pg.newPet) == pg
    ensures e.NameInput? ==> r.newPet == pg.newPet.(name := e.name)
    ensures e.GenderInput? ==> r.newPet == pg.newPet.(gender := e.gender)
    ensures e.ColorInput? ==> r.newPet == pg.newPet.(color := e.color)
    ensures e.WeightInput? ==> r.newPet == pg.newPet.(weight := e.weight)
    ensures e.NotesInput? ==> r.newPet == pg.newPet.(notes := e.notes)
  {
    var d := pg.newPet;
    pg.(newPet := match e
      case NameInput(name) => d.(name := name)
      case GenderInput(gender) => d.(gender := gender)
      case ColorInput(color) => d.(color := color)
      case WeightInput(weight) => d.(weight := weight)
      case NotesInput(notes) => d.(notes := notes))
  }

  /** What is typed into the add form is what the added pet carries. */
  lemma TypedNameIsAdded(pg: SettingsPage, name: string, weight: real)
    ensures var r := AddPet(DraftEdited(DraftEdited(pg, NameInput(name)), WeightInput(weight)));
      var p := r.pets[|pg.pets|];
      p.name == name && p.weight == weight && p.gender == pg.newPet.gender && r.newPet == DefaultPetDraft
  {
    var q := DraftEdited(DraftEdited(pg, NameInput(name)), WeightInput(weight));
    assert q.pets == pg.pets;
    var p := AddPet(q).pets[|pg.pets|];
    assert DraftOf(p) == q.newPet;
  }

  // ---------------------------------------------------------- switches

  /** The `Switch` button: a click reports the negated value, and a
      disabled switch reports nothing. */
  function SwitchClick(checked: bool, disabled: bool): (r: Option<bool>)
    ensures r == None <==> disabled
    ensures r != None ==> r.value != checked
  {
    if disabled then None else Some(!checked)
  }

  function NotificationOf(n: NotificationSettings, k: NotificationKey): bool
  {
    match k
    case LowFood => n.lowFood
    case LowWater => n.lowWater
    case FeedingComplete => n.feedingComplete
    case SystemErrors => n.systemErrors
    case ScheduleReminders => n.scheduleReminders
    case MaintenanceAlerts => n.maintenanceAlerts
    case SoundEnabled => n.soundEnabled
    case PushNotifications => n.pushNotifications
  }

  /** `{ ...prev, [key]: checked }` on the notification settings. */
  function NotificationSet(n: NotificationSettings, k: NotificationKey, v: bool): (r: NotificationSettings)
    ensures NotificationOf(r, k) == v
    ensures forall j :: j != k ==> NotificationOf(r, j) == NotificationOf(n, j)
  {
    match k
    case LowFood => n.(lowFood := v)
    case LowWater => n.(lowWater := v)
    case FeedingComplete => n.(feedingComplete := v)
    case SystemErrors => n.(systemErrors := v)
    case ScheduleReminders => n.(scheduleReminders := v)
    case MaintenanceAlerts => n.(maintenanceAlerts := v)
    case SoundEnabled => n.(soundEnabled := v)
    case PushNotifications => n.(pushNotifications := v)
  }

  /** Notification settings agreeing on every key are equal. */
  lemma NotificationsByKey(n: NotificationSettings, m: NotificationSettings)
    requires forall k :: NotificationOf(n, k) == NotificationOf(m, k)
    ensures n == m
  {
    assert NotificationOf(n, LowFood) == NotificationOf(m, LowFood);
    assert NotificationOf(n, LowWater) == NotificationOf(m, LowWater);
    assert NotificationOf(n, FeedingComplete) == NotificationOf(m, FeedingComplete);
    assert NotificationOf(n, SystemErrors) == NotificationOf(m, SystemErrors);
    assert NotificationOf(n, ScheduleReminders) == NotificationOf(m, ScheduleReminders);
    assert NotificationOf(n, MaintenanceAlerts) == NotificationOf(m, MaintenanceAlerts);
    assert NotificationOf(n, SoundEnabled) == NotificationOf(m, SoundEnabled);
    assert NotificationOf(n, PushNotifications) == NotificationOf(m, PushNotifications);
  }

  /** A click on a notification switch (these switches are never disabled). */
  function NotificationSwitched(pg: SettingsPage, k: NotificationKey): (r: SettingsPage)
    ensures NotificationOf(r.notifications, k) == !NotificationOf(pg.notifications, k)
    ensures forall j :: j != k ==> NotificationOf(r.notifications, j) == NotificationOf(pg.notifications, j)
    ensures r.(notifications := pg.notifications) == pg
  {
    match SwitchClick(NotificationOf(pg.notifications, k), false)
    case Some(v) => pg.(notifications := NotificationSet(pg.notifications, k, v))
    case None => pg
  }

  /** Two clicks on the same notification switch restore the settings. */
  lemma NotificationSwitchedTwice(pg: SettingsPage, k: NotificationKey)
    ensures NotificationSwitched(NotificationSwitched(pg, k), k) == pg
  {
    var r := NotificationSwitched(NotificationSwitched(pg, k), k);
    NotificationsByKey(r.notifications, pg.notifications);
  }

  function SystemFlagOf(s: SystemSettings, f: SystemFlag): bool
  {
    match f
    case AutoUpdate => s.autoUpdate
    case DebugMode => s.debugMode
    case MaintenanceMode => s.maintenanceMode
  }

  /** `{ ...prev, [key]: checked }` on the system settings. */
  function SystemFlagSet(s: SystemSettings, f: SystemFlag, v: bool): (r: SystemSettings)
    ensures SystemFlagOf(r, f) == v
    ensures forall g :: g != f ==> SystemFlagOf(r, g) == SystemFlagOf(s, g)
    ensures r.timeZone == s.timeZone && r.language == s.language && r.units == s.units
    ensures r.dataRetention == s.dataRetention
  {
    match f
    case AutoUpdate => s.(autoUpdate := v)
    case DebugMode => s.(debugMode := v)
    case MaintenanceMode => s.(maintenanceMode := v)
  }

  /** A click on a system switch. */
  function SystemSwitched(pg: SettingsPage, f: SystemFlag): (r: SettingsPage)
    ensures SystemFlagOf(r.system, f) == !SystemFlagOf(pg.system, f)
    ensures forall g :: g != f ==> SystemFlagOf(r.system, g) == SystemFlagOf(pg.system, g)
    ensures r.(system := pg.system) == pg
  {
    match SwitchClick(SystemFlagOf(pg.system, f), false)
    case Some(v) => pg.(system := SystemFlagSet(pg.system, f, v))
    case None => pg
  }

  /** A click on the network's auto-reconnect switch. */
  function AutoReconnectSwitched(pg: SettingsPage): (r: SettingsPage)
    ensures r.network == pg.network.(autoReconnect := !pg.network.autoReconnect)
    ensures r.(network := pg.network) == pg
  {
    match SwitchClick(pg.network.autoReconnect, false)
    case Some(v) => pg.(network := pg.network.(autoReconnect := v))
    case None => pg
  }

  // ------------------------------------------------------ import / export

  /** A parsed settings document: each top-level section may be missing (or
      falsy, which the import treats the same way). */
  datatype SettingsDocument = SettingsDocument(
    pets: Option<seq<Pet>>, notifications: Option<NotificationSettings>,
    network: Option<NetworkSettings>, system: Option<SystemSettings>)

  /** What the file input delivers: no file chosen, text that does not parse
      (or that throws when its sections are read), or a parsed document. */
  datatype ImportInput = NoFile | Unparsable | Parsed(doc: SettingsDocument)

  /** The alert the import ends with. */
  datatype ImportAlert = Silent | ImportedAlert | InvalidFileAlert

  /** The import handler: each section present replaces the page's one, the
      others are untouched; a file that fails to parse changes nothing and
      raises the error alert. */
  function ImportSettings(pg: SettingsPage, input: ImportInput): (r: (SettingsPage, ImportAlert))
    ensures input.NoFile? ==> r == (pg, Silent)
    ensures input.Unparsable? ==> r == (pg, InvalidFileAlert)
    ensures input.Parsed? ==> r.1 == ImportedAlert
    ensures input.Parsed? ==>
      (input.doc.pets.Some? ==> r.0.pets == input.doc.pets.value) &&
      (input.doc.pets.None? ==> r.0.pets == pg.pets) &&
      (input.doc.notifications.Some? ==> r.0.notifications == input.doc.notifications.value) &&
      (input.doc.notifications.None? ==> r.0.notifications == pg.notifications) &&
      (input.doc.network.Some? ==> r.0.network == input.doc.network.value) &&
      (input.doc.network.None? ==> r.0.network == pg.network) &&
      (input.doc.system.Some? ==> r.0.system == input.doc.system.value) &&
      (input.doc.system.None? ==> r.0.system == pg.system)
    ensures r.0.editingPet == pg.editingPet && r.0.showAddPet == pg.showAddPet && r.0.newPet == pg.newPet
  {
    match input
    case NoFile => (pg, Silent)
    case Unparsable => (pg, InvalidFileAlert)
    case Parsed(doc) =>
      var withPets := if doc.pets.Some? then pg.(pets := doc.pets.value) else pg;
      var withNotifications := if doc.notifications.Some? then withPets.(notifications := doc.notifications.value) else withPets;
      var withNetwork := if doc.network.Some? then withNotifications.(network := doc.network.value) else withNotifications;
      var withSystem := if doc.system.Some? then withNetwork.(system := doc.system.value) else withNetwork;
      (withSystem, ImportedAlert)
  }

  /** The document `exportSettings` writes: all four sections. */
  function ExportSettings(pg: SettingsPage): (d: SettingsDocument)
    ensures d.pets.Some? && d.notifications.Some? && d.network.Some? && d.system.Some?
  {
    SettingsDocument(Some(pg.pets), Some(pg.notifications), Some(pg.network), Some(pg.system))
  }

  /** Importing an exported document brings back all four sections of the
      page it was exported from, whatever the page holds now. */
  lemma ExportImportRoundTrip(exported: SettingsPage, current: SettingsPage)
    ensures var r := ImportSettings(current, Parsed(ExportSettings(exported))).0;
      r.pets == exported.pets && r.notifications == exported.notifications &&
      r.network == exported.network && r.system == exported.system
  {
  }

  /** Importing the same document twice is the same as importing it once. */
  lemma ImportIdempotent(pg: SettingsPage, doc: SettingsDocument)
    ensures var once := ImportSettings(pg, Parsed(doc)).0;
      ImportSettings(once, Parsed(doc)).0 == once
  {
  }

  /** `resetSettings` asks for confirmation and then only logs: the page is
      the same whatever the answer. */
  function ResetSettings(pg: SettingsPage, confirmed: bool): (r: SettingsPage)
    ensures r == pg
  {
    pg
  }
}

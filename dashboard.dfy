/** The state of the dashboard page and its handlers: the five collection
    cells, the dialog cells, the five form cells and the `saving` flag, changed
    by loading, opening the dialogs, saving, deleting and toggling the paid flag.

    Each call to the store is an input of the handler that makes it: whether the
    write succeeded (`writeOk`), whether the reload succeeded (`fetchOk`), and
    `server`, the collections the store returns when asked at that moment. The
    writes the page sends are appended, in order, to `requests`. A handler runs to
    completion before the next one starts. */
module DashboardPage {
  import opened Util
  import opened Entities
  import opened Forms
  import opened Search

  datatype DialogMode = Create | Edit

  /** `deletingItem`: the record a delete confirmation is pending for. */
  datatype DeleteTarget = DeleteTarget(id: string, tab: Tab)

  /** A record handed to `openEditDialog`, tagged with its kind. */
  datatype Item =
    | KursItem(kurs: KursRecord)
    | DozentItem(dozent: DozentRecord)
    | TeilnehmerItem(teilnehmer: TeilnehmerRecord)
    | RaumItem(raum: RaumRecord)
    | AnmeldungItem(anmeldung: AnmeldungRecord)

  function ItemTab(item: Item): Tab {
    match item
    case KursItem(_) => Kurse
    case DozentItem(_) => Dozenten
    case TeilnehmerItem(_) => Teilnehmer
    case RaumItem(_) => Raeume
    case AnmeldungItem(_) => Anmeldungen
  }

  function ItemId(item: Item): string {
    match item
    case KursItem(r) => r.record_id
    case DozentItem(r) => r.record_id
    case TeilnehmerItem(r) => r.record_id
    case RaumItem(r) => r.record_id
    case AnmeldungItem(r) => r.record_id
  }

  /** The snapshot after reloading the collection of `tab` from `server`. */
  function Reload(c: Collections, tab: Tab, server: Collections): (r: Collections)
    ensures Get(r, tab) == Get(server, tab)
    ensures forall other: Tab :: other != tab ==> Get(r, other) == Get(c, other)
  {
    match tab
    case Kurse => c.(kurse := server.kurse)
    case Dozenten => c.(dozenten := server.dozenten)
    case Teilnehmer => c.(teilnehmer := server.teilnehmer)
    case Raeume => c.(raeume := server.raeume)
    case Anmeldungen => c.(anmeldungen := server.anmeldungen)
  }

  /** Reloading the same collection twice from the same answer is reloading it once. */
  lemma ReloadIdempotent(c: Collections, tab: Tab, server: Collections)
    ensures Reload(Reload(c, tab, server), tab, server) == Reload(c, tab, server)
  {
  }

  /** The writes `handleSave` sends: a create in create mode, an update of
      `editingId` in edit mode when it is set, and nothing otherwise. */
  function SaveRequests(mode: DialogMode, editingId: Option<string>, data: Payload): (r: seq<Request>)
    ensures |r| <= 1
    ensures mode == Create ==> r == [CreateEntry(data)]
    ensures mode == Edit && Truthy(editingId) ==> r == [UpdateEntry(editingId.value, data)]
    ensures mode == Edit && !Truthy(editingId) ==> r == []
  {
    if mode == Create then [CreateEntry(data)]
    else if Truthy(editingId) then [UpdateEntry(editingId.value, data)]
    else []
  }

  /** `handleSave` reaches its reload and `setDialogOpen(false)`: the write, if
      one is sent, succeeded, and so did the reload. */
  predicate SaveSucceeds(mode: DialogMode, editingId: Option<string>, writeOk: bool, fetchOk: bool) {
    (writeOk || (mode == Edit && !Truthy(editingId))) && fetchOk
  }

  class Dashboard {
    const env: Env

    var activeTab: Tab
    var searchQuery: string

    var kurse: seq<KursRecord>
    var dozenten: seq<DozentRecord>
    var teilnehmer: seq<TeilnehmerRecord>
    var raeume: seq<RaumRecord>
    var anmeldungen: seq<AnmeldungRecord>

    var dialogOpen: bool
    var dialogMode: DialogMode
    var editingId: Option<string>
    var deleteDialogOpen: bool
    var deletingItem: Option<DeleteTarget>
    var saving: bool

    var kursForm: KursForm
    var dozentForm: DozentForm
    var teilnehmerForm: TeilnehmerForm
    var raumForm: RaumForm
    var anmeldungForm: AnmeldungForm

    /** The writes sent to the store so far, oldest first. */
    var requests: seq<Request>

    /** Between handlers `saving` is clear, and an identifier is being edited
        exactly when the dialog is in edit mode. */
    ghost predicate Valid()
      reads this
    {
      !saving && (dialogMode == Edit <==> editingId.Some?)
    }

    function Snapshot(): Collections
      reads this
    {
      Collections(kurse, dozenten, teilnehmer, raeume, anmeldungen)
    }

    function Forms(): FormSet
      reads this
    {
      FormSet(kursForm, dozentForm, teilnehmerForm, raumForm, anmeldungForm)
    }

    /** The initial state of the component, before anything is loaded. */
    constructor (env: Env)
      ensures Valid()
      ensures this.env == env
      ensures activeTab == Kurse && searchQuery == ""
      ensures Snapshot() == Collections([], [], [], [], [])
      ensures !dialogOpen && dialogMode == Create && editingId == None
      ensures !deleteDialogOpen && deletingItem == None
      ensures Forms() == FormSet(EmptyKursForm, EmptyDozentForm, EmptyTeilnehmerForm, EmptyRaumForm,
                                 AnmeldungForm("", "", "", false))
      ensures requests == []
    {
      this.env := env;
      activeTab := Kurse;
      searchQuery := "";
      kurse, dozenten, teilnehmer, raeume, anmeldungen := [], [], [], [], [];
      dialogOpen, dialogMode, editingId := false, Create, None;
      deleteDialogOpen, deletingItem, saving := false, None, false;
      kursForm, dozentForm, teilnehmerForm, raumForm := EmptyKursForm, EmptyDozentForm, EmptyTeilnehmerForm, EmptyRaumForm;
      anmeldungForm := AnmeldungForm("", "", "", false);
      requests := [];
    }

    /** `loadAllData`: all five collections are replaced when every fetch
        succeeds (`fetchOk`), and none otherwise. */
    method LoadAllData(fetchOk: bool, server: Collections)
      requires Valid()
      modifies this`kurse, this`dozenten, this`teilnehmer, this`raeume, this`anmeldungen
      ensures Valid()
      ensures Snapshot() == if fetchOk then server else old(Snapshot())
    {
      if fetchOk {
        kurse := server.kurse;
        dozenten := server.dozenten;
        teilnehmer := server.teilnehmer;
        raeume := server.raeume;
        anmeldungen := server.anmeldungen;
      }
    }

    /** Switching tabs clears the search text. */
    method SelectTab(tab: Tab)
      requires Valid()
      modifies this`activeTab, this`searchQuery
      ensures Valid()
      ensures activeTab == tab && searchQuery == ""
    {
      activeTab := tab;
      searchQuery := "";
    }

    method SetSearchQuery(query: string)
      requires Valid()
      modifies this`searchQuery
      ensures Valid()
      ensures searchQuery == query
    {
      searchQuery := query;
    }

    /** `resetForms`; the enrollment date defaults to `today`. */
    method ResetForms(today: string)
      requires Valid()
      modifies this`kursForm, this`dozentForm, this`teilnehmerForm, this`raumForm, this`anmeldungForm
      ensures Valid()
      ensures Forms() == ResetFormSet(today)
    {
      kursForm := EmptyKursForm;
      dozentForm := EmptyDozentForm;
      teilnehmerForm := EmptyTeilnehmerForm;
      raumForm := EmptyRaumForm;
      anmeldungForm := AnmeldungForm("", "", today, false);
    }

    method OpenCreateDialog(today: string)
      requires Valid()
      modifies this`dialogMode, this`editingId, this`dialogOpen
      modifies this`kursForm, this`dozentForm, this`teilnehmerForm, this`raumForm, this`anmeldungForm
      ensures Valid()
      ensures dialogMode == Create && editingId == None && dialogOpen
      ensures Forms() == ResetFormSet(today)
    {
      dialogMode := Create;
      editingId := None;
      ResetForms(today);
      dialogOpen := true;
    }

    /** `openEditDialog`: edit mode for the item's identifier, the item's tab made
        active, and only that tab's form filled in from the item's fields. */
    method OpenEditDialog(item: Item)
      requires Valid()
      modifies this`dialogMode, this`editingId, this`activeTab, this`dialogOpen
      modifies this`kursForm, this`dozentForm, this`teilnehmerForm, this`raumForm, this`anmeldungForm
      ensures Valid()
      ensures dialogMode == Edit && editingId == Some(ItemId(item)) && dialogOpen
      ensures activeTab == ItemTab(item)
      ensures kursForm == if item.KursItem? then KursFormOf(item.kurs.fields, env) else old(kursForm)
      ensures dozentForm == if item.DozentItem? then DozentFormOf(item.dozent.fields) else old(dozentForm)
      ensures teilnehmerForm == if item.TeilnehmerItem? then TeilnehmerFormOf(item.teilnehmer.fields) else old(teilnehmerForm)
      ensures raumForm == if item.RaumItem? then RaumFormOf(item.raum.fields, env) else old(raumForm)
      ensures anmeldungForm == if item.AnmeldungItem? then AnmeldungFormOf(item.anmeldung.fields, env) else old(anmeldungForm)
    {
      dialogMode := Edit;
      editingId := Some(ItemId(item));
      activeTab := ItemTab(item);
      match item {
        case KursItem(k) => kursForm := KursFormOf(k.fields, env);
        case DozentItem(d) => dozentForm := DozentFormOf(d.fields);
        case TeilnehmerItem(t) => teilnehmerForm := TeilnehmerFormOf(t.fields);
        case RaumItem(r) => raumForm := RaumFormOf(r.fields, env);
        case AnmeldungItem(a) => anmeldungForm := AnmeldungFormOf(a.fields, env);
      }
      dialogOpen := true;
    }

    /** Replaces the collection of `tab` with the one `server` holds. */
    method ReloadCollection(tab: Tab, server: Collections)
      modifies this`kurse, this`dozenten, this`teilnehmer, this`raeume, this`anmeldungen
      ensures Snapshot() == Reload(old(Snapshot()), tab, server)
    {
      match tab {
        case Kurse => kurse := server.kurse;
        case Dozenten => dozenten := server.dozenten;
        case Teilnehmer => teilnehmer := server.teilnehmer;
        case Raeume => raeume := server.raeume;
        case Anmeldungen => anmeldungen := server.anmeldungen;
      }
    }

    /** `handleSave`: sends the active tab's payload as a create or an update, then
        reloads that one collection and closes the dialog; a failed write or reload
        leaves every collection and the dialog as they were. `saving` is clear
        afterwards either way. */
    method HandleSave(writeOk: bool, fetchOk: bool, server: Collections)
      requires Valid()
      modifies this`saving, this`dialogOpen, this`requests
      modifies this`kurse, this`dozenten, this`teilnehmer, this`raeume, this`anmeldungen
      ensures Valid() && !saving
      ensures requests == old(requests) + SaveRequests(dialogMode, editingId, BuildPayload(activeTab, Forms(), env))
      ensures SaveSucceeds(dialogMode, editingId, writeOk, fetchOk) ==>
                Snapshot() == Reload(old(Snapshot()), activeTab, server) && !dialogOpen
      ensures !SaveSucceeds(dialogMode, editingId, writeOk, fetchOk) ==>
                Snapshot() == old(Snapshot()) && dialogOpen == old(dialogOpen)
    {
      saving := true;
      var data := BuildPayload(activeTab, Forms(), env);
      var failed := false;
      if dialogMode == Create {
        requests := requests + [CreateEntry(data)];
        failed := !writeOk;
      } else if Truthy(editingId) {
        requests := requests + [UpdateEntry(editingId.value, data)];
        failed := !writeOk;
      }
      if !failed && fetchOk {
        ReloadCollection(activeTab, server);
        dialogOpen := false;
      }
      saving := false;
    }

    /** `confirmDelete` */
    method ConfirmDelete(id: string, tab: Tab)
      requires Valid()
      modifies this`deletingItem, this`deleteDialogOpen
      ensures Valid()
      ensures deletingItem == Some(DeleteTarget(id, tab)) && deleteDialogOpen
    {
      deletingItem := Some(DeleteTarget(id, tab));
      deleteDialogOpen := true;
    }

    /** `handleDelete`: without a pending item nothing happens; otherwise the
        delete is sent, and on success of the delete and the reload exactly that
        item's collection is replaced and the confirmation is dismissed. */
    method HandleDelete(writeOk: bool, fetchOk: bool, server: Collections)
      requires Valid()
      modifies this`saving, this`deleteDialogOpen, this`deletingItem, this`requests
      modifies this`kurse, this`dozenten, this`teilnehmer, this`raeume, this`anmeldungen
      ensures Valid() && !saving
      ensures old(deletingItem).None? ==>
                requests == old(requests) && Snapshot() == old(Snapshot())
                && deleteDialogOpen == old(deleteDialogOpen) && deletingItem == old(deletingItem)
      ensures old(deletingItem).Some? ==>
                var target := old(deletingItem).value;
                && requests == old(requests) + [DeleteEntry(target.tab, target.id)]
                && (writeOk && fetchOk ==>
                      Snapshot() == Reload(old(Snapshot()), target.tab, server)
                      && !deleteDialogOpen && deletingItem == None)
                && (!(writeOk && fetchOk) ==>
                      Snapshot() == old(Snapshot())
                      && deleteDialogOpen == old(deleteDialogOpen) && deletingItem == old(deletingItem))
    {
      if deletingItem.None? {
        return;
      }
      saving := true;
      var target := deletingItem.value;
      requests := requests + [DeleteEntry(target.tab, target.id)];
      if writeOk && fetchOk {
        ReloadCollection(target.tab, server);
        deleteDialogOpen := false;
        deletingItem := None;
      }
      saving := false;
    }

    /** `toggleBezahlt`: sends only the negated paid flag of `a` and, on success,
        reloads the enrollments. It does not touch `saving`. */
    method ToggleBezahlt(a: AnmeldungRecord, writeOk: bool, fetchOk: bool, server: Collections)
      requires Valid()
      modifies this`anmeldungen, this`requests
      ensures Valid()
      ensures requests == old(requests) + [UpdateEntry(a.record_id, AnmeldungData(TogglePayload(a)))]
      ensures Snapshot() == if writeOk && fetchOk then Reload(old(Snapshot()), Anmeldungen, server) else old(Snapshot())
    {
      requests := requests + [UpdateEntry(a.record_id, AnmeldungData(TogglePayload(a)))];
      if writeOk && fetchOk {
        anmeldungen := server.anmeldungen;
      }
    }

    /** The rows each tab shows for the current search text. */
    function FilteredKurse(): (r: seq<KursRecord>)
      reads this
      ensures searchQuery == "" ==> r == kurse
      ensures IsSubsequence(r, kurse)
      ensures searchQuery != "" ==> forall i | 0 <= i < |r| :: AnyFieldMatches(r[i], KursSearchFields, env.lower(searchQuery), env.lower)
      ensures searchQuery != "" ==> forall i | 0 <= i < |kurse| && AnyFieldMatches(kurse[i], KursSearchFields, env.lower(searchQuery), env.lower) ::
                multiset(r)[kurse[i]] == multiset(kurse)[kurse[i]]
    {
      FilterData(kurse, searchQuery, KursSearchFields, env.lower)
    }

    function FilteredDozenten(): (r: seq<DozentRecord>)
      reads this
      ensures searchQuery == "" ==> r == dozenten
      ensures IsSubsequence(r, dozenten)
      ensures searchQuery != "" ==> forall i | 0 <= i < |r| :: AnyFieldMatches(r[i], DozentSearchFields, env.lower(searchQuery), env.lower)
      ensures searchQuery != "" ==> forall i | 0 <= i < |dozenten| && AnyFieldMatches(dozenten[i], DozentSearchFields, env.lower(searchQuery), env.lower) ::
                multiset(r)[dozenten[i]] == multiset(dozenten)[dozenten[i]]
    {
      FilterData(dozenten, searchQuery, DozentSearchFields, env.lower)
    }

    function FilteredTeilnehmer(): (r: seq<TeilnehmerRecord>)
      reads this
      ensures searchQuery == "" ==> r == teilnehmer
      ensures IsSubsequence(r, teilnehmer)
      ensures searchQuery != "" ==> forall i | 0 <= i < |r| :: AnyFieldMatches(r[i], TeilnehmerSearchFields, env.lower(searchQuery), env.lower)
      ensures searchQuery != "" ==> forall i | 0 <= i < |teilnehmer| && AnyFieldMatches(teilnehmer[i], TeilnehmerSearchFields, env.lower(searchQuery), env.lower) ::
                multiset(r)[teilnehmer[i]] == multiset(teilnehmer)[teilnehmer[i]]
    {
      FilterData(teilnehmer, searchQuery, TeilnehmerSearchFields, env.lower)
    }

    function FilteredRaeume(): (r: seq<RaumRecord>)
      reads this
      ensures searchQuery == "" ==> r == raeume
      ensures IsSubsequence(r, raeume)
      ensures searchQuery != "" ==> forall i | 0 <= i < |r| :: AnyFieldMatches(r[i], RaumSearchFields, env.lower(searchQuery), env.lower)
      ensures searchQuery != "" ==> forall i | 0 <= i < |raeume| && AnyFieldMatches(raeume[i], RaumSearchFields, env.lower(searchQuery), env.lower) ::
                multiset(r)[raeume[i]] == multiset(raeume)[raeume[i]]
    {
      FilterData(raeume, searchQuery, RaumSearchFields, env.lower)
    }

    function FilteredAnmeldungenView(): (r: seq<AnmeldungRecord>)
      reads this
      ensures searchQuery == "" ==> r == anmeldungen
      ensures IsSubsequence(r, anmeldungen)
      ensures forall i | 0 <= i < |r| :: AnmeldungMatches(r[i], Snapshot(), searchQuery, env)
      ensures forall i | 0 <= i < |anmeldungen| && AnmeldungMatches(anmeldungen[i], Snapshot(), searchQuery, env) ::
                multiset(r)[anmeldungen[i]] == multiset(anmeldungen)[anmeldungen[i]]
    {
      FilteredAnmeldungen(Snapshot(), searchQuery, env)
    }
  }
}

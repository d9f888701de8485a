/** The five edit forms, the mapping of a stored record into its form
    (`openEditDialog`), the defaults (`resetForms`), the write payloads built
    from a form (the `data` objects of `handleSave`) and the requests the page
    sends to the store. A form holds only texts (and the paid flag); a payload
    is a field bag in which `None` is a field left `undefined`. */
module Forms {
  import opened Util
  import opened Entities

  datatype KursForm = KursForm(
    titel: string, beschreibung: string, startdatum: string, enddatum: string,
    max_teilnehmer: string, preis: string, dozent: string, raum: string)
  datatype DozentForm = DozentForm(name: string, email: string, telefon: string, fachgebiet: string)
  datatype TeilnehmerForm = TeilnehmerForm(name: string, email: string, telefon: string, geburtsdatum: string)
  datatype RaumForm = RaumForm(raumname: string, gebaeude: string, kapazitaet: string)
  datatype AnmeldungForm = AnmeldungForm(teilnehmer: string, kurs: string, anmeldedatum: string, bezahlt: bool)

  /** The five form cells together. */
  datatype FormSet = FormSet(
    kurs: KursForm, dozent: DozentForm, teilnehmer: TeilnehmerForm, raum: RaumForm, anmeldung: AnmeldungForm)

  const EmptyKursForm := KursForm("", "", "", "", "", "", "", "")
  const EmptyDozentForm := DozentForm("", "", "", "")
  const EmptyTeilnehmerForm := TeilnehmerForm("", "", "", "")
  const EmptyRaumForm := RaumForm("", "", "")

  /** The forms `resetForms` installs; the enrollment date defaults to `today`. */
  function ResetFormSet(today: string): (r: FormSet)
    ensures r.anmeldung.anmeldedatum == today && !r.anmeldung.bezahlt
    ensures r.anmeldung.teilnehmer == "" && r.anmeldung.kurs == ""
    ensures r.kurs == EmptyKursForm && r.dozent == EmptyDozentForm
    ensures r.teilnehmer == EmptyTeilnehmerForm && r.raum == EmptyRaumForm
  {
    FormSet(EmptyKursForm, EmptyDozentForm, EmptyTeilnehmerForm, EmptyRaumForm, AnmeldungForm("", "", today, false))
  }

  // ---- record -> form (openEditDialog) ----

  /** The form shows a text field as its text, and a missing one as empty. */
  predicate ShowsText(o: Option<string>, t: string) {
    (o.Some? ==> t == o.value) && (o.None? ==> t == "")
  }

  /** The form shows a number as its printed numeral, and a missing one as empty. */
  predicate ShowsNumber(o: Option<int>, t: string, env: Env) {
    (o.Some? ==> t == env.showNumber(o.value)) && (o.None? ==> t == "")
  }

  /** A selection widget shows the identifier the locator decodes to, and nothing
      when there is no locator or it does not decode. */
  predicate ShowsSelection(o: Option<string>, t: string, env: Env) {
    var id := env.extractRecordId(o);
    (id.Some? ==> t == id.value) && (id.None? ==> t == "")
  }

  /** A text field as the form shows it. */
  function TextOf(o: Option<string>): (t: string)
    ensures ShowsText(o, t)
  {
    o.GetOr("")
  }

  /** A numeric field as the form shows it. */
  function NumberTextOf(o: Option<int>, env: Env): (t: string)
    ensures ShowsNumber(o, t, env)
  {
    match o
    case None => ""
    case Some(n) => env.showNumber(n)
  }

  /** A reference as its selection widget shows it: the plain identifier. */
  function SelectedIdOf(o: Option<string>, env: Env): (t: string)
    ensures ShowsSelection(o, t, env)
    ensures CodecLaws(env) && o.None? ==> t == ""
  {
    env.extractRecordId(o).GetOr("")
  }

  /** The course form `openEditDialog` fills in from a stored course. */
  function KursFormOf(f: KursFields, env: Env): (r: KursForm)
    ensures ShowsText(f.titel, r.titel) && ShowsText(f.beschreibung, r.beschreibung)
    ensures ShowsText(f.startdatum, r.startdatum) && ShowsText(f.enddatum, r.enddatum)
    ensures ShowsNumber(f.max_teilnehmer, r.max_teilnehmer, env) && ShowsNumber(f.preis, r.preis, env)
    ensures ShowsSelection(f.dozent, r.dozent, env) && ShowsSelection(f.raum, r.raum, env)
  {
    KursForm(TextOf(f.titel), TextOf(f.beschreibung), TextOf(f.startdatum), TextOf(f.enddatum),
             NumberTextOf(f.max_teilnehmer, env), NumberTextOf(f.preis, env),
             SelectedIdOf(f.dozent, env), SelectedIdOf(f.raum, env))
  }

  /** The instructor form filled in from a stored instructor. */
  function DozentFormOf(f: DozentFields): (r: DozentForm)
    ensures ShowsText(f.name, r.name) && ShowsText(f.email, r.email)
    ensures ShowsText(f.telefon, r.telefon) && ShowsText(f.fachgebiet, r.fachgebiet)
  {
    DozentForm(TextOf(f.name), TextOf(f.email), TextOf(f.telefon), TextOf(f.fachgebiet))
  }

  /** The participant form filled in from a stored participant. */
  function TeilnehmerFormOf(f: TeilnehmerFields): (r: TeilnehmerForm)
    ensures ShowsText(f.name, r.name) && ShowsText(f.email, r.email)
    ensures ShowsText(f.telefon, r.telefon) && ShowsText(f.geburtsdatum, r.geburtsdatum)
  {
    TeilnehmerForm(TextOf(f.name), TextOf(f.email), TextOf(f.telefon), TextOf(f.geburtsdatum))
  }

  /** The room form filled in from a stored room. */
  function RaumFormOf(f: RaumFields, env: Env): (r: RaumForm)
    ensures ShowsText(f.raumname, r.raumname) && ShowsText(f.gebaeude, r.gebaeude)
    ensures ShowsNumber(f.kapazitaet, r.kapazitaet, env)
  {
    RaumForm(TextOf(f.raumname), TextOf(f.gebaeude), NumberTextOf(f.kapazitaet, env))
  }

  /** The enrollment form filled in from a stored enrollment; a missing paid
      flag shows as unpaid. */
  function AnmeldungFormOf(f: AnmeldungFields, env: Env): (r: AnmeldungForm)
    ensures ShowsSelection(f.teilnehmer, r.teilnehmer, env) && ShowsSelection(f.kurs, r.kurs, env)
    ensures ShowsText(f.anmeldedatum, r.anmeldedatum)
    ensures r.bezahlt <==> f.bezahlt == Some(true)
  {
    AnmeldungForm(SelectedIdOf(f.teilnehmer, env), SelectedIdOf(f.kurs, env), TextOf(f.anmeldedatum),
                  f.bezahlt.GetOr(false))
  }

  // ---- form -> payload (handleSave) ----

  /** An optional text is sent only when it is non-empty. */
  function OptionalText(s: string): (r: Option<string>)
    ensures r.None? <==> s == ""
    ensures r.Some? ==> r.value == s
  {
    if s == "" then None else Some(s)
  }

  /** An optional number is sent, converted by `Number`, only when its text is non-empty. */
  function OptionalNumber(s: string, env: Env): (r: Option<int>)
    ensures r.None? <==> s == ""
    ensures r.Some? ==> r.value == env.toNumber(s)
  {
    if s == "" then None else Some(env.toNumber(s))
  }

  /** A reference is sent, encoded as a locator of kind `app`, only when an
      identifier is selected. */
  function OptionalRef(app: Tab, id: string, env: Env): (r: Option<string>)
    ensures r.None? <==> id == ""
    ensures r.Some? ==> r.value == env.createRecordUrl(app, id)
    ensures CodecLaws(env) && id != "" ==> Truthy(r) && env.extractRecordId(r) == Some(id)
  {
    if id == "" then None else Some(env.createRecordUrl(app, id))
  }

  /** The course payload: title and dates are always sent, the optional texts
      and numbers only when filled in, and an instructor or room only when one is
      selected, encoded as a locator of that kind. */
  function KursPayload(f: KursForm, env: Env): (r: KursFields)
    ensures r.titel == Some(f.titel) && r.startdatum == Some(f.startdatum) && r.enddatum == Some(f.enddatum)
    ensures r.beschreibung.None? <==> f.beschreibung == ""
    ensures f.beschreibung != "" ==> r.beschreibung == Some(f.beschreibung)
    ensures r.max_teilnehmer.None? <==> f.max_teilnehmer == ""
    ensures f.max_teilnehmer != "" ==> r.max_teilnehmer == Some(env.toNumber(f.max_teilnehmer))
    ensures r.preis.None? <==> f.preis == ""
    ensures f.preis != "" ==> r.preis == Some(env.toNumber(f.preis))
    ensures r.dozent.None? <==> f.dozent == ""
    ensures f.dozent != "" ==> r.dozent == Some(env.createRecordUrl(Dozenten, f.dozent))
    ensures r.raum.None? <==> f.raum == ""
    ensures f.raum != "" ==> r.raum == Some(env.createRecordUrl(Raeume, f.raum))
    ensures CodecLaws(env) && f.dozent != "" ==> env.extractRecordId(r.dozent) == Some(f.dozent)
    ensures CodecLaws(env) && f.raum != "" ==> env.extractRecordId(r.raum) == Some(f.raum)
  {
    KursFields(Some(f.titel), OptionalText(f.beschreibung), Some(f.startdatum), Some(f.enddatum),
               OptionalNumber(f.max_teilnehmer, env), OptionalNumber(f.preis, env),
               OptionalRef(Dozenten, f.dozent, env), OptionalRef(Raeume, f.raum, env))
  }

  function DozentPayload(f: DozentForm): (r: DozentFields)
    ensures r.name == Some(f.name) && r.email == Some(f.email)
    ensures r.telefon.None? <==> f.telefon == ""
    ensures f.telefon != "" ==> r.telefon == Some(f.telefon)
    ensures r.fachgebiet.None? <==> f.fachgebiet == ""
    ensures f.fachgebiet != "" ==> r.fachgebiet == Some(f.fachgebiet)
  {
    DozentFields(Some(f.name), Some(f.email), OptionalText(f.telefon), OptionalText(f.fachgebiet))
  }

  function TeilnehmerPayload(f: TeilnehmerForm): (r: TeilnehmerFields)
    ensures r.name == Some(f.name) && r.email == Some(f.email)
    ensures r.telefon.None? <==> f.telefon == ""
    ensures f.telefon != "" ==> r.telefon == Some(f.telefon)
    ensures r.geburtsdatum.None? <==> f.geburtsdatum == ""
    ensures f.geburtsdatum != "" ==> r.geburtsdatum == Some(f.geburtsdatum)
  {
    TeilnehmerFields(Some(f.name), Some(f.email), OptionalText(f.telefon), OptionalText(f.geburtsdatum))
  }

  function RaumPayload(f: RaumForm, env: Env): (r: RaumFields)
    ensures r.raumname == Some(f.raumname)
    ensures r.gebaeude.None? <==> f.gebaeude == ""
    ensures f.gebaeude != "" ==> r.gebaeude == Some(f.gebaeude)
    ensures r.kapazitaet.None? <==> f.kapazitaet == ""
    ensures f.kapazitaet != "" ==> r.kapazitaet == Some(env.toNumber(f.kapazitaet))
  {
    RaumFields(Some(f.raumname), OptionalText(f.gebaeude), OptionalNumber(f.kapazitaet, env))
  }

  /** The enrollment payload encodes both references unconditionally, so an empty
      selection is sent as the locator of the empty identifier. */
  function AnmeldungPayload(f: AnmeldungForm, env: Env): (r: AnmeldungFields)
    ensures r.teilnehmer == Some(env.createRecordUrl(Teilnehmer, f.teilnehmer))
    ensures r.kurs == Some(env.createRecordUrl(Kurse, f.kurs))
    ensures r.anmeldedatum == Some(f.anmeldedatum) && r.bezahlt == Some(f.bezahlt)
    ensures CodecLaws(env) ==> env.extractRecordId(r.teilnehmer) == Some(f.teilnehmer)
    ensures CodecLaws(env) ==> env.extractRecordId(r.kurs) == Some(f.kurs)
  {
    AnmeldungFields(Some(env.createRecordUrl(Teilnehmer, f.teilnehmer)), Some(env.createRecordUrl(Kurse, f.kurs)),
                    Some(f.anmeldedatum), Some(f.bezahlt))
  }

  /** The payload of `toggleBezahlt`: only the negated paid flag, where a missing
      flag counts as unpaid. */
  function TogglePayload(a: AnmeldungRecord): (r: AnmeldungFields)
    ensures r.teilnehmer.None? && r.kurs.None? && r.anmeldedatum.None?
    ensures r.bezahlt.Some? && r.bezahlt.value == (a.fields.bezahlt != Some(true))
  {
    AnmeldungFields(None, None, None, Some(!a.fields.bezahlt.GetOr(false)))
  }

  // ---- requests ----

  /** A write payload, tagged by the kind of record it is for. */
  datatype Payload =
    | KursData(kurs: KursFields)
    | DozentData(dozent: DozentFields)
    | TeilnehmerData(teilnehmer: TeilnehmerFields)
    | RaumData(raum: RaumFields)
    | AnmeldungData(anmeldung: AnmeldungFields)

  function PayloadTab(p: Payload): Tab {
    match p
    case KursData(_) => Kurse
    case DozentData(_) => Dozenten
    case TeilnehmerData(_) => Teilnehmer
    case RaumData(_) => Raeume
    case AnmeldungData(_) => Anmeldungen
  }

  /** A write the page sends to the store: `createXEntry`, `updateXEntry`, `deleteXEntry`. */
  datatype Request =
    | CreateEntry(data: Payload)
    | UpdateEntry(id: string, data: Payload)
    | DeleteEntry(tab: Tab, id: string)

  /** The `data` object `handleSave` builds for the active tab. */
  function BuildPayload(tab: Tab, forms: FormSet, env: Env): (r: Payload)
    ensures PayloadTab(r) == tab
  {
    match tab
    case Kurse => KursData(KursPayload(forms.kurs, env))
    case Dozenten => DozentData(DozentPayload(forms.dozent))
    case Teilnehmer => TeilnehmerData(TeilnehmerPayload(forms.teilnehmer))
    case Raeume => RaumData(RaumPayload(forms.raum, env))
    case Anmeldungen => AnmeldungData(AnmeldungPayload(forms.anmeldung, env))
  }

  // ---- round trips ----

  /** The numeral `s` is what `Number.prototype.toString` prints for `Number(s)`. */
  ghost predicate CanonicalNumeral(s: string, env: Env) {
    s != "" ==> env.showNumber(env.toNumber(s)) == s
  }

  /** Editing a course stored exactly as its payload shows the form it was saved from. */
  lemma KursFormRoundTrip(f: KursForm, env: Env)
    requires CodecLaws(env)
    requires CanonicalNumeral(f.max_teilnehmer, env) && CanonicalNumeral(f.preis, env)
    ensures KursFormOf(KursPayload(f, env), env) == f
  {
  }

  lemma DozentFormRoundTrip(f: DozentForm)
    ensures DozentFormOf(DozentPayload(f)) == f
  {
  }

  lemma TeilnehmerFormRoundTrip(f: TeilnehmerForm)
    ensures TeilnehmerFormOf(TeilnehmerPayload(f)) == f
  {
  }

  lemma RaumFormRoundTrip(f: RaumForm, env: Env)
    requires CanonicalNumeral(f.kapazitaet, env)
    ensures RaumFormOf(RaumPayload(f, env), env) == f
  {
  }

  /** The round trip holds for an enrollment even with an empty selection,
      because the empty identifier is encoded and decoded like any other. */
  lemma AnmeldungFormRoundTrip(f: AnmeldungForm, env: Env)
    requires CodecLaws(env)
    ensures AnmeldungFormOf(AnmeldungPayload(f, env), env) == f
  {
  }

  /** Saving a form and editing the result again is the identity for every tab. */
  lemma SavedFormsRoundTrip(tab: Tab, forms: FormSet, env: Env)
    requires CodecLaws(env)
    requires CanonicalNumeral(forms.kurs.max_teilnehmer, env) && CanonicalNumeral(forms.kurs.preis, env)
    requires CanonicalNumeral(forms.raum.kapazitaet, env)
    ensures match BuildPayload(tab, forms, env)
            case KursData(k) => KursFormOf(k, env) == forms.kurs
            case DozentData(d) => DozentFormOf(d) == forms.dozent
            case TeilnehmerData(t) => TeilnehmerFormOf(t) == forms.teilnehmer
            case RaumData(r) => RaumFormOf(r, env) == forms.raum
            case AnmeldungData(a) => AnmeldungFormOf(a, env) == forms.anmeldung
  {
    match tab
    case Kurse => KursFormRoundTrip(forms.kurs, env);
    case Dozenten => DozentFormRoundTrip(forms.dozent);
    case Teilnehmer => TeilnehmerFormRoundTrip(forms.teilnehmer);
    case Raeume => RaumFormRoundTrip(forms.raum, env);
    case Anmeldungen => AnmeldungFormRoundTrip(forms.anmeldung, env);
  }

  /** Saving an instructor's edit form unchanged sends the stored fields again,
      provided the stored record has the required fields and no empty optional text. */
  lemma DozentResaveUnchanged(f: DozentFields)
    requires f.name.Some? && f.email.Some?
    requires f.telefon != Some("") && f.fachgebiet != Some("")
    ensures DozentPayload(DozentFormOf(f)) == f
  {
  }

  /** The same for a participant. */
  lemma TeilnehmerResaveUnchanged(f: TeilnehmerFields)
    requires f.name.Some? && f.email.Some?
    requires f.telefon != Some("") && f.geburtsdatum != Some("")
    ensures TeilnehmerPayload(TeilnehmerFormOf(f)) == f
  {
  }
}

/** The records of the course store as the dashboard receives them, the five
    collections it holds, and the foreign operations it depends on.

    Every record is a store-assigned `record_id` and a bag of optional fields.
    A reference from one record to another is an opaque locator text; only the
    store client can decode it into an identifier or encode one. */
module Entities {
  import opened Util

  datatype Record<F> = Record(record_id: string, fields: F)

  /** A course. `dozent` and `raum` are locators of an instructor and a room. */
  datatype KursFields = KursFields(
    titel: Option<string>,
    beschreibung: Option<string>,
    startdatum: Option<string>,
    enddatum: Option<string>,
    max_teilnehmer: Option<int>,
    preis: Option<int>,
    dozent: Option<string>,
    raum: Option<string>)

  /** An instructor. */
  datatype DozentFields = DozentFields(
    name: Option<string>,
    email: Option<string>,
    telefon: Option<string>,
    fachgebiet: Option<string>)

  /** A participant. */
  datatype TeilnehmerFields = TeilnehmerFields(
    name: Option<string>,
    email: Option<string>,
    telefon: Option<string>,
    geburtsdatum: Option<string>)

  /** A room. */
  datatype RaumFields = RaumFields(
    raumname: Option<string>,
    gebaeude: Option<string>,
    kapazitaet: Option<int>)

  /** An enrollment. `teilnehmer` and `kurs` are locators of a participant and a course. */
  datatype AnmeldungFields = AnmeldungFields(
    teilnehmer: Option<string>,
    kurs: Option<string>,
    anmeldedatum: Option<string>,
    bezahlt: Option<bool>)

  type KursRecord = Record<KursFields>
  type DozentRecord = Record<DozentFields>
  type TeilnehmerRecord = Record<TeilnehmerFields>
  type RaumRecord = Record<RaumFields>
  type AnmeldungRecord = Record<AnmeldungFields>

  /** The five entity kinds; a tab of the page, and the application a locator points into. */
  datatype Tab = Kurse | Dozenten | Teilnehmer | Raeume | Anmeldungen

  /** One snapshot of each of the five collections. */
  datatype Collections = Collections(
    kurse: seq<KursRecord>,
    dozenten: seq<DozentRecord>,
    teilnehmer: seq<TeilnehmerRecord>,
    raeume: seq<RaumRecord>,
    anmeldungen: seq<AnmeldungRecord>)

  /** The collection of one kind, tagged with its kind. */
  datatype Table =
    | KursTable(kurse: seq<KursRecord>)
    | DozentTable(dozenten: seq<DozentRecord>)
    | TeilnehmerTable(teilnehmer: seq<TeilnehmerRecord>)
    | RaumTable(raeume: seq<RaumRecord>)
    | AnmeldungTable(anmeldungen: seq<AnmeldungRecord>)

  function Get(c: Collections, tab: Tab): Table {
    match tab
    case Kurse => KursTable(c.kurse)
    case Dozenten => DozentTable(c.dozenten)
    case Teilnehmer => TeilnehmerTable(c.teilnehmer)
    case Raeume => RaumTable(c.raeume)
    case Anmeldungen => AnmeldungTable(c.anmeldungen)
  }

  /** The operations the dashboard borrows from the platform and the store client:
      - `lower`: `String.prototype.toLowerCase`;
      - `parseDate`: `new Date(text)` as a time value, `None` for an invalid date;
      - `toNumber`: `Number(text)`;
      - `showNumber`: `Number.prototype.toString`;
      - `extractRecordId`: decodes a locator (or `undefined`) into an identifier or `null`;
      - `createRecordUrl`: encodes the identifier of a record of the given kind as a locator. */
  datatype Env = Env(
    lower: string -> string,
    parseDate: string -> Option<int>,
    toNumber: string -> int,
    showNumber: int -> string,
    extractRecordId: Option<string> -> Option<string>,
    createRecordUrl: (Tab, string) -> string)

  /** What the model assumes of the store client's locator codec, and uses only
      where a lemma says so: decoding an encoded identifier gives it back, an
      encoded locator is never empty, and decoding `undefined` gives `null`. */
  ghost predicate CodecLaws(env: Env) {
    && (forall app, id :: env.extractRecordId(Some(env.createRecordUrl(app, id))) == Some(id))
    && (forall app, id :: env.createRecordUrl(app, id) != "")
    && env.extractRecordId(None) == None
  }

  /** No two rows of a collection share a `record_id`. */
  predicate UniqueIds<F>(rows: seq<Record<F>>) {
    forall i, j | 0 <= i < |rows| && 0 <= j < |rows| && i != j :: rows[i].record_id != rows[j].record_id
  }
}

/** Reference resolution (`getDozentName`, `getRaumName`, `getTeilnehmerName`,
    `getKursTitel`): decode a locator, find the first loaded record with that
    identifier, and render a label, falling back to the placeholder "-". */
module Resolver {
  import opened Util
  import opened Entities

  /** Position of the first row whose identifier is `id`, the row `find` stops at. */
  function IndexOfId<F>(rows: seq<Record<F>>, id: string): (r: Option<nat>)
    ensures r.Some? ==> r.value < |rows| && rows[r.value].record_id == id
    ensures r.Some? ==> forall j | 0 <= j < r.value :: rows[j].record_id != id
    ensures r.None? ==> forall j | 0 <= j < |rows| :: rows[j].record_id != id
  {
    if rows == [] then None
    else if rows[0].record_id == id then Some(0)
    else
      match IndexOfId(rows[1..], id)
      case None => None
      case Some(k) => Some(k + 1)
  }

  /** Row `j` is the first one whose identifier is the decoded `id`. */
  predicate IsFirstWithId<F>(rows: seq<Record<F>>, j: int, id: Option<string>)
    requires 0 <= j < |rows|
  {
    id.Some? && rows[j].record_id == id.value && forall i | 0 <= i < j :: rows[i].record_id != id.value
  }

  /** The locator leads nowhere: it is undefined or empty, it does not decode,
      or no loaded row carries the decoded identifier. */
  predicate Dangling<F>(url: Option<string>, rows: seq<Record<F>>, extract: Option<string> -> Option<string>) {
    !Truthy(url) || extract(url).None? || forall j | 0 <= j < |rows| :: rows[j].record_id != extract(url).value
  }

  /** The first row whose `record_id` is `id`; an identifier of `null` matches nothing. */
  function FindById<F>(rows: seq<Record<F>>, id: Option<string>): (r: Option<Record<F>>)
    ensures r.None? <==> (id.None? || forall j | 0 <= j < |rows| :: rows[j].record_id != id.value)
    ensures forall j | 0 <= j < |rows| :: IsFirstWithId(rows, j, id) ==> r == Some(rows[j])
  {
    match id
    case None => None
    case Some(x) =>
      match IndexOfId(rows, x)
      case None => None
      case Some(k) => Some(rows[k])
  }

  /** The shared shape of the four resolvers: "-" for a dangling locator,
      otherwise the label of the first record the locator designates. */
  function Resolve<F>(url: Option<string>, rows: seq<Record<F>>,
                      extract: Option<string> -> Option<string>, render: F -> string): (r: string)
    ensures Dangling(url, rows, extract) ==> r == "-"
    ensures forall j | 0 <= j < |rows| :: Truthy(url) && IsFirstWithId(rows, j, extract(url)) ==> r == render(rows[j].fields)
  {
    if !Truthy(url) then "-"
    else
      match FindById(rows, extract(url))
      case None => "-"
      case Some(row) => render(row.fields)
  }

  /** `${value}` in a template literal: an undefined field renders as "undefined". */
  function TemplateText(o: Option<string>): string {
    match o
    case Some(s) => s
    case None => "undefined"
  }

  /** The label of a found room: its name, then its building or "-" in parentheses. */
  function RaumLabel(f: RaumFields): string {
    TemplateText(f.raumname) + " (" + OrDash(f.gebaeude) + ")"
  }

  function DozentName(url: Option<string>, dozenten: seq<DozentRecord>, env: Env): (r: string)
    ensures r != ""
    ensures Dangling(url, dozenten, env.extractRecordId) ==> r == "-"
    ensures forall j | 0 <= j < |dozenten| :: Truthy(url) && IsFirstWithId(dozenten, j, env.extractRecordId(url)) ==>
              r == OrDash(dozenten[j].fields.name)
  {
    Resolve(url, dozenten, env.extractRecordId, (f: DozentFields) => OrDash(f.name))
  }

  function RaumName(url: Option<string>, raeume: seq<RaumRecord>, env: Env): (r: string)
    ensures r != ""
    ensures Dangling(url, raeume, env.extractRecordId) ==> r == "-"
    ensures forall j | 0 <= j < |raeume| :: Truthy(url) && IsFirstWithId(raeume, j, env.extractRecordId(url)) ==>
              r == RaumLabel(raeume[j].fields)
  {
    Resolve(url, raeume, env.extractRecordId, RaumLabel)
  }

  function TeilnehmerName(url: Option<string>, teilnehmer: seq<TeilnehmerRecord>, env: Env): (r: string)
    ensures r != ""
    ensures Dangling(url, teilnehmer, env.extractRecordId) ==> r == "-"
    ensures forall j | 0 <= j < |teilnehmer| :: Truthy(url) && IsFirstWithId(teilnehmer, j, env.extractRecordId(url)) ==>
              r == OrDash(teilnehmer[j].fields.name)
  {
    Resolve(url, teilnehmer, env.extractRecordId, (f: TeilnehmerFields) => OrDash(f.name))
  }

  function KursTitel(url: Option<string>, kurse: seq<KursRecord>, env: Env): (r: string)
    ensures r != ""
    ensures Dangling(url, kurse, env.extractRecordId) ==> r == "-"
    ensures forall j | 0 <= j < |kurse| :: Truthy(url) && IsFirstWithId(kurse, j, env.extractRecordId(url)) ==>
              r == OrDash(kurse[j].fields.titel)
  {
    Resolve(url, kurse, env.extractRecordId, (f: KursFields) => OrDash(f.titel))
  }

  /** A locator the codec built from a loaded record's identifier resolves to
      that record's label. */
  lemma ResolveEncoded<F>(app: Tab, rows: seq<Record<F>>, j: int, env: Env, render: F -> string)
    requires CodecLaws(env) && UniqueIds(rows) && 0 <= j < |rows|
    ensures Resolve(Some(env.createRecordUrl(app, rows[j].record_id)), rows, env.extractRecordId, render) == render(rows[j].fields)
  {
    var url := Some(env.createRecordUrl(app, rows[j].record_id));
    assert env.extractRecordId(url) == Some(rows[j].record_id);
    assert IsFirstWithId(rows, j, env.extractRecordId(url));
  }

  /** An enrollment whose participant has been deleted shows "-" instead of failing. */
  lemma DeletedTeilnehmerShowsDash(url: Option<string>, teilnehmer: seq<TeilnehmerRecord>, env: Env)
    requires Truthy(url) && env.extractRecordId(url).Some?
    requires forall j | 0 <= j < |teilnehmer| :: teilnehmer[j].record_id != env.extractRecordId(url).value
    ensures TeilnehmerName(url, teilnehmer, env) == "-"
  {
  }
}

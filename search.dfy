/** Search filtering: `filterData` over a list of fields of one collection,
    and the enrollment filter, which searches the resolved participant name and
    course title instead of the enrollment's own fields. */
module Search {
  import opened Util
  import opened Entities
  import opened Resolver

  /** One searched field matches when it is present and non-empty and its
      lower-cased text contains `query`, which is already lower-cased. */
  predicate FieldMatches(value: Option<string>, query: string, lower: string -> string) {
    Truthy(value) && Contains(lower(value.value), query)
  }

  /** Some field of the record's search list matches. */
  predicate AnyFieldMatches<T>(item: T, fields: seq<T -> Option<string>>, query: string, lower: string -> string) {
    exists k | 0 <= k < |fields| :: FieldMatches(fields[k](item), query, lower)
  }

  /** The generic search of one tab: the rows of `data` that match the search text `query` on any of `fields`. */
  function FilterData<T(==)>(data: seq<T>, query: string, fields: seq<T -> Option<string>>, lower: string -> string): (r: seq<T>)
    ensures query == "" ==> r == data
    ensures IsSubsequence(r, data)
    ensures query != "" ==> forall i | 0 <= i < |r| :: AnyFieldMatches(r[i], fields, lower(query), lower)
    ensures query != "" ==> forall i | 0 <= i < |data| && AnyFieldMatches(data[i], fields, lower(query), lower) ::
              multiset(r)[data[i]] == multiset(data)[data[i]]
    ensures multiset(r) <= multiset(data)
  {
    if query == "" then
      SubsequenceReflexive(data);
      data
    else
      var q := lower(query);
      Filter(data, (item: T) => AnyFieldMatches(item, fields, q, lower))
  }

  /** The fields each tab searches. */
  const KursSearchFields: seq<KursRecord -> Option<string>> :=
    [(k: KursRecord) => k.fields.titel, (k: KursRecord) => k.fields.beschreibung]
  const DozentSearchFields: seq<DozentRecord -> Option<string>> :=
    [(d: DozentRecord) => d.fields.name, (d: DozentRecord) => d.fields.email, (d: DozentRecord) => d.fields.fachgebiet]
  const TeilnehmerSearchFields: seq<TeilnehmerRecord -> Option<string>> :=
    [(t: TeilnehmerRecord) => t.fields.name, (t: TeilnehmerRecord) => t.fields.email]
  const RaumSearchFields: seq<RaumRecord -> Option<string>> :=
    [(r: RaumRecord) => r.fields.raumname, (r: RaumRecord) => r.fields.gebaeude]

  /** The test `filteredAnmeldungen` applies to one enrollment. */
  predicate AnmeldungMatches(a: AnmeldungRecord, c: Collections, query: string, env: Env) {
    query == ""
    || Contains(env.lower(TeilnehmerName(a.fields.teilnehmer, c.teilnehmer, env)), env.lower(query))
    || Contains(env.lower(KursTitel(a.fields.kurs, c.kurse, env)), env.lower(query))
  }

  /** `filteredAnmeldungen`: the enrollments, in order, whose resolved participant
      name or resolved course title contains the search text. */
  function FilteredAnmeldungen(c: Collections, query: string, env: Env): (r: seq<AnmeldungRecord>)
    ensures query == "" ==> r == c.anmeldungen
    ensures IsSubsequence(r, c.anmeldungen)
    ensures forall i | 0 <= i < |r| :: AnmeldungMatches(r[i], c, query, env)
    ensures forall i | 0 <= i < |c.anmeldungen| && AnmeldungMatches(c.anmeldungen[i], c, query, env) ::
              multiset(r)[c.anmeldungen[i]] == multiset(c.anmeldungen)[c.anmeldungen[i]]
    ensures multiset(r) <= multiset(c.anmeldungen)
  {
    var keep := (a: AnmeldungRecord) => AnmeldungMatches(a, c, query, env);
    if query == "" then
      FilterKeepsAll(c.anmeldungen, keep);
      Filter(c.anmeldungen, keep)
    else
      Filter(c.anmeldungen, keep)
  }

  /** Searching for "-" finds every enrollment whose participant cannot be
      resolved, since the placeholder itself is what gets searched. */
  lemma DashFindsDanglingEnrollments(c: Collections, env: Env, i: int)
    requires env.lower("-") == "-"
    requires 0 <= i < |c.anmeldungen|
    requires Dangling(c.anmeldungen[i].fields.teilnehmer, c.teilnehmer, env.extractRecordId)
    ensures c.anmeldungen[i] in FilteredAnmeldungen(c, "-", env)
  {
    var a := c.anmeldungen[i];
    assert OccursAt("-", "-", 0);
    assert AnmeldungMatches(a, c, "-", env);
    var r := FilteredAnmeldungen(c, "-", env);
    assert multiset(r)[a] == multiset(c.anmeldungen)[a];
    assert a in multiset(c.anmeldungen);
  }

  /** Searching the instructors for "info" finds the one whose specialty is
      "Informatik" and not the one whose specialty is "Marketing". */
  lemma InstructorSearchScenario(env: Env)
    requires env.lower("info") == "info"
    requires env.lower("Informatik") == "informatik" && env.lower("Marketing") == "marketing"
    ensures var informatik := Record("d1", DozentFields(None, None, None, Some("Informatik")));
            var marketing := Record("d2", DozentFields(None, None, None, Some("Marketing")));
            FilterData([informatik, marketing], "info", DozentSearchFields, env.lower) == [informatik]
  {
    var informatik := Record("d1", DozentFields(None, None, None, Some("Informatik")));
    var marketing := Record("d2", DozentFields(None, None, None, Some("Marketing")));
    assert OccursAt("informatik", "info", 0);
    assert AnyFieldMatches(informatik, DozentSearchFields, "info", env.lower) by {
      assert FieldMatches(DozentSearchFields[2](informatik), "info", env.lower);
    }
    forall i: nat | i <= |"marketing"|
      ensures !OccursAt("marketing", "info", i)
    {
      if i + 4 <= 9 {
        assert "marketing"[i..i + 4][0] == "marketing"[i];
        if i == 0 {} else if i == 1 {} else if i == 2 {} else if i == 3 {} else if i == 4 {} else {}
      }
    }
    assert !AnyFieldMatches(marketing, DozentSearchFields, "info", env.lower);
    assert [informatik, marketing][..1] == [informatik];
    assert [informatik][..0] == [];
  }
}

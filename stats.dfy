/** The `stats` memo: active courses, participant count, enrollments of the
    current month and capacity utilisation. Dates are time values produced by
    `Env.parseDate`; the current instant and the start of the current month are
    parameters. */
module Stats {
  import opened Util
  import opened Entities

  /** A course with both dates, started at or before `now` and ending at or after it. */
  predicate IsActive(k: KursRecord, env: Env, now: int) {
    && Truthy(k.fields.startdatum)
    && Truthy(k.fields.enddatum)
    && var start := env.parseDate(k.fields.startdatum.value);
       var end := env.parseDate(k.fields.enddatum.value);
       start.Some? && end.Some? && start.value <= now && now <= end.value
  }

  /** An enrollment with a date on or after the first day of the month. */
  predicate EnrolledThisMonth(a: AnmeldungRecord, env: Env, monthStart: int) {
    && Truthy(a.fields.anmeldedatum)
    && var d := env.parseDate(a.fields.anmeldedatum.value);
       d.Some? && d.value >= monthStart
  }

  /** The number of active courses. */
  function ActiveKurse(kurse: seq<KursRecord>, env: Env, now: int): (r: nat)
    ensures r == |set i | 0 <= i < |kurse| && IsActive(kurse[i], env, now)|
  {
    var active := (k: KursRecord) => IsActive(k, env, now);
    FilterLengthIsCount(kurse, active);
    assert Positions(kurse, active) == set i | 0 <= i < |kurse| && IsActive(kurse[i], env, now);
    |Filter(kurse, active)|
  }

  /** The number of enrollments dated in the current month. */
  function AnmeldungenThisMonth(anmeldungen: seq<AnmeldungRecord>, env: Env, monthStart: int): (r: nat)
    ensures r == |set i | 0 <= i < |anmeldungen| && EnrolledThisMonth(anmeldungen[i], env, monthStart)|
  {
    var recent := (a: AnmeldungRecord) => EnrolledThisMonth(a, env, monthStart);
    FilterLengthIsCount(anmeldungen, recent);
    assert Positions(anmeldungen, recent) == set i | 0 <= i < |anmeldungen| && EnrolledThisMonth(anmeldungen[i], env, monthStart);
    |Filter(anmeldungen, recent)|
  }

  /** A course's capacity, counting a missing value as 0. */
  function Capacity(k: KursRecord): int {
    k.fields.max_teilnehmer.GetOr(0)
  }

  /** The capacities of all courses summed from the first to the last. */
  function TotalCapacity(kurse: seq<KursRecord>): (r: int)
    ensures (forall i | 0 <= i < |kurse| :: Capacity(kurse[i]) >= 0) ==> r >= 0
    ensures (forall i | 0 <= i < |kurse| :: kurse[i].fields.max_teilnehmer.None?) ==> r == 0
    decreases |kurse|
  {
    if kurse == [] then 0
    else TotalCapacity(kurse[..|kurse| - 1]) + Capacity(kurse[|kurse| - 1])
  }

  /** The total capacity of two lists of courses is the sum of their totals. */
  lemma {:induction false} TotalCapacityAppend(a: seq<KursRecord>, b: seq<KursRecord>)
    ensures TotalCapacity(a + b) == TotalCapacity(a) + TotalCapacity(b)
    decreases |b|
  {
    if b == [] {
      assert a + b == a;
    } else {
      var b' := b[..|b| - 1];
      assert (a + b)[..|a + b| - 1] == a + b';
      assert (a + b)[|a + b| - 1] == b[|b| - 1];
      TotalCapacityAppend(a, b');
    }
  }

  /** `r` is `100 * enrolled / capacity` rounded to the nearest whole number,
      halves rounded up (`Math.round` on a non-negative value). */
  predicate IsRoundedPercent(r: int, enrolled: nat, capacity: int)
    requires capacity > 0
  {
    2 * capacity * r <= 200 * enrolled + capacity < 2 * capacity * (r + 1)
  }

  /** Capacity utilisation: the share of the capacity taken by the enrollments
      as the nearest whole percentage, halves rounded up, and 0 when the capacity
      is not positive. */
  function Auslastung(enrolled: nat, capacity: int): (r: nat)
    ensures capacity <= 0 ==> r == 0
    ensures capacity > 0 ==> IsRoundedPercent(r, enrolled, capacity)
  {
    if capacity > 0 then
      var q := (200 * enrolled + capacity) / (2 * capacity);
      assert q * (2 * capacity) <= 200 * enrolled + capacity < (q + 1) * (2 * capacity);
      q
    else 0
  }

  lemma {:induction false} MulAtLeast(a: nat, b: nat)
    requires b >= 1
    ensures a * b >= a
    decreases b
  {
    if b > 1 {
      MulAtLeast(a, b - 1);
      assert a * b == a * (b - 1) + a;
    }
  }

  /** The rounded percentage is determined uniquely, so `Auslastung` states the
      whole of what `Math.round` computes. */
  lemma RoundedPercentUnique(r1: int, r2: int, enrolled: nat, capacity: int)
    requires capacity > 0
    requires IsRoundedPercent(r1, enrolled, capacity) && IsRoundedPercent(r2, enrolled, capacity)
    ensures r1 == r2
  {
    var c2 := 2 * capacity;
    if r1 < r2 {
      MulAtLeast(c2, r2 - r1);
      assert false;
    } else if r2 < r1 {
      MulAtLeast(c2, r1 - r2);
      assert false;
    }
  }

  /** Utilisation never exceeds 100 while the enrollments fit the capacity. */
  lemma AuslastungAtMostHundred(enrolled: nat, capacity: int)
    requires enrolled <= capacity
    ensures Auslastung(enrolled, capacity) <= 100
  {
    if capacity > 0 {
      var r := Auslastung(enrolled, capacity);
      var c2 := 2 * capacity;
      assert IsRoundedPercent(r, enrolled, capacity);
      assert c2 * r <= 200 * enrolled + capacity;
      assert 200 * enrolled + capacity <= 201 * capacity;
      if r > 100 {
        assert c2 * r == c2 * 100 + c2 * (r - 100);
        MulAtLeast(c2, r - 100);
        assert false;
      }
    }
  }

  datatype Statistics = Statistics(activeKurse: nat, totalTeilnehmer: nat, anmeldungenThisMonth: nat, auslastung: nat)

  /** The `stats` memo over one snapshot; the utilisation uses the global
      enrollment count against the summed capacity of all courses. */
  function ComputeStats(c: Collections, env: Env, now: int, monthStart: int): (r: Statistics)
    ensures r.activeKurse == |set i | 0 <= i < |c.kurse| && IsActive(c.kurse[i], env, now)|
    ensures r.totalTeilnehmer == |c.teilnehmer|
    ensures r.anmeldungenThisMonth == |set i | 0 <= i < |c.anmeldungen| && EnrolledThisMonth(c.anmeldungen[i], env, monthStart)|
    ensures TotalCapacity(c.kurse) <= 0 ==> r.auslastung == 0
    ensures TotalCapacity(c.kurse) > 0 ==> IsRoundedPercent(r.auslastung, |c.anmeldungen|, TotalCapacity(c.kurse))
  {
    Statistics(
      ActiveKurse(c.kurse, env, now),
      |c.teilnehmer|,
      AnmeldungenThisMonth(c.anmeldungen, env, monthStart),
      Auslastung(|c.anmeldungen|, TotalCapacity(c.kurse)))
  }

  /** A course without a start or an end date never counts as active. */
  lemma UndatedKursNotActive(kurse: seq<KursRecord>, k: KursRecord, env: Env, now: int)
    requires !Truthy(k.fields.startdatum) || !Truthy(k.fields.enddatum)
    ensures ActiveKurse(kurse + [k], env, now) == ActiveKurse(kurse, env, now)
  {
    FilterSnoc(kurse, k, (x: KursRecord) => IsActive(x, env, now));
  }

  /** One course of capacity 20 and five enrollments give a utilisation of 25%. */
  lemma UtilisationScenario(k: KursRecord, c: Collections, env: Env, now: int, monthStart: int)
    requires k.fields.max_teilnehmer == Some(20)
    requires c.kurse == [k] && |c.anmeldungen| == 5
    ensures ComputeStats(c, env, now, monthStart).auslastung == 25
  {
    assert c.kurse[..0] == [];
  }
}

/** The label values reported for each application
    (prosessering/v1/MeldingV1Metrics.kt). Registering and incrementing the
    counters is not modelled; only the values they are labelled with.
    Dates are day numbers, so the days between two dates is their difference;
    `lengde` is a duration in seconds. */
module MeldingV1Metrics {
  import opened Common
  import opened Melding

  /** `Boolean.tilJaEllerNei`. */
  function TilJaEllerNei(b: bool): (s: string)
    ensures s == "Ja" <==> b
    ensures s == "Ja" || s == "Nei"
  {
    if b then "Ja" else "Nei"
  }

  /** The number of periods applied for in hours (with a `lengde`). */
  function AntallTimePerioder(ps: seq<Utbetalingsperiode>): (n: nat)
    ensures n <= |ps|
    ensures n == |ps| <==> forall i :: 0 <= i < |ps| ==> ps[i].lengde.Some?
    ensures n == 0 <==> forall i :: 0 <= i < |ps| ==> ps[i].lengde.None?
  {
    if ps == [] then 0
    else
      assert forall i :: 1 <= i < |ps| ==> ps[i] == ps[1..][i - 1];
      (if ps[0].lengde.Some? then 1 else 0) + AntallTimePerioder(ps[1..])
  }

  /** The number of periods applied for in whole days (no `lengde`): the rest. */
  function AntallDagPerioder(ps: seq<Utbetalingsperiode>): (n: nat)
    ensures n == |ps| - AntallTimePerioder(ps)
  {
    if ps == [] then 0
    else (if ps[0].lengde.None? then 1 else 0) + AntallDagPerioder(ps[1..])
  }

  /** "Ja" exactly when there are periods and every one is in hours. */
  function SokerBareOmTimer(ps: seq<Utbetalingsperiode>): (s: string)
    ensures s == "Ja" <==> |ps| > 0 && forall i :: 0 <= i < |ps| ==> ps[i].lengde.Some?
    ensures s == "Ja" || s == "Nei"
  {
    var antall := AntallTimePerioder(ps);
    if antall > 0 && antall == |ps| then "Ja" else "Nei"
  }

  /** "Ja" exactly when there are periods and none is in hours. */
  function SokerBareOmDager(ps: seq<Utbetalingsperiode>): (s: string)
    ensures s == "Ja" <==> |ps| > 0 && forall i :: 0 <= i < |ps| ==> ps[i].lengde.None?
    ensures s == "Ja" || s == "Nei"
  {
    var antall := AntallDagPerioder(ps);
    if antall > 0 && antall == |ps| then "Ja" else "Nei"
  }

  /** "Ja" exactly when neither of the two above is: the periods combine
      whole days and hours, or there are none at all. */
  function SokerOmBadeDagerOgTimer(ps: seq<Utbetalingsperiode>): (s: string)
    ensures s == "Ja" <==> (ps == [] || ((exists i :: 0 <= i < |ps| && ps[i].lengde.Some?)
                                         && (exists j :: 0 <= j < |ps| && ps[j].lengde.None?)))
    ensures s == "Ja" || s == "Nei"
  {
    if SokerBareOmDager(ps) == "Nei" && SokerBareOmTimer(ps) == "Nei" then "Ja" else "Nei"
  }

  /** Exactly one of the three labels is "Ja", for every list of periods,
      including the empty one (which counts as both kinds). */
  lemma {:induction false} EksaktEnJa(ps: seq<Utbetalingsperiode>)
    ensures SokerBareOmTimer(ps) == "Ja" ==> SokerBareOmDager(ps) == "Nei" && SokerOmBadeDagerOgTimer(ps) == "Nei"
    ensures SokerBareOmDager(ps) == "Ja" ==> SokerBareOmTimer(ps) == "Nei" && SokerOmBadeDagerOgTimer(ps) == "Nei"
    ensures SokerBareOmTimer(ps) == "Ja" || SokerBareOmDager(ps) == "Ja" || SokerOmBadeDagerOgTimer(ps) == "Ja"
    ensures ps == [] ==> SokerOmBadeDagerOgTimer(ps) == "Ja"
  {
    if ps != [] {
      var p := ps[0];
      assert p.lengde.Some? || p.lengde.None?;
    }
  }

  /** The sum of the days between the dates of every period. */
  function SumDager(ps: seq<Utbetalingsperiode>): int
    decreases |ps|
  {
    if ps == [] then 0 else SumDager(ps[..|ps| - 1]) + (ps[|ps| - 1].tilOgMed - ps[|ps| - 1].fraOgMed)
  }

  /** `tilAntallHeleDager`: the `filter` result is discarded, so every period
      counts, hour periods included; the total's absolute value is returned. */
  method TilAntallHeleDager(ps: seq<Utbetalingsperiode>) returns (r: nat)
    ensures r == Abs(SumDager(ps))
  {
    var antallDager := 0;
    for i := 0 to |ps|
      invariant antallDager == SumDager(ps[..i])
    {
      assert ps[..i + 1][..i] == ps[..i];
      antallDager := antallDager + (ps[i].tilOgMed - ps[i].fraOgMed);
    }
    assert ps[..|ps|] == ps;
    r := Abs(antallDager);
  }

  /** The day sum of two lists of periods put together is the sum of their
      day sums. */
  lemma {:induction false} SumDagerAppend(a: seq<Utbetalingsperiode>, b: seq<Utbetalingsperiode>)
    ensures SumDager(a + b) == SumDager(a) + SumDager(b)
    decreases |b|
  {
    if b == [] {
      assert a + b == a;
    } else {
      assert (a + b)[..|a + b| - 1] == a + b[..|b| - 1];
      SumDagerAppend(a, b[..|b| - 1]);
    }
  }

  /** Whole days in a duration, as `TimeUnit.HOURS.toDays(lengde.toHours())`:
      both conversions truncate toward zero. */
  function DagerIVarighet(sekunder: int): (d: int)
    ensures sekunder >= 0 ==> d == sekunder / 86400
    ensures sekunder < 0 ==> d == -((-sekunder) / 86400)
  {
    Quot(Quot(sekunder, 3600), 24)
  }

  /** The whole days of every period's duration, or the exception the `!!`
      throws at the first period without one. */
  function SumDelDager(ps: seq<Utbetalingsperiode>): (r: Result<int>)
    ensures r.Err? <==> exists i :: 0 <= i < |ps| && ps[i].lengde.None?
    ensures r.Err? ==> r.error == NullPointerException
    decreases |ps|
  {
    if ps == [] then Ok(0)
    else
      var n := |ps| - 1;
      assert forall i :: 0 <= i < n ==> ps[..n][i] == ps[i];
      match SumDelDager(ps[..n])
      case Err(e) => Err(e)
      case Ok(s) =>
        if ps[n].lengde.None? then Err(NullPointerException)
        else Ok(s + DagerIVarighet(ps[n].lengde.value))
  }

  /** `tilAntallDelDager`: the `filter` result is discarded, so the `!!`
      meets every period and throws on the first one applied for in whole days. */
  method TilAntallDelDager(ps: seq<Utbetalingsperiode>) returns (r: Result<int>)
    ensures r == SumDelDager(ps)
  {
    var antallDelDager := 0;
    for i := 0 to |ps|
      invariant SumDelDager(ps[..i]) == Ok(antallDelDager)
    {
      assert ps[..i + 1][..i] == ps[..i];
      if ps[i].lengde.None? {
        assert SumDelDager(ps[..i + 1]) == Err(NullPointerException);
        assert ps == ps[..i + 1] + ps[i + 1..];
        SumDelDagerErr(ps[..i + 1], ps[i + 1..]);
        return Err(NullPointerException);
      }
      antallDelDager := antallDelDager + DagerIVarighet(ps[i].lengde.value);
    }
    assert ps[..|ps|] == ps;
    r := Ok(antallDelDager);
  }

  /** Once a prefix throws, the whole list throws. */
  lemma SumDelDagerErr(a: seq<Utbetalingsperiode>, b: seq<Utbetalingsperiode>)
    requires SumDelDager(a).Err?
    ensures SumDelDager(a + b) == Err(NullPointerException)
  {
    var i :| 0 <= i < |a| && a[i].lengde.None?;
    assert (a + b)[i] == a[i];
  }

  /** `MeldingV1.reportMetrics`: of the values it labels the counters with,
      only the part-day count can throw, so the call throws (the result is
      the exception) exactly when some period has no `lengde`. */
  function ReportMetrics(m: MeldingV1): (r: Option<Error>)
    ensures r.Some? <==> exists i :: 0 <= i < |m.utbetalingsperioder| && m.utbetalingsperioder[i].lengde.None?
    ensures r.Some? ==> r.value == NullPointerException
  {
    match SumDelDager(m.utbetalingsperioder)
    case Err(e) => Some(e)
    case Ok(_) => None
  }

  /** A mix of whole-day and hour periods always makes the part-day count throw. */
  lemma BlandetFeiler(ps: seq<Utbetalingsperiode>)
    requires SokerOmBadeDagerOgTimer(ps) == "Ja" && ps != []
    ensures SumDelDager(ps).Err?
  {
    EksaktEnJa(ps);
  }

  // ---- the business-type label ----

  /** Sorted by enum order, largest first. */
  predicate SynkendeSortert(ns: seq<Naeringstyper>) {
    forall i, j :: 0 <= i < j < |ns| ==> ns[i].Ordinal() >= ns[j].Ordinal()
  }

  /** Putting a type in front of a sorted list that holds nothing larger
      keeps it sorted. */
  lemma ForanSortert(n: Naeringstyper, ns: seq<Naeringstyper>)
    requires SynkendeSortert(ns)
    requires forall i :: 0 <= i < |ns| ==> n.Ordinal() >= ns[i].Ordinal()
    ensures SynkendeSortert([n] + ns)
  {
    var r := [n] + ns;
    forall i, j | 0 <= i < j < |r|
      ensures r[i].Ordinal() >= r[j].Ordinal()
    {
      if i > 0 {
        assert r[i] == ns[i - 1] && r[j] == ns[j - 1];
      } else {
        assert r[j] == ns[j - 1];
      }
    }
  }

  /** Inserts one type into a list sorted largest first. */
  function SettInn(n: Naeringstyper, ns: seq<Naeringstyper>): (r: seq<Naeringstyper>)
    requires SynkendeSortert(ns)
    ensures |r| == |ns| + 1
    ensures forall i :: 0 <= i < |r| ==> r[i] == n || r[i] in ns
    ensures SynkendeSortert(r)
    ensures multiset(r) == multiset(ns) + multiset{n}
  {
    if ns == [] then [n]
    else if n.Ordinal() >= ns[0].Ordinal() then
      ForanSortert(n, ns);
      [n] + ns
    else
      var rest := SettInn(n, ns[1..]);
      assert ns == [ns[0]] + ns[1..];
      assert forall i :: 0 <= i < |rest| ==> ns[0].Ordinal() >= rest[i].Ordinal();
      ForanSortert(ns[0], rest);
      [ns[0]] + rest
  }

  /** `sortedDescending()`: the same types, sorted largest first. */
  function SortertSynkende(ns: seq<Naeringstyper>): (r: seq<Naeringstyper>)
    ensures SynkendeSortert(r)
    ensures multiset(r) == multiset(ns)
  {
    if ns == [] then []
    else
      assert ns == [ns[0]] + ns[1..];
      SettInn(ns[0], SortertSynkende(ns[1..]))
  }

  /** Two lists sorted largest first with the same elements are equal. */
  lemma {:induction false} SortertEntydig(a: seq<Naeringstyper>, b: seq<Naeringstyper>)
    requires SynkendeSortert(a) && SynkendeSortert(b) && multiset(a) == multiset(b)
    ensures a == b
    decreases |a|
  {
    if a != [] {
      assert |b| == |multiset(b)| == |multiset(a)| == |a|;
      LikForste(a, b);
      HaleMultiset(a);
      HaleMultiset(b);
      HaleSortert(a);
      HaleSortert(b);
      SortertEntydig(a[1..], b[1..]);
      assert a == [a[0]] + a[1..] && b == [b[0]] + b[1..];
    }
  }

  /** Two sorted lists with the same elements start with the same type. */
  lemma LikForste(a: seq<Naeringstyper>, b: seq<Naeringstyper>)
    requires |a| > 0 && |b| > 0
    requires SynkendeSortert(a) && SynkendeSortert(b) && multiset(a) == multiset(b)
    ensures a[0] == b[0]
  {
    assert a[0] in multiset(b);
    assert b[0] in multiset(a);
    var i :| 0 <= i < |b| && b[i] == a[0];
    var j :| 0 <= j < |a| && a[j] == b[0];
    assert a[0].Ordinal() >= a[j].Ordinal();
    assert b[0].Ordinal() >= b[i].Ordinal();
    OrdinalInjektiv(a[0], b[0]);
  }

  lemma HaleMultiset(a: seq<Naeringstyper>)
    requires |a| > 0
    ensures multiset(a[1..]) == multiset(a) - multiset{a[0]}
  {
    assert a == [a[0]] + a[1..];
  }

  lemma HaleSortert(a: seq<Naeringstyper>)
    requires |a| > 0 && SynkendeSortert(a)
    ensures SynkendeSortert(a[1..])
  {
    forall i, j | 0 <= i < j < |a[1..]|
      ensures a[1..][i].Ordinal() >= a[1..][j].Ordinal()
    {
      assert a[1..][i] == a[i + 1] && a[1..][j] == a[j + 1];
    }
  }

  lemma OrdinalInjektiv(x: Naeringstyper, y: Naeringstyper)
    requires x.Ordinal() == y.Ordinal()
    ensures x == y
  {
  }

  /** The names joined with " , ". */
  function Join(ns: seq<Naeringstyper>): string {
    if ns == [] then ""
    else if |ns| == 1 then ns[0].Name()
    else ns[0].Name() + " , " + Join(ns[1..])
  }

  /** `næringstyper.sortedDescending().joinToString(" , ")`. */
  function NaeringstypeLabel(ns: seq<Naeringstyper>): string {
    Join(SortertSynkende(ns))
  }

  /** The label does not depend on the order the types were given in. */
  lemma NaeringstypeLabelUavhengigAvRekkefolge(a: seq<Naeringstyper>, b: seq<Naeringstyper>)
    requires multiset(a) == multiset(b)
    ensures NaeringstypeLabel(a) == NaeringstypeLabel(b)
  {
    SortertEntydig(SortertSynkende(a), SortertSynkende(b));
  }
}

/** The label values of the employee variant
    (prosessering/v1/asynkron/arbeidstaker/ArbeidstakerutbetalingMeldingMetrics.kt).
    Its three classifiers and `tilAntallHeleDager` are written exactly as in
    MeldingV1Metrics.kt and are shared with that module; its
    `tilAntallDelDager` counts a period without a duration as zero hours. */
module ArbeidstakerMetrics {
  import opened Common
  import opened Melding
  import opened MeldingV1Metrics

  /** The whole days of every period's duration, a missing duration
      counting as zero. */
  function SumDelDagerNullSomNull(ps: seq<Utbetalingsperiode>): int
    decreases |ps|
  {
    if ps == [] then 0
    else
      var p := ps[|ps| - 1];
      SumDelDagerNullSomNull(ps[..|ps| - 1]) + DagerIVarighet(if p.lengde.Some? then p.lengde.value else 0)
  }

  /** `tilAntallDelDager` of the employee variant: never throws. */
  method TilAntallDelDager(ps: seq<Utbetalingsperiode>) returns (r: int)
    ensures r == SumDelDagerNullSomNull(ps)
  {
    var antallDelDager := 0;
    for i := 0 to |ps|
      invariant antallDelDager == SumDelDagerNullSomNull(ps[..i])
    {
      assert ps[..i + 1][..i] == ps[..i];
      antallDelDager := antallDelDager + DagerIVarighet(if ps[i].lengde.Some? then ps[i].lengde.value else 0);
    }
    assert ps[..|ps|] == ps;
    r := antallDelDager;
  }

  /** With no negative durations the count is not negative. */
  lemma {:induction false} IkkeNegativ(ps: seq<Utbetalingsperiode>)
    requires forall i :: 0 <= i < |ps| && ps[i].lengde.Some? ==> ps[i].lengde.value >= 0
    ensures SumDelDagerNullSomNull(ps) >= 0
    decreases |ps|
  {
    if ps != [] {
      IkkeNegativ(ps[..|ps| - 1]);
    }
  }

  /** Where every period has a duration the two variants agree; where some
      has none the original throws and this one does not. */
  lemma {:induction false} VarianterSammenlignet(ps: seq<Utbetalingsperiode>)
    ensures SumDelDager(ps).Ok? ==> SumDelDager(ps).value == SumDelDagerNullSomNull(ps)
    decreases |ps|
  {
    if ps != [] {
      var n := |ps| - 1;
      assert forall i :: 0 <= i < n ==> ps[..n][i] == ps[i];
      VarianterSammenlignet(ps[..n]);
    }
  }
}

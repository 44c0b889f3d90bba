/**
 * The billing rules of a subscription (`Assinatura`): which calendar step a
 * billing cycle uses, how the next charge date is rolled forward past
 * "today", how a charge is normalised to a monthly or annual amount, and the
 * day-count and overdue checks. "Today" is always a parameter.
 *
 * Amounts are integer cents: the field is a decimal with two places, so
 * every stored value is a whole number of cents.
 */
module Billing {
  import opened Calendar

  /** The four codes of `CICLO_CHOICES`; any other string is an unknown cycle. */
  const Mensal: string := "MENSAL"
  const Trimestral: string := "TRIMESTRAL"
  const Semestral: string := "SEMESTRAL"
  const Anual: string := "ANUAL"

  predicate KnownCycle(ciclo: string) {
    ciclo == Mensal || ciclo == Trimestral || ciclo == Semestral || ciclo == Anual
  }

  /** Largest amount `DecimalField(max_digits=10, decimal_places=2)` holds, in cents. */
  const MaxValorCents: int := 9_999_999_999

  /**
   * The validators on `valor`, on an amount in cents: `MinValueValidator`
   * asks for at least 0.01, and ten digits with two decimal places leave at
   * most eight digits before the point.
   */
  function ValorValido(cents: int): (ok: bool)
    ensures ok <==> 0.01 <= (cents as real) / 100.0 < 100000000.0
  {
    1 <= cents <= MaxValorCents
  }

  /**
   * The validators on `dia_vencimento`, 1 to 31: exactly the days that
   * January, a longest month, has.
   */
  function DiaVencimentoValido(dia: int): (ok: bool)
    ensures ok <==> ValidDate(Date(MinYear, 1, dia))
  {
    1 <= dia <= 31
  }

  /** The day of any valid date passes the `dia_vencimento` validators. */
  lemma DayOfDateIsValidDueDay(d: Date)
    requires ValidDate(d)
    ensures DiaVencimentoValido(d.day)
  {
  }

  // ---------------------------------------------------------------------
  // Next charge date
  // ---------------------------------------------------------------------

  /**
   * The `relativedelta` that `calcular_proxima_cobranca` adds per cycle:
   * 1, 3 or 6 months, or 1 year; an unknown cycle steps by 1 month. Every
   * step is a whole divisor of a year.
   */
  function CycleDelta(ciclo: string): (delta: RelDelta)
    ensures NormalDelta(delta) && SpanMonths(delta) > 0
    ensures 12 % SpanMonths(delta) == 0
    ensures !KnownCycle(ciclo) ==> delta == RelDelta(0, 1)
  {
    if ciclo == Mensal then RelDelta(0, 1)
    else if ciclo == Trimestral then RelDelta(0, 3)
    else if ciclo == Semestral then RelDelta(0, 6)
    else if ciclo == Anual then RelDelta(1, 0)
    else RelDelta(0, 1)
  }

  /**
   * `base + delta + ... + delta` with `n` additions, each applied to the
   * previous (already clamped) result, as `proxima_data += delta` does.
   */
  function Iterate(base: Date, delta: RelDelta, n: nat): (r: Outcome)
    requires ValidDate(base) && NormalDelta(delta)
    ensures r.Ok? ==> ValidDate(r.date)
    decreases n
  {
    if n == 0 then Ok(base)
    else match AddDelta(base, delta)
      case YearOutOfRange => YearOutOfRange
      case Ok(d) => Iterate(d, delta, n - 1)
  }

  /**
   * The date `calcular_proxima_cobranca` returns from a base date: the base
   * itself when it is not before today, otherwise the first step of the
   * cycle that is not before today. A step that leaves Python's year range
   * raises, which is `YearOutOfRange` here.
   */
  function NextCharge(base: Date, delta: RelDelta, today: Date): (r: Outcome)
    requires ValidDate(base) && ValidDate(today) && NormalDelta(delta) && SpanMonths(delta) > 0
    ensures r.Ok? ==> ValidDate(r.date) && !Before(r.date, today)
    ensures r.Ok? ==> !Before(r.date, base)
    decreases MonthIndex(today) - MonthIndex(base)
  {
    if !Before(base, today) then Ok(base)
    else
      MonthIndexBefore(base, today);
      match AddDelta(base, delta)
      case YearOutOfRange => YearOutOfRange
      case Ok(d) =>
        AddDeltaAdvances(base, delta);
        NextCharge(d, delta, today)
  }

  /**
   * The next charge is reached from the base by `n` whole steps, and every
   * earlier step is still before today: it is the FIRST step on or after
   * today (or the step whose addition left the year range).
   */
  lemma {:induction false} NextChargeSteps(base: Date, delta: RelDelta, today: Date) returns (n: nat)
    requires ValidDate(base) && ValidDate(today) && NormalDelta(delta) && SpanMonths(delta) > 0
    ensures Iterate(base, delta, n) == NextCharge(base, delta, today)
    ensures forall k :: 0 <= k < n ==> Iterate(base, delta, k).Ok? && Before(Iterate(base, delta, k).date, today)
    decreases MonthIndex(today) - MonthIndex(base)
  {
    if !Before(base, today) {
      n := 0;
    } else {
      MonthIndexBefore(base, today);
      match AddDelta(base, delta)
      case YearOutOfRange =>
        n := 1;
      case Ok(d) =>
        AddDeltaAdvances(base, delta);
        var m := NextChargeSteps(d, delta, today);
        n := m + 1;
        forall k | 0 <= k < n
          ensures Iterate(base, delta, k).Ok? && Before(Iterate(base, delta, k).date, today)
        {
          if k > 0 {
            assert Iterate(base, delta, k) == Iterate(d, delta, k - 1);
          }
        }
    }
  }

  /** Rolling forward an already rolled date, with the same today, changes nothing. */
  lemma NextChargeIdempotent(base: Date, delta: RelDelta, today: Date)
    requires ValidDate(base) && ValidDate(today) && NormalDelta(delta) && SpanMonths(delta) > 0
    ensures NextCharge(base, delta, today).Ok? ==>
              var d := NextCharge(base, delta, today).date;
              NextCharge(d, delta, today) == Ok(d)
  {
  }

  /**
   * Day clamping compounds: a subscription first charged on 31 January 2024
   * and rolled monthly to 15 March 2024 lands on 29 March, because the step
   * from 29 February keeps day 29.
   */
  lemma ClampCompounds()
    ensures NextCharge(Date(2024, 1, 31), CycleDelta(Mensal), Date(2024, 3, 15)) == Ok(Date(2024, 3, 29))
  {
  }

  /** An annual step from 29 February lands on 28 February of the next year. */
  lemma AnnualStepFromLeapDay()
    ensures AddDelta(Date(2024, 2, 29), CycleDelta(Anual)) == Ok(Date(2025, 2, 28))
  {
  }

  /** Rolling past 31 December 9999 raises instead of returning a date. */
  lemma RollPastMaxYear()
    ensures NextCharge(Date(9999, 11, 10), CycleDelta(Mensal), Date(9999, 12, 15)) == YearOutOfRange
  {
  }

  // ---------------------------------------------------------------------
  // Amount normalisation
  // ---------------------------------------------------------------------

  /**
   * `valor_mensal`: the charge spread over the months of its cycle, in
   * cents, with exact division. An unknown cycle returns the charge as it
   * is, which is the monthly branch.
   */
  function ValorMensal(valor: int, ciclo: string): (r: real)
    ensures r * (SpanMonths(CycleDelta(ciclo)) as real) == valor as real
  {
    if ciclo == Mensal then valor as real
    else if ciclo == Trimestral then valor as real / 3.0
    else if ciclo == Semestral then valor as real / 6.0
    else if ciclo == Anual then valor as real / 12.0
    else valor as real
  }

  /**
   * `valor_anual`: the charge multiplied by the number of cycles in a year,
   * in cents. An unknown cycle is multiplied by 12, which is the monthly
   * branch.
   */
  function ValorAnual(valor: int, ciclo: string): (r: int)
    ensures r * SpanMonths(CycleDelta(ciclo)) == 12 * valor
  {
    if ciclo == Mensal then valor * 12
    else if ciclo == Trimestral then valor * 4
    else if ciclo == Semestral then valor * 2
    else if ciclo == Anual then valor
    else valor * 12
  }

  /**
   * Twelve monthly equivalents make the annual equivalent, for every cycle
   * code: the two unknown-cycle fallbacks (unchanged, and times 12) both
   * treat the cycle as monthly.
   */
  lemma MonthlyTimesTwelveIsAnnual(valor: int, ciclo: string)
    ensures ValorMensal(valor, ciclo) * 12.0 == ValorAnual(valor, ciclo) as real
  {
  }

  /** An unknown cycle code behaves as "MENSAL" in all three computations. */
  lemma UnknownCycleIsMonthly(valor: int, ciclo: string)
    requires !KnownCycle(ciclo)
    ensures CycleDelta(ciclo) == CycleDelta(Mensal)
    ensures ValorMensal(valor, ciclo) == ValorMensal(valor, Mensal) == valor as real
    ensures ValorAnual(valor, ciclo) == ValorAnual(valor, Mensal) == 12 * valor
  {
  }

  /** A valid amount has positive monthly and annual equivalents. */
  lemma ConversionsPositive(valor: int, ciclo: string)
    requires ValorValido(valor)
    ensures ValorMensal(valor, ciclo) > 0.0
    ensures ValorAnual(valor, ciclo) > 0
  {
  }

  /** 1200.00 a year is 100.00 a month; 55.90 a month is 670.80 a year. */
  lemma ConversionExamples()
    ensures ValorMensal(120000, Anual) == 10000.0
    ensures ValorAnual(5590, Mensal) == 67080
  {
  }

  // ---------------------------------------------------------------------
  // Day count and overdue check
  // ---------------------------------------------------------------------

  /**
   * `dias_ate_proxima_cobranca`: whole days from today to the next charge,
   * and 0 once the charge date has passed.
   */
  function DiasAteProximaCobranca(proxima: Date, today: Date): (r: int)
    requires ValidDate(proxima) && ValidDate(today)
    ensures r == Max(0, Ordinal(proxima) - Ordinal(today))
  {
    OrdinalOrder(proxima, today);
    if !Before(proxima, today) then Ordinal(proxima) - Ordinal(today) else 0
  }

  /** `esta_vencida`: the next charge date lies strictly before today. */
  function EstaVencida(proxima: Date, today: Date): (r: bool)
    requires ValidDate(proxima) && ValidDate(today)
    ensures r <==> Ordinal(proxima) < Ordinal(today)
  {
    OrdinalOrder(proxima, today);
    Before(proxima, today)
  }

  /**
   * The day count is never negative, is positive exactly when the charge is
   * still ahead, and an overdue subscription reports 0 days.
   */
  lemma DaysLeftAndOverdue(proxima: Date, today: Date)
    requires ValidDate(proxima) && ValidDate(today)
    ensures DiasAteProximaCobranca(proxima, today) >= 0
    ensures DiasAteProximaCobranca(proxima, today) > 0 <==> Before(today, proxima)
    ensures EstaVencida(proxima, today) ==> DiasAteProximaCobranca(proxima, today) == 0
    ensures DiasAteProximaCobranca(proxima, today) == 0 && !EstaVencida(proxima, today) ==> proxima == today
  {
    OrdinalOrder(today, proxima);
  }

  /** Ten days ahead counts 10, across the end of February 2024; a passed date counts 0. */
  lemma DayCountExamples()
    ensures DiasAteProximaCobranca(Date(2024, 3, 5), Date(2024, 2, 24)) == 10
    ensures DiasAteProximaCobranca(Date(2024, 3, 10), Date(2024, 3, 15)) == 0
    ensures EstaVencida(Date(2024, 3, 14), Date(2024, 3, 15))
    ensures !EstaVencida(Date(2024, 3, 15), Date(2024, 3, 15))
  {
  }
}

# Meu Bolso — billing rules of a subscription, in Dafny

Meu Bolso tracks recurring charges ("assinaturas"). Each subscription has an
amount (`valor`), a billing cycle (`ciclo_pagamento`: `MENSAL`, `TRIMESTRAL`,
`SEMESTRAL` or `ANUAL`), a first charge date and a next charge date. This
project models the logic on the `Assinatura` record in
`assinaturas/models.py`:

- rolling a base date forward by whole cycles until it is not before today
  (`calcular_proxima_cobranca`), using `dateutil.relativedelta` month
  addition, which clamps the day to the target month's length;
- converting the amount to a monthly or annual equivalent (`valor_mensal`,
  `valor_anual`);
- the day count to the next charge and the overdue check
  (`dias_ate_proxima_cobranca`, `esta_vencida`);
- the stateful wrappers that fill in or advance the stored next charge date
  and due day (`save`, `atualizar_proxima_cobranca`).

Files:

- `calendar.dfy` (module `Calendar`): dates as Python's `datetime.date`
  accepts them (years 1 to 9999, Gregorian leap years), date order, the day
  ordinal behind `date - date`, and `date + relativedelta(years=…, months=…)`.
  A step that lands after year 9999 is `YearOutOfRange`, the `ValueError`
  that `date.replace` raises.
- `billing.dfy` (module `Billing`): the cycle step, the next-charge
  specification `NextCharge` and the lemmas about it, the amount conversions,
  the day count and the overdue check. Amounts are integer cents, since the
  column is a decimal with two places.
- `models.dfy` (module `Models`): the class `Assinatura` with its columns as
  fields. `CalcularProximaCobranca` runs the source's `while` loop and is
  proved equal to `NextCharge`; `Save` and `AtualizarProximaCobranca` change
  only the next charge date and the due day, and their contracts say exactly
  how. A method result `ok == false` stands for a call that raised
  `ValueError`; such a call changes nothing. `BaseDate` picks the base date as
  the source does: the argument, else the stored next date, else the first
  charge date.

Day clamping compounds. A monthly subscription first charged on 31 January
2024 and rolled to 15 March 2024 goes 31 Jan → 29 Feb → 29 Mar: the step
from 29 February keeps day 29. The date is 29 March, not 31 March
(`Billing.ClampCompounds`).

The two unknown-cycle fallbacks look asymmetric. The monthly conversion
returns the amount unchanged and the annual one multiplies by 12. Both are
in fact the `MENSAL` branch, and the next-date step also falls back to one
month. So an unknown cycle is treated as monthly everywhere
(`Billing.UnknownCycleIsMonthly`), and twelve monthly equivalents equal the
annual one for every cycle code (`Billing.MonthlyTimesTwelveIsAnnual`).

## Model

| member | source | states |
|---|---|---|
| `Calendar.AddDelta` | assinaturas/models.py:198-200 | the result's month index is the start's plus the delta's length in months, its day is the start's day clamped to the target month's length, it is a valid date, and the call fails exactly when the target year is after 9999 |
| `Calendar.AddDeltaAdvances` | assinaturas/models.py:198-200 | each `proxima_data += delta` step yields a strictly later date, so the loop makes progress |
| `Calendar.OrdinalOrder` | assinaturas/models.py:237-238 | the day ordinal used by `(a - b).days` orders dates exactly as `<` does, and equal ordinals mean equal dates |
| `Billing.CycleDelta` | assinaturas/models.py:187-196 | each cycle steps by a positive number of months that divides a year; an unknown cycle steps by one month |
| `Billing.Iterate` | assinaturas/models.py:198-200 | repeated addition of the step to the previous, already clamped result yields valid dates |
| `Billing.NextCharge` | assinaturas/models.py:184-202 | the rolled date is never before today and never before the base date |
| `Billing.NextChargeSteps` | assinaturas/models.py:198-202 | the result is the base with the step applied n times, and every earlier iterate is before today: it is the first date of the cycle on or after today (or the first step that left the year range) |
| `Billing.NextChargeIdempotent` | assinaturas/models.py:184-185 | rolling an already rolled date again with the same today returns it unchanged |
| `Billing.ClampCompounds` | assinaturas/models.py:198-200 | 31 Jan 2024, monthly, today 15 Mar 2024 gives 29 Mar 2024 |
| `Billing.AnnualStepFromLeapDay` | assinaturas/models.py:193-194 | one annual step from 29 Feb 2024 gives 28 Feb 2025 |
| `Billing.RollPastMaxYear` | assinaturas/models.py:198-200 | rolling monthly from 10 Nov 9999 to reach 15 Dec 9999 raises instead of returning a date |
| `Billing.ValorMensal` | assinaturas/models.py:204-216 | the monthly equivalent times the cycle's length in months is the charge, for every cycle code |
| `Billing.ValorAnual` | assinaturas/models.py:218-230 | the annual equivalent times the cycle's length in months is twelve charges, for every cycle code |
| `Billing.MonthlyTimesTwelveIsAnnual` | assinaturas/models.py:204-230 | twelve monthly equivalents equal the annual equivalent, unknown cycles included |
| `Billing.UnknownCycleIsMonthly` | assinaturas/models.py:187-230 | an unknown cycle gets the monthly step, the amount unchanged as its monthly equivalent and twelve times it as its annual one |
| `Billing.ConversionsPositive` | assinaturas/models.py:98-103 | an amount of at least 0.01 has positive monthly and annual equivalents |
| `Billing.ConversionExamples` | assinaturas/models.py:204-230 | 1200.00 a year is 100.00 a month; 55.90 a month is 670.80 a year |
| `Billing.DiasAteProximaCobranca` | assinaturas/models.py:232-239 | the day count is the ordinal difference when positive, and 0 otherwise |
| `Billing.EstaVencida` | assinaturas/models.py:241-245 | overdue exactly when the next charge date's ordinal is below today's |
| `Billing.DaysLeftAndOverdue` | assinaturas/models.py:232-245 | the day count is never negative, is positive exactly when the charge is after today, is 0 when overdue, and is 0 without being overdue only on the charge day |
| `Billing.DayCountExamples` | assinaturas/models.py:232-245 | 24 Feb to 5 Mar 2024 is 10 days; a passed date counts 0; yesterday is overdue, today is not |
| `Billing.ValorValido` | assinaturas/models.py:98-103 | an amount in cents passes exactly when, as a decimal, it is at least 0.01 and has at most eight digits before the point (ten digits, two of them decimals) |
| `Billing.DiaVencimentoValido` | assinaturas/models.py:120-126 | a due day passes exactly when it is a day that January, a longest month, has: 1 to 31 |
| `Billing.DayOfDateIsValidDueDay` | assinaturas/models.py:170-171 | the day of any valid date, which `save` copies into the due day, passes the due-day validators |
| `Models.Assinatura.BaseDate` | assinaturas/models.py:179-180 | the base is the argument when given, else the stored next charge date, else the first charge date, and it is a valid date whenever the record's dates are |
| `Models.Assinatura.constructor` | assinaturas/models.py:104-132 | a new record has currency BRL, status ATIVA, and no next charge date or due day |
| `Models.Assinatura.CalcularProximaCobranca` | assinaturas/models.py:175-202 | the loop returns `NextCharge` of the chosen base date; a base not before today comes back unchanged |
| `Models.Assinatura.Save` | assinaturas/models.py:160-173 | an unset next date becomes the next charge from the first charge date (not before today); an unset or zero due day becomes the first charge's day, in 1..31; set fields and all other columns are kept; a raising call changes nothing |
| `Models.Assinatura.AtualizarProximaCobranca` | assinaturas/models.py:247-254 | the next date (or the first charge date when unset) is rolled past today and stored, and is a fixed point of rolling again; the due day is defaulted as in save; other columns are kept; a raising call changes nothing |

## Left out

- Persistence: `super().save()`, the timestamps `data_criacao` and `data_atualizacao`, uniqueness and index constraints, and every ORM query. The columns `usuario`, `categoria`, `descricao` and `observacoes` are not fields of the model class: no billing rule reads them, and `save` and `atualizar_proxima_cobranca` leave them untouched.
- The clock: `date.today()` is the `today` parameter of each operation.
- `Billing.ValorMensal`: division is exact over the reals; Python's `Decimal` rounds a quotient to 28 significant digits, so the model does not claim bit-equality for the TRIMESTRAL, SEMESTRAL and ANUAL branches.
- `Billing.DiasAteProximaCobranca`: takes the next charge date as a set date; with the column unset the source raises `TypeError`, which a saved record cannot meet because the column is NOT NULL.
- `Billing.EstaVencida`: same as above for an unset next charge date.
- `Models.Assinatura.CalcularProximaCobranca`: the first charge date is always set in the model; the source raises `TypeError` if it and the next date are both `None`, which a saved record cannot meet.
- The validators on `valor` (`Billing.ValorValido`) and `dia_vencimento` (`Billing.DiaVencimentoValido`) are stated as checks on a value; Django runs them in form and model validation, not in `save`, so `Save` does not check them.
- `relativedelta` is modelled only for its `years` and `months` parts, the only ones the source sets.
- The `Categoria` model, the views, admin, signals, URL routing and the seeding and statistics scripts: web and database plumbing with no billing logic. The admin's "Vencida há" branch for a negative day count is unreachable, as `Billing.DaysLeftAndOverdue` shows.

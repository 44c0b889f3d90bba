/**
 * The subscription record (`Assinatura`) and the methods that fill in and
 * advance its next charge date. Field names follow the model's columns; the
 * date of today is a parameter of every method that reads the clock.
 *
 * A method that returns `ok == false` stands for a call that raised
 * `ValueError` (a step of the cycle left Python's year range); such a call
 * changes no field.
 */
module Models {
  import opened Calendar
  import opened Billing

  datatype Option<T> = None | Some(value: T)

  /** Python's `not x` on a nullable integer column: `None` and `0` are both falsy. */
  predicate Unset(dia: Option<int>) {
    dia.None? || dia.value == 0
  }

  class Assinatura {
    var nome: string
    var valor: int                       // cents
    var moeda: string
    var cicloPagamento: string
    var dataPrimeiraCobranca: Date
    var dataProximaCobranca: Option<Date>
    var diaVencimento: Option<int>
    var status: string

    /** Every stored date is one that `datetime.date` accepts. */
    ghost predicate Valid()
      reads this
    {
      && ValidDate(dataPrimeiraCobranca)
      && (dataProximaCobranca.Some? ==> ValidDate(dataProximaCobranca.value))
    }

    /** A new, unsaved record with the column defaults: currency BRL, status ATIVA. */
    constructor (nome: string, valor: int, cicloPagamento: string, dataPrimeiraCobranca: Date)
      requires ValidDate(dataPrimeiraCobranca)
      ensures Valid()
      ensures this.nome == nome && this.valor == valor && this.cicloPagamento == cicloPagamento
      ensures this.dataPrimeiraCobranca == dataPrimeiraCobranca
      ensures moeda == "BRL" && status == "ATIVA"
      ensures dataProximaCobranca == None && diaVencimento == None
    {
      this.nome := nome;
      this.valor := valor;
      this.moeda := "BRL";
      this.cicloPagamento := cicloPagamento;
      this.dataPrimeiraCobranca := dataPrimeiraCobranca;
      this.dataProximaCobranca := None;
      this.diaVencimento := None;
      this.status := "ATIVA";
    }

    /**
     * The base date `calcular_proxima_cobranca` starts from: the argument,
     * or else the stored next charge date, or else the first charge date.
     */
    function BaseDate(dataBase: Option<Date>): (r: Date)
      reads this
      ensures Valid() && (dataBase.Some? ==> ValidDate(dataBase.value)) ==> ValidDate(r)
      ensures dataBase.Some? ==> r == dataBase.value
      ensures dataBase.None? ==> r == if dataProximaCobranca.Some? then dataProximaCobranca.value
                                      else dataPrimeiraCobranca
    {
      if dataBase.Some? then dataBase.value
      else if dataProximaCobranca.Some? then dataProximaCobranca.value
      else dataPrimeiraCobranca
    }

    /**
     * `calcular_proxima_cobranca`: a base date not before today is returned
     * as it is; otherwise the cycle's step is added until the date is no
     * longer before today.
     */
    method CalcularProximaCobranca(dataBase: Option<Date>, today: Date) returns (r: Outcome)
      requires Valid() && ValidDate(today)
      requires dataBase.Some? ==> ValidDate(dataBase.value)
      ensures r == NextCharge(BaseDate(dataBase), CycleDelta(cicloPagamento), today)
      ensures !Before(BaseDate(dataBase), today) ==> r == Ok(BaseDate(dataBase))
    {
      var base := BaseDate(dataBase);
      if !Before(base, today) {
        return Ok(base);
      }
      var delta := CycleDelta(cicloPagamento);
      var proxima := base;
      while Before(proxima, today)
        invariant ValidDate(proxima)
        invariant NextCharge(proxima, delta, today) == NextCharge(base, delta, today)
        decreases MonthIndex(today) - MonthIndex(proxima)
      {
        MonthIndexBefore(proxima, today);
        var step := AddDelta(proxima, delta);
        if step.YearOutOfRange? {
          return YearOutOfRange;
        }
        AddDeltaAdvances(proxima, delta);
        proxima := step.date;
      }
      return Ok(proxima);
    }

    /**
     * The defaulting part of `save`: an unset next charge date becomes the
     * next charge computed from the first charge date, and an unset due day
     * becomes the day of the first charge date. Set fields are kept.
     */
    method Save(today: Date) returns (ok: bool)
      requires Valid() && ValidDate(today)
      modifies this`dataProximaCobranca, this`diaVencimento
      ensures Valid()
      ensures ok <==> old(dataProximaCobranca).Some?
                      || NextCharge(dataPrimeiraCobranca, CycleDelta(cicloPagamento), today).Ok?
      ensures !ok ==> dataProximaCobranca == old(dataProximaCobranca) && diaVencimento == old(diaVencimento)
      ensures ok && old(dataProximaCobranca).Some? ==> dataProximaCobranca == old(dataProximaCobranca)
      ensures ok && old(dataProximaCobranca).None? ==>
                dataProximaCobranca == Some(NextCharge(dataPrimeiraCobranca, CycleDelta(cicloPagamento), today).date)
                && !Before(dataProximaCobranca.value, today)
      ensures ok && Unset(old(diaVencimento)) ==>
                diaVencimento == Some(dataPrimeiraCobranca.day) && DiaVencimentoValido(diaVencimento.value)
      ensures ok && !Unset(old(diaVencimento)) ==> diaVencimento == old(diaVencimento)
    {
      if dataProximaCobranca.None? {
        var r := CalcularProximaCobranca(Some(dataPrimeiraCobranca), today);
        if r.YearOutOfRange? {
          return false;
        }
        dataProximaCobranca := Some(r.date);
      }
      if Unset(diaVencimento) {
        diaVencimento := Some(dataPrimeiraCobranca.day);
      }
      ok := true;
    }

    /**
     * `atualizar_proxima_cobranca`: the next charge date (or, when unset,
     * the first charge date) is rolled forward past today and stored, then
     * `save` runs. The new date is a fixed point: rolling it again with the
     * same today gives it back.
     */
    method AtualizarProximaCobranca(today: Date) returns (ok: bool)
      requires Valid() && ValidDate(today)
      modifies this`dataProximaCobranca, this`diaVencimento
      ensures Valid()
      ensures ok <==> NextCharge(old(BaseDate(None)), CycleDelta(cicloPagamento), today).Ok?
      ensures !ok ==> dataProximaCobranca == old(dataProximaCobranca) && diaVencimento == old(diaVencimento)
      ensures ok ==>
                dataProximaCobranca == Some(NextCharge(old(BaseDate(None)), CycleDelta(cicloPagamento), today).date)
      ensures ok ==> !Before(dataProximaCobranca.value, today)
                     && NextCharge(dataProximaCobranca.value, CycleDelta(cicloPagamento), today)
                        == Ok(dataProximaCobranca.value)
      ensures ok ==> diaVencimento == if Unset(old(diaVencimento)) then Some(dataPrimeiraCobranca.day)
                                      else old(diaVencimento)
    {
      var r := CalcularProximaCobranca(dataProximaCobranca, today);
      if r.YearOutOfRange? {
        return false;
      }
      NextChargeIdempotent(old(BaseDate(None)), CycleDelta(cicloPagamento), today);
      dataProximaCobranca := Some(r.date);
      ok := Save(today);
    }
  }

  /**
   * A new monthly subscription first charged on 31 January 2024 and saved
   * on 15 March 2024 gets 29 March 2024 as its next charge and 31 as its
   * due day; updating it again the same day changes nothing.
   */
  method SaveThenUpdateExample() {
    var a := new Assinatura("Streaming", 5590, Mensal, Date(2024, 1, 31));
    var ok := a.Save(Date(2024, 3, 15));
    ClampCompounds();
    assert ok && a.dataProximaCobranca == Some(Date(2024, 3, 29));
    assert a.diaVencimento == Some(31);
    ok := a.AtualizarProximaCobranca(Date(2024, 3, 15));
    assert ok && a.dataProximaCobranca == Some(Date(2024, 3, 29));
  }
}

/** The stock panel of the contract wizard: for every date of the contract's range, whether it is an
    on-air day and whether the stock left on that date covers the plan's daily number of spots. */
module StockAvailability {
  import opened Wrappers
  import opened Calendar
  import opened Emission
  import Lists
  import ContractForm

  /** One row of the stock query: the day number of its date and the spots still free on it (null when
      unknown). Dates are keyed by their calendar day, as the `YYYY-MM-DD` prefix keys them. */
  datatype StockRecord = StockRecord(fecha: int, disponibles: Option<int>)

  /** Spots assumed free on a date the query says nothing about. */
  const DEFAULT_STOCK := 100

  /** `new Map(stockInfo.map(s => [date, s.anuncios_disponibles]))`: one entry per date, a later record
      replacing an earlier one for the same date. */
  function StockMap(info: seq<StockRecord>): (m: map<int, Option<int>>)
    ensures forall i :: 0 <= i < |info| ==> info[i].fecha in m
    ensures forall d :: d in m ==> exists i :: 0 <= i < |info| && info[i].fecha == d && m[d] == info[i].disponibles
  {
    if info == [] then map[]
    else
      var last := info[|info| - 1];
      StockMap(info[..|info| - 1])[last.fecha := last.disponibles]
  }

  /** The map holds, for each date, the last record of that date. */
  lemma {:induction false} LaterRecordWins(info: seq<StockRecord>, i: int)
    requires 0 <= i < |info|
    requires forall j :: i < j < |info| ==> info[j].fecha != info[i].fecha
    ensures StockMap(info)[info[i].fecha] == info[i].disponibles
  {
    var k := |info| - 1;
    if i < k {
      LaterRecordWins(info[..k], i);
    }
  }

  /** `stockMap.get(fechaStr) ?? 100`: a missing date or a null count means the default. */
  function Available(stock: map<int, Option<int>>, d: int): (n: int)
    ensures d in stock && stock[d].Some? ==> n == stock[d].value
    ensures !(d in stock && stock[d].Some?) ==> n == DEFAULT_STOCK
  {
    if d in stock && stock[d].Some? then stock[d].value else DEFAULT_STOCK
  }

  /** `planSeleccionado.max_anuncios_por_dia || 0`. */
  function Required(plan: ContractForm.Plan): (n: int)
    ensures plan.maxAnunciosPorDia.None? ==> n == 0
    ensures plan.maxAnunciosPorDia.Some? ==> n == plan.maxAnunciosPorDia.value
  {
    plan.maxAnunciosPorDia.GetOr(0)
  }

  /** The day numbers from `inicio` to `fin`, both included; none when `fin` comes first. */
  function RangeOf(inicio: int, fin: int): (r: seq<int>)
    ensures |r| == if fin < inicio then 0 else fin - inicio + 1
    ensures forall i :: 0 <= i < |r| ==> r[i] == inicio + i
    ensures forall i :: 0 <= i < |r| ==> inicio <= r[i] <= fin
  {
    if fin < inicio then [] else seq(fin - inicio + 1, i => inicio + i)
  }

  /** The `fechasDelRango` loop: start at `inicio` and step one day at a time while not past `fin`
      (`setDate(getDate() + 1)` is the next day number, by `Calendar.NextDayNumber`). */
  method DateRange(inicio: int, fin: int) returns (fechas: seq<int>)
    ensures fechas == RangeOf(inicio, fin)
  {
    fechas := [];
    var fechaActual := inicio;
    while fechaActual <= fin
      invariant fechaActual == inicio + |fechas|
      invariant fechaActual <= fin + 1 || fechas == []
      invariant forall i :: 0 <= i < |fechas| ==> fechas[i] == inicio + i
      decreases fin - fechaActual
    {
      fechas := fechas + [fechaActual];
      fechaActual := fechaActual + 1;
    }
  }

  /** One entry of `resumenDiario`. */
  datatype DayEntry = DayEntry(fecha: int, esDiaSeleccionado: bool, disponibles: int, hayStock: bool)

  function Entry(stock: map<int, Option<int>>, dias: EmissionDays, requeridos: int, d: int): (e: DayEntry)
    ensures e.fecha == d && e.disponibles == Available(stock, d)
    ensures e.esDiaSeleccionado <==> OnAir(dias, d)
    ensures e.hayStock <==> Available(stock, d) >= requeridos
  {
    var disponibles := Available(stock, d);
    DayEntry(d, dias.Has(WeekdayAt(d)), disponibles, disponibles >= requeridos)
  }

  /** `fechasDelRango.map(...)`: one entry per date, in order. */
  function Resumen(stock: map<int, Option<int>>, dias: EmissionDays, requeridos: int, fechas: seq<int>): (r: seq<DayEntry>)
    ensures |r| == |fechas|
    ensures forall i :: 0 <= i < |r| ==> r[i] == Entry(stock, dias, requeridos, fechas[i])
  {
    seq(|fechas|, i requires 0 <= i < |fechas| => Entry(stock, dias, requeridos, fechas[i]))
  }

  lemma ResumenSnoc(stock: map<int, Option<int>>, dias: EmissionDays, requeridos: int, fechas: seq<int>, k: int)
    requires 0 <= k < |fechas|
    ensures Resumen(stock, dias, requeridos, fechas[..k + 1])
            == Resumen(stock, dias, requeridos, fechas[..k]) + [Entry(stock, dias, requeridos, fechas[k])]
  {
    var a := Resumen(stock, dias, requeridos, fechas[..k + 1]);
    var b := Resumen(stock, dias, requeridos, fechas[..k]) + [Entry(stock, dias, requeridos, fechas[k])];
    assert |a| == |b|;
    forall i | 0 <= i < |a| ensures a[i] == b[i] {
      if i < k {
        assert fechas[..k + 1][i] == fechas[..k][i];
      }
    }
  }

  /** A day counted by `diasConConflicto`: on air, and short of spots. */
  predicate IsConflict(e: DayEntry) {
    e.esDiaSeleccionado && !e.hayStock
  }

  predicate IsSelected(e: DayEntry) {
    e.esDiaSeleccionado
  }

  function Conflicts(r: seq<DayEntry>): nat {
    Lists.Count(r, IsConflict)
  }

  /** The `resumenDiario` map with its conflict counter. */
  method Summarize(stock: map<int, Option<int>>, dias: EmissionDays, requeridos: int, fechas: seq<int>)
    returns (resumen: seq<DayEntry>, diasConConflicto: nat)
    ensures resumen == Resumen(stock, dias, requeridos, fechas)
    ensures diasConConflicto == Conflicts(resumen)
  {
    resumen := [];
    diasConConflicto := 0;
    var i := 0;
    while i < |fechas|
      invariant 0 <= i <= |fechas|
      invariant resumen == Resumen(stock, dias, requeridos, fechas[..i])
      invariant diasConConflicto == Conflicts(resumen)
    {
      var fecha := fechas[i];
      var diaSemana := WeekdayAt(fecha);
      var esDiaSeleccionado := dias.Has(diaSemana);
      var disponibles := Available(stock, fecha);
      var hayStock := disponibles >= requeridos;
      var entry := DayEntry(fecha, esDiaSeleccionado, disponibles, hayStock);
      Lists.CountAppend(resumen, entry, IsConflict);
      ResumenSnoc(stock, dias, requeridos, fechas, i);
      if esDiaSeleccionado && !hayStock {
        diasConConflicto := diasConConflicto + 1;
      }
      resumen := resumen + [entry];
      i := i + 1;
    }
    assert fechas[..i] == fechas;
  }

  /** What the panel shows. */
  datatype StockView =
    | NeedsSelection
    | Loading
    | Summary(resumen: seq<DayEntry>, diasConConflicto: nat, anunciosRequeridos: int)

  /** The panel: ask for a plan and both dates first, wait for the query, then the day-by-day summary. */
  method Disponibilidad(stockInfo: seq<StockRecord>, loadingStock: bool, fechaInicio: Option<Date>,
                        fechaFin: Option<Date>, dias: EmissionDays, plan: Option<ContractForm.Plan>)
    returns (v: StockView)
    ensures fechaInicio.None? || fechaFin.None? || plan.None? ==> v == NeedsSelection
    ensures fechaInicio.Some? && fechaFin.Some? && plan.Some? && loadingStock ==> v == Loading
    ensures fechaInicio.Some? && fechaFin.Some? && plan.Some? && !loadingStock ==>
              v.Summary? &&
              v.anunciosRequeridos == Required(plan.value) &&
              v.resumen == Resumen(StockMap(stockInfo), dias, v.anunciosRequeridos, RangeOf(DayNumber(fechaInicio.value), DayNumber(fechaFin.value))) &&
              v.diasConConflicto == Conflicts(v.resumen)
  {
    if fechaInicio.None? || fechaFin.None? || plan.None? {
      return NeedsSelection;
    }
    if loadingStock {
      return Loading;
    }
    var anunciosRequeridos := Required(plan.value);
    var stockMap := StockMap(stockInfo);
    var fechasDelRango := DateRange(DayNumber(fechaInicio.value), DayNumber(fechaFin.value));
    var resumen, diasConConflicto := Summarize(stockMap, dias, anunciosRequeridos, fechasDelRango);
    return Summary(resumen, diasConConflicto, anunciosRequeridos);
  }

  /** The badge of one row. */
  datatype RowStatus = NoEmite | Ok(disponibles: int) | Faltan(cantidad: int)

  function Status(e: DayEntry, requeridos: int): (s: RowStatus)
    requires e.hayStock <==> e.disponibles >= requeridos
    ensures s == NoEmite <==> !e.esDiaSeleccionado
    ensures s.Ok? <==> e.esDiaSeleccionado && e.hayStock
    ensures s.Ok? ==> s.disponibles == e.disponibles
    ensures s.Faltan? ==> s.cantidad > 0 && e.disponibles + s.cantidad == requeridos
  {
    if !e.esDiaSeleccionado then NoEmite
    else if e.hayStock then Ok(e.disponibles)
    else Faltan(requeridos - e.disponibles)
  }

  /** Conflicts are among the on-air days, which are among the days of the range. */
  lemma ConflictsBounded(r: seq<DayEntry>)
    ensures Conflicts(r) <= Lists.Count(r, IsSelected) <= |r|
  {
    Lists.CountMonotone(r, IsConflict, IsSelected);
  }

  /** Entries whose on-air flags follow the weekdays of consecutive day numbers from `s` count the
      form's `diasEmisionActivos`. */
  lemma {:induction false} SelectedIsActiveDays(dias: EmissionDays, r: seq<DayEntry>, s: int)
    requires forall i :: 0 <= i < |r| ==> (r[i].esDiaSeleccionado <==> OnAir(dias, s + i))
    ensures Lists.Count(r, IsSelected) == ActiveDays(dias, s, s + |r| - 1)
    decreases |r|
  {
    if r != [] {
      var front := r[..|r| - 1];
      SelectedIsActiveDays(dias, front, s);
      assert Lists.Count(front, IsSelected) == ActiveDays(dias, s, s + |r| - 2);
      Lists.CountLast(r, IsSelected);
    }
  }

  /** The on-air days of the panel's range are the ones the form prices. */
  lemma RangeSelectedIsActiveDays(stock: map<int, Option<int>>, dias: EmissionDays, requeridos: int, inicio: int, fin: int)
    ensures Lists.Count(Resumen(stock, dias, requeridos, RangeOf(inicio, fin)), IsSelected)
            == ActiveDays(dias, inicio, fin)
  {
    var fechas := RangeOf(inicio, fin);
    var r := Resumen(stock, dias, requeridos, fechas);
    forall i | 0 <= i < |r| ensures r[i].esDiaSeleccionado <==> OnAir(dias, inicio + i) {
      assert r[i] == Entry(stock, dias, requeridos, fechas[i]) && fechas[i] == inicio + i;
    }
    SelectedIsActiveDays(dias, r, inicio);
    if fin < inicio {
      assert |r| == 0;
    } else {
      assert inicio + |r| - 1 == fin;
    }
  }

  /** When no record is short of the daily spots and the default covers them too, there is no conflict. */
  lemma AmpleStockNoConflict(info: seq<StockRecord>, dias: EmissionDays, requeridos: int, fechas: seq<int>)
    requires requeridos <= DEFAULT_STOCK
    requires forall i :: 0 <= i < |info| && info[i].disponibles.Some? ==> info[i].disponibles.value >= requeridos
    ensures Conflicts(Resumen(StockMap(info), dias, requeridos, fechas)) == 0
  {
    var m := StockMap(info);
    forall d: int | d in m && m[d].Some? ensures m[d].value >= requeridos {
      var j :| 0 <= j < |info| && info[j].fecha == d && m[d] == info[j].disponibles;
    }
    var r := Resumen(m, dias, requeridos, fechas);
    assert forall i :: 0 <= i < |r| ==> !IsConflict(r[i]);
  }

  /** Without a stock record, every on-air date is a conflict exactly when the plan needs more than the
      default. */
  lemma NoRecordsConflicts(dias: EmissionDays, requeridos: int, fechas: seq<int>)
    ensures Conflicts(Resumen(StockMap([]), dias, requeridos, fechas))
            == if requeridos <= DEFAULT_STOCK then 0 else Lists.Count(Resumen(StockMap([]), dias, requeridos, fechas), IsSelected)
  {
    var r := Resumen(StockMap([]), dias, requeridos, fechas);
    if requeridos > DEFAULT_STOCK {
      SameCount(r, IsConflict, IsSelected);
    } else {
      AmpleStockNoConflict([], dias, requeridos, fechas);
    }
  }

  lemma {:induction false} SameCount(r: seq<DayEntry>, p: DayEntry -> bool, q: DayEntry -> bool)
    requires forall i :: 0 <= i < |r| ==> (p(r[i]) <==> q(r[i]))
    ensures Lists.Count(r, p) == Lists.Count(r, q)
  {
    if r != [] {
      SameCount(r[1..], p, q);
    }
  }
}

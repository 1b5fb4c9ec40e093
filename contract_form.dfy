/** The contract creation wizard: four steps with a validity check each, the schedule and price the
    form derives from the selected dates, weekdays, plan and discount, the quick duration entry that
    fills in the end date, and the payload that is submitted. */
module ContractForm {
  import opened Wrappers
  import opened Calendar
  import opened Emission
  import opened Pricing

  /** A subscription plan as the wizard uses it. */
  datatype Plan = Plan(id: int, precio: real, maxAnunciosPorDia: Option<int>)

  /** `planes.find(p => p.id === id)`: the first plan with that id. */
  function FindPlan(planes: seq<Plan>, id: int): (r: Option<Plan>)
    ensures r.Some? ==> r.value in planes && r.value.id == id
    ensures r.None? <==> forall i :: 0 <= i < |planes| ==> planes[i].id != id
    ensures planes != [] && planes[0].id == id ==> r == Some(planes[0])
    ensures r.Some? ==> exists i :: 0 <= i < |planes| && planes[i] == r.value &&
                                    forall j :: 0 <= j < i ==> planes[j].id != id
  {
    if planes == [] then None
    else if planes[0].id == id then Some(planes[0])
    else FindPlan(planes[1..], id)
  }

  /** The agreed amount: text typed by the operator (or loaded for editing), or the suggested price
      written into the field by the form. */
  datatype Amount = Entered(text: string) | Suggested(price: real)

  /** A stored number is set when it is present and not 0 (JavaScript's `!!value`). */
  predicate IsSet(v: Option<int>) {
    v.Some? && v.value != 0
  }

  /** `!!formData.monto_acordado`: a suggested price is written as a non-empty text. */
  predicate AmountSet(a: Amount) {
    a.Suggested? || a.text != ""
  }

  datatype FormData = FormData(
    clienteId: Option<int>,
    nuevoClienteNombre: string,
    nuevoClienteEmail: string,
    nuevoClienteTipoDoc: string,
    nuevoClienteNumDoc: string,
    nuevoClienteDireccion: string,
    planId: Option<int>,
    nombreCampana: string,
    fechaInicio: Option<Date>,
    fechaFin: Option<Date>,
    montoAcordado: Amount,
    detallesAnuncio: string,
    precioBase: Option<real>,
    descuento: Option<real>)

  const EmptyForm := FormData(None, "", "", "", "", "", None, "", None, None, Entered(""), "", None, None)

  datatype ClientKind = Existente | Nuevo

  const TOTAL_STEPS := 4

  /** `isStepValid`: what each step needs before the wizard moves on. */
  function StepValid(step: int, tipoCliente: ClientKind, fd: FormData): (r: bool)
    ensures r ==> 1 <= step <= TOTAL_STEPS
    ensures step == 1 && tipoCliente == Existente ==> (r <==> IsSet(fd.clienteId))
    ensures step == 1 && tipoCliente == Nuevo ==> (r <==> fd.nuevoClienteNombre != "" && fd.nuevoClienteEmail != "")
    ensures step == 2 ==> (r <==> IsSet(fd.planId))
    ensures step == 3 ==> (r <==> fd.fechaInicio.Some? && fd.fechaFin.Some?)
    ensures step == 4 ==> (r <==> fd.nombreCampana != "" && AmountSet(fd.montoAcordado))
  {
    if step == 1 then
      (if tipoCliente == Existente then IsSet(fd.clienteId)
       else fd.nuevoClienteNombre != "" && fd.nuevoClienteEmail != "")
    else if step == 2 then IsSet(fd.planId)
    else if step == 3 then fd.fechaInicio.Some? && fd.fechaFin.Some?
    else if step == 4 then fd.nombreCampana != "" && AmountSet(fd.montoAcordado)
    else false
  }

  /** What the form shows: calendar days, on-air days and the suggested price. */
  datatype Schedule = Schedule(diasTotales: nat, diasEmisionActivos: nat, precioCalculado: real)

  const NoSchedule := Schedule(0, 0, 0.0)

  /** Both dates and a plan are chosen. */
  predicate Complete(fd: FormData) {
    fd.fechaInicio.Some? && fd.fechaFin.Some? && IsSet(fd.planId)
  }

  /** The chosen dates form a range that is not reversed. */
  predicate Ready(fd: FormData) {
    Complete(fd) && DayNumber(fd.fechaInicio.value) <= DayNumber(fd.fechaFin.value)
  }

  /** The schedule the memo computes from the form. */
  function ScheduleOf(fd: FormData, dias: EmissionDays, planes: seq<Plan>): (r: Schedule)
    // incomplete input or a reversed range gives zeros
    ensures !Ready(fd) ==> r == NoSchedule
    // otherwise the inclusive day count and the on-air days of the range
    ensures Ready(fd) ==> r.diasTotales == DayNumber(fd.fechaFin.value) - DayNumber(fd.fechaInicio.value) + 1
    ensures Ready(fd) ==> r.diasEmisionActivos == ActiveDays(dias, DayNumber(fd.fechaInicio.value), DayNumber(fd.fechaFin.value))
    ensures r.diasEmisionActivos <= r.diasTotales
    // an unknown plan keeps the day counts but prices nothing
    ensures Ready(fd) && FindPlan(planes, fd.planId.value).None? ==> r.precioCalculado == 0.0
    ensures Ready(fd) && FindPlan(planes, fd.planId.value).Some? ==>
      r.precioCalculado == Price(FindPlan(planes, fd.planId.value).value.precio, r.diasEmisionActivos, fd.descuento)
    ensures r.precioCalculado >= 0.0
  {
    if !Ready(fd) then NoSchedule
    else
      var s, e := DayNumber(fd.fechaInicio.value), DayNumber(fd.fechaFin.value);
      var activos := ActiveDays(dias, s, e);
      var plan := FindPlan(planes, fd.planId.value);
      Schedule(e - s + 1, activos, if plan.None? then 0.0 else Price(plan.value.precio, activos, fd.descuento))
  }

  /** The memo: walk the range a day at a time and count the days whose weekday flag is on. */
  method ComputeSchedule(fd: FormData, dias: EmissionDays, planes: seq<Plan>) returns (r: Schedule)
    ensures r == ScheduleOf(fd, dias, planes)
  {
    if fd.fechaInicio.None? || fd.fechaFin.None? || !IsSet(fd.planId) {
      return NoSchedule;
    }
    var inicio, fin := fd.fechaInicio.value, fd.fechaFin.value;
    if DayNumber(fin) < DayNumber(inicio) {
      return NoSchedule;
    }
    var diffDays := DayNumber(fin) - DayNumber(inicio) + 1;
    var activeEmissionDays := 0;
    // the loop's date, as its day number: `d.setDate(d.getDate() + 1)` adds one (Calendar.NextDayNumber)
    var d := DayNumber(inicio);
    while d <= DayNumber(fin)
      invariant DayNumber(inicio) <= d <= DayNumber(fin) + 1
      invariant activeEmissionDays == ActiveDays(dias, DayNumber(inicio), d - 1)
      decreases DayNumber(fin) - d
    {
      if dias.Has(WeekdayAt(d)) {
        activeEmissionDays := activeEmissionDays + 1;
      }
      d := d + 1;
    }
    var plan := FindPlan(planes, fd.planId.value);
    if plan.None? {
      return Schedule(diffDays, activeEmissionDays, 0.0);
    }
    r := Schedule(diffDays, activeEmissionDays, Price(plan.value.precio, activeEmissionDays, fd.descuento));
  }

  /** With every weekday on air, each day of the range counts. */
  lemma AllWeekdaysCountEveryDay(fd: FormData, planes: seq<Plan>)
    ensures ScheduleOf(fd, AllDays, planes).diasEmisionActivos == ScheduleOf(fd, AllDays, planes).diasTotales
  {
    if Ready(fd) {
      ActiveDaysAll(DayNumber(fd.fechaInicio.value), DayNumber(fd.fechaFin.value));
    }
  }

  /** The first week of 2024 (Monday 1 to Sunday 7) has five weekdays; at 300.00 a month with a
      10.00 discount they cost 40.00. */
  lemma FirstWeekOf2024()
    ensures var fd := EmptyForm.(planId := Some(1), fechaInicio := Some(YMD(2024, 1, 1)),
                                fechaFin := Some(YMD(2024, 1, 7)), descuento := Some(10.0));
      ScheduleOf(fd, Weekdays, [Plan(1, 300.0, None)]) == Schedule(7, 5, 40.0)
  {
    assert DayNumber(YMD(2024, 1, 1)) == 19723;
    assert DayNumber(YMD(2024, 1, 7)) == 19729;
    FirstWeekOf2024Days();
    PriceExample();
  }

  lemma FirstWeekOf2024Days()
    ensures ActiveDays(Weekdays, 19723, 19729) == 5
  {
    assert WeekdayAt(19723) == Lunes && WeekdayAt(19724) == Martes && WeekdayAt(19725) == Miercoles;
    assert WeekdayAt(19726) == Jueves && WeekdayAt(19727) == Viernes;
    assert WeekdayAt(19728) == Sabado && WeekdayAt(19729) == Domingo;
    assert ActiveDays(Weekdays, 19723, 19722) == 0;
    assert ActiveDays(Weekdays, 19723, 19723) == 1;
    assert ActiveDays(Weekdays, 19723, 19724) == 2;
    assert ActiveDays(Weekdays, 19723, 19725) == 3;
    assert ActiveDays(Weekdays, 19723, 19726) == 4;
    assert ActiveDays(Weekdays, 19723, 19727) == 5;
    assert ActiveDays(Weekdays, 19723, 19728) == 5;
  }

  datatype DurationUnit = Meses | Dias

  /** `d.setDate(d.getDate() - 1)` is the day before. */
  lemma SetDateBack(d: Date)
    ensures SetDate(d, d.day - 1) == PrevDay(d)
  {
    if d.day == 1 {
      var first: Date := YMD(d.year, d.month, 1);
      assert d == first;
      assert SetDate(d, 0) == AddDays(first, -1);
      assert AddDays(first, -1) == AddDays(PrevDay(first), 0);
    }
  }

  /** The end date of a quick duration of n months or n days from `start`. */
  function DurationEnd(start: Date, unit: DurationUnit, n: int): Date {
    match unit
    case Meses =>
      var f := SetMonth(start, start.month - 1 + n);
      SetDate(f, f.day - 1)
    case Dias => SetDate(start, start.day + n - 1)
  }

  /** n days end n - 1 days after the start, so one day ends on the start itself. */
  lemma DurationEndDays(start: Date, n: int)
    ensures DayNumber(DurationEnd(start, Dias, n)) == DayNumber(start) + n - 1
    ensures n == 1 ==> DurationEnd(start, Dias, n) == start
  {
    SetDateNumber(start, start.day + n - 1);
  }

  /** n months end the day before the same day of the month n months later, rolling over as
      `setMonth` does when that month is shorter. */
  lemma DurationEndMonths(start: Date, n: int)
    ensures DurationEnd(start, Meses, n) == PrevDay(SetMonth(start, start.month - 1 + n))
    ensures start.day <= 28 ==>
      DurationEnd(start, Meses, n) == PrevDay(YMD(start.year + (start.month - 1 + n) / 12, (start.month - 1 + n) % 12 + 1, start.day))
  {
    SetDateBack(SetMonth(start, start.month - 1 + n));
  }

  /** The effect's date arithmetic: copy the start, then move the copy with `setMonth` and `setDate`. */
  method ResolveEnd(fechaInicio: Date, duracionTipo: DurationUnit, n: int) returns (fechaFin: Date)
    ensures fechaFin == DurationEnd(fechaInicio, duracionTipo, n)
  {
    fechaFin := fechaInicio;
    match duracionTipo {
      case Meses =>
        fechaFin := SetMonth(fechaFin, fechaInicio.month - 1 + n);
        fechaFin := SetDate(fechaFin, fechaFin.day - 1);
      case Dias =>
        fechaFin := SetDate(fechaFin, fechaInicio.day + n - 1);
    }
  }

  /** One month from the first of a month ends on the last day of that month (29 February in a leap
      year, 28 February otherwise). */
  lemma OneMonthFromFirst(y: int, m: int)
    requires 1 <= m <= 12
    ensures DurationEnd(YMD(y, m, 1), Meses, 1) == YMD(y, m, DaysInMonth(y, m))
  {
    var start: Date := YMD(y, m, 1);
    DurationEndMonths(start, 1);
    if m < 12 {
      assert m / 12 == 0 && m % 12 == m;
      assert PrevDay(YMD(y, m + 1, 1)) == YMD(y, m, DaysInMonth(y, m));
    } else {
      assert m / 12 == 1 && m % 12 == 0;
      assert PrevDay(YMD(y + 1, 1, 1)) == YMD(y, 12, 31);
    }
  }

  datatype Value =
    | IdValue(id: Option<int>)
    | TextValue(text: string)
    | DateValue(date: Option<Date>)
    | AmountValue(amount: Amount)
    | MoneyValue(money: Option<real>)
    | ListValue(items: seq<string>)

  /** The keys of the submitted payload. */
  datatype Field =
    | ClienteId | NuevoClienteNombre | NuevoClienteEmail | NuevoClienteTipoDoc | NuevoClienteNumDoc
    | NuevoClienteDireccion | PlanId | NombreCampana | FechaInicio | FechaFin | MontoAcordado
    | DetallesAnuncio | PrecioBase | Descuento | DiasEmision
  {
    /** The property name the payload carries for this key. */
    function Key(): string {
      match this
      case ClienteId => "cliente_id"
      case NuevoClienteNombre => "nuevo_cliente_nombre"
      case NuevoClienteEmail => "nuevo_cliente_email"
      case NuevoClienteTipoDoc => "nuevo_cliente_tipo_doc"
      case NuevoClienteNumDoc => "nuevo_cliente_num_doc"
      case NuevoClienteDireccion => "nuevo_cliente_direccion"
      case PlanId => "plan_id"
      case NombreCampana => "nombre_campana"
      case FechaInicio => "fecha_inicio"
      case FechaFin => "fecha_fin"
      case MontoAcordado => "monto_acordado"
      case DetallesAnuncio => "detalles_anuncio"
      case PrecioBase => "precio_base"
      case Descuento => "descuento"
      case DiasEmision => "dias_emision"
    }
  }

  /** The value the form holds under a key; the weekdays are kept outside the form. */
  function FieldValue(fd: FormData, f: Field): Value
    requires f != DiasEmision
  {
    match f
    case ClienteId => IdValue(fd.clienteId)
    case NuevoClienteNombre => TextValue(fd.nuevoClienteNombre)
    case NuevoClienteEmail => TextValue(fd.nuevoClienteEmail)
    case NuevoClienteTipoDoc => TextValue(fd.nuevoClienteTipoDoc)
    case NuevoClienteNumDoc => TextValue(fd.nuevoClienteNumDoc)
    case NuevoClienteDireccion => TextValue(fd.nuevoClienteDireccion)
    case PlanId => IdValue(fd.planId)
    case NombreCampana => TextValue(fd.nombreCampana)
    case FechaInicio => DateValue(fd.fechaInicio)
    case FechaFin => DateValue(fd.fechaFin)
    case MontoAcordado => AmountValue(fd.montoAcordado)
    case DetallesAnuncio => TextValue(fd.detallesAnuncio)
    case PrecioBase => MoneyValue(fd.precioBase)
    case Descuento => MoneyValue(fd.descuento)
  }

  /** The keys of the form's own fields. */
  const FormKeys: set<Field> := {
    ClienteId, NuevoClienteNombre, NuevoClienteEmail, NuevoClienteTipoDoc, NuevoClienteNumDoc,
    NuevoClienteDireccion, PlanId, NombreCampana, FechaInicio, FechaFin, MontoAcordado,
    DetallesAnuncio, PrecioBase, Descuento}

  /** The form carries every key but the weekdays, which live in their own state. */
  lemma FormKeysComplete()
    ensures forall f :: f in FormKeys <==> f != DiasEmision
  {
    forall f ensures f in FormKeys <==> f != DiasEmision {
      match f
      case ClienteId => case NuevoClienteNombre => case NuevoClienteEmail => case NuevoClienteTipoDoc =>
      case NuevoClienteNumDoc => case NuevoClienteDireccion => case PlanId => case NombreCampana =>
      case FechaInicio => case FechaFin => case MontoAcordado => case DetallesAnuncio =>
      case PrecioBase => case Descuento => case DiasEmision =>
    }
  }

  /** `{ ...formData }`: every field of the form under its own key. */
  function FormFields(fd: FormData): map<Field, Value> {
    map f | f in FormKeys :: FieldValue(fd, f)
  }

  /** The new-client fields, dropped when an existing client is chosen. */
  predicate IsNewClientField(f: Field) {
    f.NuevoClienteNombre? || f.NuevoClienteEmail? || f.NuevoClienteTipoDoc? || f.NuevoClienteNumDoc? || f.NuevoClienteDireccion?
  }

  /** The keys a submission drops: the new-client fields for an existing client, the client id for a
      new one, nothing when editing. */
  predicate Dropped(isEditing: bool, tipoCliente: ClientKind, f: Field) {
    !isEditing && (if tipoCliente == Existente then IsNewClientField(f) else f == ClienteId)
  }

  /** The object `handleSubmit` sends: the form's fields plus the selected weekday names, then the
      client keys that do not apply deleted. */
  method BuildPayload(fd: FormData, dias: seq<string>, isEditing: bool, tipoCliente: ClientKind)
    returns (payload: map<Field, Value>)
    ensures forall f :: f in payload <==> (f in FormKeys || f == DiasEmision) && !Dropped(isEditing, tipoCliente, f)
    ensures DiasEmision in payload && payload[DiasEmision] == ListValue(dias)
    ensures forall f :: f in payload && f != DiasEmision ==> payload[f] == FieldValue(fd, f)
  {
    payload := FormFields(fd)[DiasEmision := ListValue(dias)];
    if !isEditing && tipoCliente == Existente {
      payload := payload - {NuevoClienteNombre, NuevoClienteEmail, NuevoClienteTipoDoc, NuevoClienteNumDoc, NuevoClienteDireccion};
    } else if !isEditing && tipoCliente == Nuevo {
      payload := payload - {ClienteId};
    }
  }

  const VALIDATION_MESSAGE := "Por favor, complete todos los campos requeridos en el paso final."

  /** The state of the wizard hook. */
  class ContratoForm {
    const isEditing: bool
    var step: int
    var tipoCliente: ClientKind
    var formData: FormData
    var diasEmision: EmissionDays
    var planes: seq<Plan>
    var duracionTipo: DurationUnit
    /** `parseInt(duracionValor, 10)`, None while the field is empty. */
    var duracionValor: Option<int>

    ghost predicate Valid()
      reads this
    {
      1 <= step <= TOTAL_STEPS
    }

    constructor (isEditing: bool, planes: seq<Plan>)
      ensures Valid() && step == 1
      ensures this.isEditing == isEditing && this.planes == planes
      ensures tipoCliente == Existente && formData == EmptyForm && diasEmision == Weekdays
      ensures duracionTipo == Meses && duracionValor == None
    {
      this.isEditing := isEditing;
      this.planes := planes;
      step := 1;
      tipoCliente := Existente;
      formData := EmptyForm;
      diasEmision := Weekdays;
      duracionTipo := Meses;
      duracionValor := None;
    }

    function IsStepValid(): bool
      reads this
    {
      StepValid(step, tipoCliente, formData)
    }

    /** Forward one step, only when the current step is valid, never past the last. */
    method NextStep()
      requires Valid()
      modifies this`step
      ensures Valid()
      ensures step == if old(IsStepValid()) then (if old(step) + 1 < TOTAL_STEPS then old(step) + 1 else TOTAL_STEPS) else old(step)
    {
      if IsStepValid() {
        step := if step + 1 < TOTAL_STEPS then step + 1 else TOTAL_STEPS;
      }
    }

    /** Back one step, never below the first. */
    method PrevStep()
      requires Valid()
      modifies this`step
      ensures Valid()
      ensures step == if old(step) - 1 > 1 then old(step) - 1 else 1
    {
      step := if step - 1 > 1 then step - 1 else 1;
    }

    /** Jump back to an earlier step; later steps cannot be reached this way. */
    method GoToStep(stepNumber: int)
      requires Valid()
      modifies this`step
      ensures step == if stepNumber < old(step) then stepNumber else old(step)
      ensures step <= old(step)
      ensures 1 <= stepNumber ==> Valid()
    {
      if stepNumber < step {
        step := stepNumber;
      }
    }

    /** Flip one weekday of the emission pattern. */
    method HandleDiasChange(dia: Weekday)
      modifies this`diasEmision
      ensures diasEmision == old(diasEmision).Toggle(dia)
      ensures diasEmision.Has(dia) == !old(diasEmision).Has(dia)
      ensures forall w :: w != dia ==> diasEmision.Has(w) == old(diasEmision).Has(w)
    {
      diasEmision := diasEmision.Toggle(dia);
    }

    /** The effect that fills in the agreed amount with the suggested price, only for a new contract,
        a positive price and a chosen plan. */
    method AutoFillAmount()
      modifies this`formData
      ensures var precio := ScheduleOf(old(formData), diasEmision, planes).precioCalculado;
        formData == if !isEditing && precio > 0.0 && IsSet(old(formData).planId)
                    then old(formData).(montoAcordado := Suggested(precio)) else old(formData)
      ensures isEditing ==> formData == old(formData)
    {
      var computed := ComputeSchedule(formData, diasEmision, planes);
      if !isEditing && computed.precioCalculado > 0.0 && IsSet(formData.planId) {
        formData := formData.(montoAcordado := Suggested(computed.precioCalculado));
      }
    }

    /** The effect of the quick duration: once a value and a plan are set, the start defaults to
        `today` and the end date is computed from it. */
    method ApplyDuration(today: Date)
      modifies this`formData
      ensures !(duracionValor.Some? && IsSet(old(formData).planId)) ==> formData == old(formData)
      ensures duracionValor.Some? && IsSet(old(formData).planId) ==>
        var start := old(formData).fechaInicio.GetOr(today);
        formData == old(formData).(fechaInicio := Some(start),
                                   fechaFin := Some(DurationEnd(start, duracionTipo, duracionValor.value)))
    {
      if duracionValor.Some? && IsSet(formData.planId) {
        var fechaInicio := formData.fechaInicio.GetOr(today);
        var fechaFin := ResolveEnd(fechaInicio, duracionTipo, duracionValor.value);
        formData := formData.(fechaInicio := Some(fechaInicio), fechaFin := Some(fechaFin));
      }
    }

    /** `handleSubmit` up to the request: refuse an invalid step, otherwise the form fields plus the
        selected weekdays, without the client fields that do not apply. */
    method SubmitPayload() returns (res: Result<map<Field, Value>, string>)
      ensures res.Failure? <==> !IsStepValid()
      ensures res.Failure? ==> res.error == VALIDATION_MESSAGE
      ensures res.Success? ==> forall f :: f in res.value <==> (f in FormKeys || f == DiasEmision) && !Dropped(isEditing, tipoCliente, f)
      ensures res.Success? ==> DiasEmision in res.value && res.value[DiasEmision] == ListValue(SelectedNames(diasEmision))
      ensures res.Success? ==> forall f :: f in res.value && f != DiasEmision ==> res.value[f] == FieldValue(formData, f)
    {
      if !IsStepValid() {
        return Failure(VALIDATION_MESSAGE);
      }
      var payload := BuildPayload(formData, SelectedNames(diasEmision), isEditing, tipoCliente);
      return Success(payload);
    }
  }
}

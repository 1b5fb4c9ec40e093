/** The contract list screen: the displayed status of a contract is derived from its stored status,
    its start and end timestamps and the current time; the screen counts contracts per derived status
    and filters them by search text and status. */
module ContractStatus {
  import opened Wrappers
  import opened Text
  import Lists

  const CANCELADO := "Cancelado"
  const PENDIENTE_ACTIVACION := "Pendiente_Activacion"
  const PROGRAMADO := "Programado"
  const VENCIDO := "Vencido"
  const POR_VENCER := "Por_Vencer"
  const ACTIVO := "Activo"
  /** The value of the status filter that shows every status. */
  const TODOS := "Todos"

  /** Seven days in milliseconds: the window in which a running contract is about to expire. */
  const WEEK_MS: int := 7 * 24 * 60 * 60 * 1000

  /** A stored date field after `value ? new Date(value) : null`: missing (null, empty), a string
      that does not parse (`getTime()` is NaN), or a timestamp in milliseconds. */
  datatype DateField = Absent | Invalid | At(ms: int)

  /** A contract record as the list receives it. */
  datatype Contrato = Contrato(
    id: int,
    nombreCampana: Option<string>,
    nombreCliente: Option<string>,
    numeroDocumento: Option<string>,
    nombrePlan: Option<string>,
    estado: string,
    estadoLocutor: Option<string>,
    fechaInicio: DateField,
    fechaFin: DateField,
    pdfUrl: Option<string>)

  /** Both date fields are absent or parse. */
  predicate DatesParse(c: Contrato) {
    !c.fechaInicio.Invalid? && !c.fechaFin.Invalid?
  }

  /** Dates parse and no administrative state is stored: the date rules decide. */
  predicate DateDriven(c: Contrato) {
    DatesParse(c) && c.estado != CANCELADO && c.estado != PENDIENTE_ACTIVACION
  }

  predicate StartsAfter(c: Contrato, now: int) {
    c.fechaInicio.At? && now < c.fechaInicio.ms
  }

  predicate EndedBefore(c: Contrato, now: int) {
    c.fechaFin.At? && now > c.fechaFin.ms
  }

  predicate EndsWithinWeek(c: Contrato, now: int) {
    c.fechaFin.At? && c.fechaFin.ms - now <= WEEK_MS
  }

  /** The displayed status of contract c at time `now` (milliseconds): the first rule that applies wins. */
  function DeriveEstado(c: Contrato, now: int): (r: string)
    // an unparseable date leaves the stored status in place, before any other rule
    ensures !DatesParse(c) ==> r == c.estado
    // an explicit administrative state wins over every date
    ensures DatesParse(c) && c.estado == CANCELADO ==> r == CANCELADO
    ensures DatesParse(c) && c.estado == PENDIENTE_ACTIVACION ==> r == PENDIENTE_ACTIVACION
    // a future start beats an elapsed end, which beats the seven-day window
    ensures DateDriven(c) && StartsAfter(c, now) ==> r == PROGRAMADO
    ensures DateDriven(c) && !StartsAfter(c, now) && EndedBefore(c, now) ==> r == VENCIDO
    ensures DateDriven(c) && !StartsAfter(c, now) && !EndedBefore(c, now) && EndsWithinWeek(c, now) ==> r == POR_VENCER
    ensures (DateDriven(c) && c.fechaInicio.At? && c.fechaFin.At? && c.fechaInicio.ms <= now <= c.fechaFin.ms
             && c.fechaFin.ms - now > WEEK_MS) ==> r == ACTIVO
    // no rule applies: the stored value is kept
    ensures (DateDriven(c) && !StartsAfter(c, now) && !EndedBefore(c, now) && !EndsWithinWeek(c, now)
             && !(c.fechaInicio.At? && c.fechaFin.At?)) ==> r == c.estado
    // what each derived label guarantees, unless the stored status already carried it
    ensures r == ACTIVO && c.estado != ACTIVO ==>
      c.fechaInicio.At? && c.fechaFin.At? && c.fechaInicio.ms <= now <= c.fechaFin.ms && c.fechaFin.ms - now > WEEK_MS
    ensures r == POR_VENCER && c.estado != POR_VENCER ==>
      c.fechaFin.At? && now <= c.fechaFin.ms && c.fechaFin.ms - now <= WEEK_MS && !StartsAfter(c, now)
    ensures r == VENCIDO && c.estado != VENCIDO ==>
      c.fechaFin.At? && now > c.fechaFin.ms && !StartsAfter(c, now)
    ensures r == PROGRAMADO && c.estado != PROGRAMADO ==> StartsAfter(c, now)
    // only the six labels or the stored value come out
    ensures r in {CANCELADO, PENDIENTE_ACTIVACION, PROGRAMADO, VENCIDO, POR_VENCER, ACTIVO} || r == c.estado
  {
    if c.fechaInicio.Invalid? then c.estado
    else if c.fechaFin.Invalid? then c.estado
    else if c.estado == CANCELADO then CANCELADO
    else if c.estado == PENDIENTE_ACTIVACION then PENDIENTE_ACTIVACION
    else if c.fechaInicio.At? && now < c.fechaInicio.ms then PROGRAMADO
    else if c.fechaFin.At? && now > c.fechaFin.ms then VENCIDO
    else if c.fechaFin.At? && c.fechaFin.ms - now <= WEEK_MS then POR_VENCER
    else if c.fechaInicio.At? && c.fechaFin.At? && now >= c.fechaInicio.ms && now <= c.fechaFin.ms then ACTIVO
    else c.estado
  }

  /** Deriving again from a record whose status was already derived changes nothing. */
  lemma DeriveIdempotent(c: Contrato, now: int)
    ensures DeriveEstado(c.(estado := DeriveEstado(c, now)), now) == DeriveEstado(c, now)
  {
  }

  /** Position of a date-driven label in the life cycle. */
  function Stage(estado: string): int {
    if estado == PROGRAMADO then 0
    else if estado == ACTIVO then 1
    else if estado == POR_VENCER then 2
    else if estado == VENCIDO then 3
    else -1
  }

  /** For a contract with both dates and no administrative state, the status only moves forward
      through Programado, Activo, Por_Vencer, Vencido as time passes. */
  lemma LifecycleMonotone(c: Contrato, t1: int, t2: int)
    requires c.fechaInicio.At? && c.fechaFin.At?
    requires c.estado != CANCELADO && c.estado != PENDIENTE_ACTIVACION
    requires t1 <= t2
    ensures 0 <= Stage(DeriveEstado(c, t1)) <= Stage(DeriveEstado(c, t2))
  {
  }

  /** `processedContratos`: every record with its status replaced by the derived one. */
  function Process(cs: seq<Contrato>, now: int): (r: seq<Contrato>)
    ensures |r| == |cs|
    ensures forall i :: 0 <= i < |cs| ==> r[i].estado == DeriveEstado(cs[i], now)
    // every other field, and the order of the records, is kept
    ensures forall i :: 0 <= i < |cs| ==> r[i].(estado := cs[i].estado) == cs[i]
  {
    seq(|cs|, i requires 0 <= i < |cs| => cs[i].(estado := DeriveEstado(cs[i], now)))
  }

  /** Processing an already processed list changes nothing. */
  lemma ProcessIdempotent(cs: seq<Contrato>, now: int)
    ensures Process(Process(cs, now), now) == Process(cs, now)
  {
    var p := Process(cs, now);
    forall i | 0 <= i < |cs|
      ensures Process(p, now)[i] == p[i]
    {
      DeriveIdempotent(cs[i], now);
    }
  }

  datatype Stats = Stats(total: nat, activos: nat, programados: nat, vencidos: nat, porVencer: nat)

  function HasEstado(wanted: string): Contrato -> bool {
    (c: Contrato) => c.estado == wanted
  }

  /** The counters shown on the status cards. */
  function StatsOf(processed: seq<Contrato>): (s: Stats)
    ensures s.total == |processed|
    ensures s.activos + s.programados + s.vencidos + s.porVencer <= s.total
    ensures s.activos == |Lists.Filter(processed, HasEstado(ACTIVO))|
    ensures s.programados == |Lists.Filter(processed, HasEstado(PROGRAMADO))|
    ensures s.vencidos == |Lists.Filter(processed, HasEstado(VENCIDO))|
    ensures s.porVencer == |Lists.Filter(processed, HasEstado(POR_VENCER))|
    ensures s.activos == 0 <==> forall i :: 0 <= i < |processed| ==> processed[i].estado != ACTIVO
  {
    Lists.CountIsFilterLength(processed, HasEstado(ACTIVO));
    Lists.CountIsFilterLength(processed, HasEstado(PROGRAMADO));
    Lists.CountIsFilterLength(processed, HasEstado(VENCIDO));
    Lists.CountIsFilterLength(processed, HasEstado(POR_VENCER));
    Lists.ExclusiveCountsBounded(processed, HasEstado(ACTIVO), HasEstado(PROGRAMADO), HasEstado(VENCIDO), HasEstado(POR_VENCER));
    Stats(|processed|,
      Lists.Count(processed, HasEstado(ACTIVO)),
      Lists.Count(processed, HasEstado(PROGRAMADO)),
      Lists.Count(processed, HasEstado(VENCIDO)),
      Lists.Count(processed, HasEstado(POR_VENCER)))
  }

  /** The search box: campaign or client name contains the lower-cased text case-insensitively, or the
      document number contains it as written. */
  predicate MatchesText(c: Contrato, searchText: string) {
    FieldIncludes(c.nombreCampana, searchText)
    || FieldIncludes(c.nombreCliente, searchText)
    || (Truthy(c.numeroDocumento) && Contains(c.numeroDocumento.value, searchText))
  }

  predicate MatchesStatus(c: Contrato, statusFilter: string) {
    statusFilter == TODOS || c.estado == statusFilter
  }

  /** `filteredItems`: the processed records that match both the text and the status filter. */
  function FilteredItems(processed: seq<Contrato>, filterText: string, statusFilter: string): (r: seq<Contrato>)
    ensures Lists.IsSubsequence(r, processed)
    ensures statusFilter != TODOS ==> forall i :: 0 <= i < |r| ==> r[i].estado == statusFilter
    ensures forall c :: c in r <==>
      c in processed && MatchesText(c, ToLower(filterText)) && MatchesStatus(c, statusFilter)
    ensures |r| == Lists.Count(processed, c => MatchesText(c, ToLower(filterText)) && MatchesStatus(c, statusFilter))
  {
    var searchText := ToLower(filterText);
    Lists.CountIsFilterLength(processed, c => MatchesText(c, searchText) && MatchesStatus(c, statusFilter));
    Lists.Filter(processed, c => MatchesText(c, searchText) && MatchesStatus(c, statusFilter))
  }
}

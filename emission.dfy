/** The weekly emission pattern of a contract: which weekdays the advertisement goes on air, and the
    count of on-air days in a range of dates. */
module Emission {
  import opened Wrappers
  import opened Calendar
  import Lists

  /** The keys of the weekday map, in the order the map declares them. */
  datatype Weekday = Lunes | Martes | Miercoles | Jueves | Viernes | Sabado | Domingo

  const KeyOrder: seq<Weekday> := [Lunes, Martes, Miercoles, Jueves, Viernes, Sabado, Domingo]

  function Name(w: Weekday): string {
    match w
    case Lunes => "lunes"
    case Martes => "martes"
    case Miercoles => "miercoles"
    case Jueves => "jueves"
    case Viernes => "viernes"
    case Sabado => "sabado"
    case Domingo => "domingo"
  }

  /** The weekday of a `getDay()` value: 0 is Sunday. */
  function FromDayOfWeek(n: int): Weekday
    requires 0 <= n < 7
  {
    [Domingo, Lunes, Martes, Miercoles, Jueves, Viernes, Sabado][n]
  }

  /** `dayMap[date.getDay()]` for the date with day number n (days since 1970-01-01, a Thursday):
      the argument of `FromDayOfWeek` is `Calendar.DayOfWeek` of that date. */
  function WeekdayAt(n: int): Weekday {
    FromDayOfWeek((n + 4) % 7)
  }

  /** On a date's day number, `WeekdayAt` is the weekday of that date's `getDay()`. */
  lemma WeekdayAtDate(d: Date)
    ensures WeekdayAt(DayNumber(d)) == FromDayOfWeek(DayOfWeek(d))
  {
  }

  /** The on/off flag of each weekday. */
  datatype EmissionDays = EmissionDays(
    lunes: bool, martes: bool, miercoles: bool, jueves: bool, viernes: bool, sabado: bool, domingo: bool)
  {
    function Has(w: Weekday): bool {
      match w
      case Lunes => lunes
      case Martes => martes
      case Miercoles => miercoles
      case Jueves => jueves
      case Viernes => viernes
      case Sabado => sabado
      case Domingo => domingo
    }

    /** `{ ...prev, [dia]: !prev[dia] }`: flip one flag. */
    function Toggle(w: Weekday): (r: EmissionDays)
      ensures r.Has(w) == !Has(w)
      ensures forall v :: v != w ==> r.Has(v) == Has(v)
    {
      match w
      case Lunes => this.(lunes := !lunes)
      case Martes => this.(martes := !martes)
      case Miercoles => this.(miercoles := !miercoles)
      case Jueves => this.(jueves := !jueves)
      case Viernes => this.(viernes := !viernes)
      case Sabado => this.(sabado := !sabado)
      case Domingo => this.(domingo := !domingo)
    }
  }

  /** The initial pattern: Monday to Friday on air. */
  const Weekdays := EmissionDays(true, true, true, true, true, false, false)
  const AllDays := EmissionDays(true, true, true, true, true, true, true)
  const NoDays := EmissionDays(false, false, false, false, false, false, false)

  /** Two patterns with the same flags are the same pattern. */
  lemma {:induction false} SameFlags(p: EmissionDays, q: EmissionDays)
    requires forall w :: p.Has(w) == q.Has(w)
    ensures p == q
  {
    assert p.Has(Lunes) == q.Has(Lunes) && p.Has(Martes) == q.Has(Martes);
    assert p.Has(Miercoles) == q.Has(Miercoles) && p.Has(Jueves) == q.Has(Jueves);
    assert p.Has(Viernes) == q.Has(Viernes) && p.Has(Sabado) == q.Has(Sabado);
    assert p.Has(Domingo) == q.Has(Domingo);
  }

  /** Toggling the same weekday twice restores the pattern. */
  lemma ToggleTwice(p: EmissionDays, w: Weekday)
    ensures p.Toggle(w).Toggle(w) == p
  {
    SameFlags(p.Toggle(w).Toggle(w), p);
  }

  /** Every weekday is a key of the map. */
  lemma KeyOrderComplete()
    ensures forall w :: w in KeyOrder
  {
    forall w ensures w in KeyOrder {
      match w
      case Lunes => assert KeyOrder[0] == w;
      case Martes => assert KeyOrder[1] == w;
      case Miercoles => assert KeyOrder[2] == w;
      case Jueves => assert KeyOrder[3] == w;
      case Viernes => assert KeyOrder[4] == w;
      case Sabado => assert KeyOrder[5] == w;
      case Domingo => assert KeyOrder[6] == w;
    }
  }

  /** `Object.keys(diasEmision).filter(dia => diasEmision[dia])`: the weekdays switched on, in key order. */
  function Selected(p: EmissionDays): (r: seq<Weekday>)
    ensures forall w :: w in r <==> p.Has(w)
    ensures Lists.IsSubsequence(r, KeyOrder)
  {
    KeyOrderComplete();
    Lists.Filter(KeyOrder, w => p.Has(w))
  }

  /** The keys of a list of weekdays, position by position. */
  function Names(ws: seq<Weekday>): (r: seq<string>)
    ensures |r| == |ws|
    ensures forall i :: 0 <= i < |ws| ==> r[i] == Name(ws[i])
  {
    if ws == [] then [] else [Name(ws[0])] + Names(ws[1..])
  }

  /** Different weekdays have different names. */
  lemma {:induction false} NamesMember(ws: seq<Weekday>, w: Weekday)
    ensures Name(w) in Names(ws) <==> w in ws
  {
    if ws != [] {
      NamesMember(ws[1..], w);
    }
  }

  /** The `dias_emision` list that is submitted. */
  function SelectedNames(p: EmissionDays): seq<string> {
    Names(Selected(p))
  }

  /** A weekday's name is submitted exactly when that weekday is switched on. */
  lemma SelectedNamesMember(p: EmissionDays)
    ensures forall w :: Name(w) in SelectedNames(p) <==> p.Has(w)
  {
    forall w ensures Name(w) in SelectedNames(p) <==> p.Has(w) {
      NamesMember(Selected(p), w);
    }
  }

  /** The pattern rebuilt from the stored `dias_emision` of a contract being edited (`None` when it is
      not an array): every flag off, then on for each listed name that is one of the seven keys. */
  function FromNames(stored: Option<seq<string>>): (r: EmissionDays)
    ensures stored.None? ==> r == NoDays
    ensures forall w :: r.Has(w) <==> stored.Some? && Name(w) in stored.value
  {
    match stored
    case None => NoDays
    case Some(names) =>
      EmissionDays(
        "lunes" in names, "martes" in names, "miercoles" in names, "jueves" in names,
        "viernes" in names, "sabado" in names, "domingo" in names)
  }

  /** Saving a pattern and loading it back for editing gives the same pattern. */
  lemma SaveLoadRoundTrip(p: EmissionDays)
    ensures FromNames(Some(SelectedNames(p))) == p
  {
    SelectedNamesMember(p);
    SameFlags(FromNames(Some(SelectedNames(p))), p);
  }

  /** Day number n falls on a weekday the pattern selects. */
  predicate OnAir(p: EmissionDays, n: int) {
    p.Has(WeekdayAt(n))
  }

  /** The number of on-air days among the day numbers s..e (the loop of the pricing memo). */
  function ActiveDays(p: EmissionDays, s: int, e: int): (n: nat)
    ensures n <= if e < s then 0 else e - s + 1
    decreases e - s
  {
    if e < s then 0
    else ActiveDays(p, s, e - 1) + (if OnAir(p, e) then 1 else 0)
  }

  /** With every weekday on, every day of the range is on air. */
  lemma {:induction false} ActiveDaysAll(s: int, e: int)
    requires s <= e + 1
    ensures ActiveDays(AllDays, s, e) == e - s + 1
    decreases e - s
  {
    if s <= e {
      ActiveDaysAll(s, e - 1);
    }
  }

  /** The count is zero exactly when no day of the range falls on a selected weekday. */
  lemma {:induction false} ActiveDaysZero(p: EmissionDays, s: int, e: int)
    ensures ActiveDays(p, s, e) == 0 <==> forall n :: s <= n <= e ==> !OnAir(p, n)
    decreases e - s
  {
    if s <= e {
      ActiveDaysZero(p, s, e - 1);
    }
  }

  /** With every weekday off, nothing goes on air. */
  lemma ActiveDaysNone(s: int, e: int)
    ensures ActiveDays(NoDays, s, e) == 0
  {
    ActiveDaysZero(NoDays, s, e);
  }
}

/** The announcer's task panel: the `view` query parameter picks one of four task lists, and a search
    box narrows the list shown. */
module LocutorPanel {
  import opened Wrappers
  import opened Text
  import Lists

  const PENDIENTES := "pendientes"
  const ACEPTADAS := "aceptadas"
  const VENCIDAS := "vencidas"
  const RETIRADAS := "retiradas"

  /** `validViews`. */
  const ValidViews: seq<string> := [PENDIENTES, ACEPTADAS, VENCIDAS, RETIRADAS]

  /** `validViews.includes(q) ? q : 'pendientes'`, for the `view` query parameter (absent when the URL
      has none); the initial state and the effect that follows URL changes resolve it alike. */
  function ResolveView(q: Option<string>): (r: string)
    ensures r in ValidViews
    ensures q.Some? && q.value in ValidViews ==> r == q.value
    ensures !(q.Some? && q.value in ValidViews) ==> r == PENDIENTES
  {
    if q.Some? && q.value in ValidViews then q.value else PENDIENTES
  }

  /** A task row, with the two names the search looks at (either may be missing). */
  datatype Tarea = Tarea(id: int, nombreCampana: Option<string>, nombreCliente: Option<string>)

  /** `filterFn`: the campaign or the client name contains the lower-cased search text, ignoring case. */
  predicate Matches(t: Tarea, lowerFilter: string) {
    FieldIncludes(t.nombreCampana, lowerFilter) || FieldIncludes(t.nombreCliente, lowerFilter)
  }

  /** The four task lists of the panel. */
  datatype Lists4 = Lists4(pendientes: seq<Tarea>, aceptadas: seq<Tarea>, vencidas: seq<Tarea>, retiradas: seq<Tarea>)

  /** The list a view shows; none for a view outside `validViews`. */
  function ListOf(view: string, ls: Lists4): (r: Option<seq<Tarea>>)
    ensures r.Some? <==> view in ValidViews
    ensures view == PENDIENTES ==> r == Some(ls.pendientes)
    ensures view == ACEPTADAS ==> r == Some(ls.aceptadas)
    ensures view == VENCIDAS ==> r == Some(ls.vencidas)
    ensures view == RETIRADAS ==> r == Some(ls.retiradas)
  {
    if view == PENDIENTES then Some(ls.pendientes)
    else if view == ACEPTADAS then Some(ls.aceptadas)
    else if view == VENCIDAS then Some(ls.vencidas)
    else if view == RETIRADAS then Some(ls.retiradas)
    else None
  }

  /** `filteredData`: the tasks of the current view that match the search text, in their order. */
  function FilteredData(view: string, ls: Lists4, filterText: string): (r: seq<Tarea>)
    ensures view !in ValidViews ==> r == []
    ensures view in ValidViews ==> Lists.IsSubsequence(r, ListOf(view, ls).value)
    ensures view in ValidViews ==>
              forall t :: t in r <==> t in ListOf(view, ls).value && Matches(t, ToLower(filterText))
    ensures view in ValidViews ==> |r| == Lists.Count(ListOf(view, ls).value, t => Matches(t, ToLower(filterText)))
  {
    var lowerFilter := ToLower(filterText);
    match ListOf(view, ls)
    case None => []
    case Some(tareas) =>
      Lists.CountIsFilterLength(tareas, t => Matches(t, lowerFilter));
      Lists.Filter(tareas, t => Matches(t, lowerFilter))
  }

  /** With an empty search box, a view shows exactly its tasks that have a campaign or a client name. */
  lemma EmptyFilterKeepsNamed(view: string, ls: Lists4)
    requires view in ValidViews
    ensures forall t :: t in FilteredData(view, ls, "") <==>
              t in ListOf(view, ls).value && (Truthy(t.nombreCampana) || Truthy(t.nombreCliente))
  {
    assert ToLower("") == "";
    forall t: Tarea ensures Matches(t, "") <==> Truthy(t.nombreCampana) || Truthy(t.nombreCliente) {
      if t.nombreCampana.Some? {
        ContainsEmpty(ToLower(t.nombreCampana.value));
      }
      if t.nombreCliente.Some? {
        ContainsEmpty(ToLower(t.nombreCliente.value));
      }
    }
  }
}

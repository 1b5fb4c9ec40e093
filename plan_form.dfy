/** The plan editor of the plans page: the features list is edited as one line per feature in a
    textarea, joined on load and split again on save. */
module PlanForm {
  import opened Wrappers
  import opened Text
  import Lists

  /** A value of the form object: an input's text, a checkbox, the saved features list, or a number
      a stored plan carries. */
  datatype FormValue = TextValue(text: string) | Flag(on: bool) | Lines(items: seq<string>) | Number(x: real)

  /** The form object, by property name. */
  type Form = map<string, FormValue>

  const CARACTERISTICAS := "caracteristicas"

  /** The form of a new plan. */
  const EmptyPlanForm: Form := map[
    "nombre" := TextValue(""),
    "precio" := TextValue(""),
    "periodo" := TextValue("/mes"),
    CARACTERISTICAS := TextValue(""),
    "destacado" := Flag(false),
    "deshabilitado" := Flag(false),
    "url_contratacion" := TextValue("/FormNvend")]

  /** `line.trim() !== ''`. */
  predicate NotBlank(line: string) {
    !IsBlank(line)
  }

  /** `text.split('\n').filter(line => line.trim() !== '')`: the non-blank lines, verbatim and in
      order. */
  function SaveLines(text: string): (r: seq<string>)
    ensures forall i :: 0 <= i < |r| ==> !IsBlank(r[i]) && '\n' !in r[i]
    ensures Lists.IsSubsequence(r, Split(text, '\n'))
    ensures forall line :: line in r <==> line in Split(text, '\n') && !IsBlank(line)
    ensures |r| == Lists.Count(Split(text, '\n'), NotBlank)
  {
    Lists.CountIsFilterLength(Split(text, '\n'), NotBlank);
    Lists.Filter(Split(text, '\n'), NotBlank)
  }

  /** Editing a stored plan: the form becomes the plan, its features joined one per line. A plan whose
      features are not a list makes `join` throw. */
  function LoadForm(current: Form, plan: Option<Form>): (r: Result<Form, string>)
    ensures plan.None? ==> r == Success(current)
    ensures plan.Some? ==> (r.Success? <==> CARACTERISTICAS in plan.value && plan.value[CARACTERISTICAS].Lines?)
    ensures plan.Some? && r.Success? ==>
              r.value.Keys == plan.value.Keys &&
              r.value[CARACTERISTICAS] == TextValue(Join(plan.value[CARACTERISTICAS].items, '\n')) &&
              forall k :: k in plan.value && k != CARACTERISTICAS ==> r.value[k] == plan.value[k]
  {
    match plan
    case None => Success(current)
    case Some(p) =>
      if CARACTERISTICAS in p && p[CARACTERISTICAS].Lines? then
        Success(p[CARACTERISTICAS := TextValue(Join(p[CARACTERISTICAS].items, '\n'))])
      else Failure("plan.caracteristicas.join is not a function")
  }

  /** `handleChange`: the named property takes the checkbox state or the input's text. */
  function HandleChange(form: Form, name: string, value: string, inputType: string, checked: bool): (r: Form)
    ensures name in r
    ensures inputType == "checkbox" ==> r[name] == Flag(checked)
    ensures inputType != "checkbox" ==> r[name] == TextValue(value)
    ensures forall k :: k != name ==> (k in r <==> k in form)
    ensures forall k :: k in form && k != name ==> r[k] == form[k]
  {
    form[name := if inputType == "checkbox" then Flag(checked) else TextValue(value)]
  }

  /** `handleSubmit`: every property as the form holds it, the features textarea turned back into the
      list of its non-blank lines. A features value that is not text makes `split` throw. */
  function SaveForm(form: Form): (r: Result<Form, string>)
    ensures r.Success? <==> CARACTERISTICAS in form && form[CARACTERISTICAS].TextValue?
    ensures r.Success? ==>
              r.value.Keys == form.Keys &&
              r.value[CARACTERISTICAS] == Lines(SaveLines(form[CARACTERISTICAS].text)) &&
              forall k :: k in form && k != CARACTERISTICAS ==> r.value[k] == form[k]
  {
    if CARACTERISTICAS in form && form[CARACTERISTICAS].TextValue? then
      Success(form[CARACTERISTICAS := Lines(SaveLines(form[CARACTERISTICAS].text))])
    else Failure("formData.caracteristicas.split is not a function")
  }

  /** Features without blank entries and without line breaks survive the textarea unchanged. */
  lemma SaveLinesJoin(xs: seq<string>)
    requires forall i :: 0 <= i < |xs| ==> !IsBlank(xs[i]) && '\n' !in xs[i]
    ensures SaveLines(Join(xs, '\n')) == xs
  {
    if xs == [] {
      assert Split("", '\n') == [""];
      assert IsBlank("");
    } else {
      SplitJoin(xs, '\n');
      Lists.FilterAll(xs, NotBlank);
    }
  }

  /** Opening a stored plan and saving it without edits gives back the stored plan. */
  lemma EditRoundTrip(current: Form, plan: Form)
    requires CARACTERISTICAS in plan && plan[CARACTERISTICAS].Lines?
    requires forall i :: 0 <= i < |plan[CARACTERISTICAS].items| ==>
               !IsBlank(plan[CARACTERISTICAS].items[i]) && '\n' !in plan[CARACTERISTICAS].items[i]
    ensures LoadForm(current, Some(plan)).Success?
    ensures SaveForm(LoadForm(current, Some(plan)).value) == Success(plan)
  {
    var xs := plan[CARACTERISTICAS].items;
    SaveLinesJoin(xs);
    var loaded := LoadForm(current, Some(plan)).value;
    assert loaded[CARACTERISTICAS] == TextValue(Join(xs, '\n'));
    var saved := SaveForm(loaded).value;
    assert saved[CARACTERISTICAS] == plan[CARACTERISTICAS];
    assert saved == plan;
  }

  /** A new plan: opening the form without a plan keeps the initial form, and saving it untouched
      succeeds with no features and every other property as initialised. */
  lemma NewPlanSave()
    ensures LoadForm(EmptyPlanForm, None) == Success(EmptyPlanForm)
    ensures SaveForm(EmptyPlanForm) == Success(EmptyPlanForm[CARACTERISTICAS := Lines([])])
  {
    assert Split("", '\n') == [""];
    assert IsBlank("");
  }

  /** Blank lines typed between features are dropped on save. */
  lemma BlankLinesDropped(xs: seq<string>, blank: string)
    requires IsBlank(blank) && '\n' !in blank
    requires forall i :: 0 <= i < |xs| ==> !IsBlank(xs[i]) && '\n' !in xs[i]
    requires |xs| >= 1
    ensures SaveLines(Join([xs[0], blank] + xs[1..], '\n')) == xs
  {
    var rest := xs[1..];
    var ys := [xs[0], blank] + rest;
    assert forall i :: 0 <= i < |ys| ==> '\n' !in ys[i];
    SplitJoin(ys, '\n');
    Lists.FilterAll(rest, NotBlank);
    assert ys[1..] == [blank] + rest;
    assert ([blank] + rest)[1..] == rest;
    assert Lists.Filter([blank] + rest, NotBlank) == rest;
    assert Lists.Filter(ys, NotBlank) == [xs[0]] + rest;
    assert [xs[0]] + rest == xs;
  }
}

/**
 * `djutils/templatetags/djutils_tags.py`: the formset template filters. Only
 * the fields each filter selects and the column counts it computes are
 * modelled; the rendered HTML is not.
 */
module TemplateTags {
  import opened Wrappers
  import opened Text

  /** A bound field of the formset's empty form. */
  datatype Field = Field(name: string, hidden: bool)

  /** `formset.empty_form.visible_fields()`, in form order. */
  function VisibleFields(form: seq<Field>): (r: seq<Field>)
    ensures |r| <= |form| && forall x :: x in r <==> x in form && !x.hidden
  {
    if form == [] then []
    else if form[0].hidden then VisibleFields(form[1..])
    else [form[0]] + VisibleFields(form[1..])
  }

  /** Keeps the fields whose name is exactly one of `tokens`, in order. */
  function Selected(fields: seq<Field>, tokens: seq<string>): (r: seq<Field>)
    ensures |r| <= |fields| && forall x :: x in r <==> x in fields && x.name in tokens
  {
    if fields == [] then []
    else if fields[0].name in tokens then [fields[0]] + Selected(fields[1..], tokens)
    else Selected(fields[1..], tokens)
  }

  /** `a` is `b` with some elements dropped, the rest in their order. */
  predicate IsSubsequence(a: seq<Field>, b: seq<Field>)
    decreases |b|
  {
    if b == [] then a == []
    else (a != [] && a[0] == b[0] && IsSubsequence(a[1..], b[1..])) || IsSubsequence(a, b[1..])
  }

  lemma {:induction false} SelectedIsSubsequence(fields: seq<Field>, tokens: seq<string>)
    ensures IsSubsequence(Selected(fields, tokens), fields)
  {
    if fields != [] {
      SelectedIsSubsequence(fields[1..], tokens);
    }
  }

  /**
   * `get_fields_for_formset(formset, fields)`: all visible fields when `fields`
   * is None; otherwise those whose name is exactly a token of `fields.split(',')`.
   * The order is the form's, never the filter string's.
   */
  function GetFieldsForFormset(form: seq<Field>, fields: Option<string>): (r: seq<Field>)
    ensures fields.None? ==> r == VisibleFields(form)
    ensures fields.Some? ==> forall x :: x in r <==> x in form && !x.hidden && x.name in Split(fields.value, ',')
  {
    if fields.None? then VisibleFields(form) else Selected(VisibleFields(form), Split(fields.value, ','))
  }

  /** The selected fields always appear in form order: a subsequence of the visible fields. */
  lemma FieldsInFormOrder(form: seq<Field>, fields: Option<string>)
    ensures IsSubsequence(GetFieldsForFormset(form, fields), VisibleFields(form))
  {
    if fields.Some? {
      SelectedIsSubsequence(VisibleFields(form), Split(fields.value, ','));
    } else {
      SubsequenceRefl(VisibleFields(form));
    }
  }

  lemma {:induction false} SubsequenceRefl(a: seq<Field>)
    ensures IsSubsequence(a, a)
  {
    if a != [] {
      SubsequenceRefl(a[1..]);
    }
  }

  const NameField := Field("name", false)
  const ChoiceField := Field("choice", false)

  /** `"choice, name".split(',')` keeps the space before `name`. */
  lemma SplitChoiceName()
    ensures Split("choice, name", ',') == ["choice", " name"]
  {
    assert "choice, name" == "choice" + [','] + " name";
    SplitTwo("choice", ',', " name");
  }

  /** Neither example field is hidden. */
  lemma ExampleFieldsVisible()
    ensures VisibleFields([NameField, ChoiceField]) == [NameField, ChoiceField]
  {
    var visible := [NameField, ChoiceField];
    assert visible[1..] == [ChoiceField] && visible[1..][1..] == [];
    assert VisibleFields([ChoiceField]) == [ChoiceField];
  }

  /** `" name"` is not `"name"`, so only `choice` matches a token. */
  lemma OnlyChoiceMatches()
    ensures Selected([NameField, ChoiceField], ["choice", " name"]) == [ChoiceField]
  {
    var tokens := ["choice", " name"];
    var visible := [NameField, ChoiceField];
    assert visible[1..] == [ChoiceField] && visible[1..][1..] == [];
    assert ChoiceField.name == tokens[0];
    assert Selected([ChoiceField], tokens) == [ChoiceField];
    assert |NameField.name| != |tokens[0]| && |NameField.name| != |tokens[1]|;
    assert NameField.name !in tokens;
  }

  /** Tokens are not trimmed: `"choice, name"` selects `choice` but not `name`. */
  lemma TokensNotTrimmed()
    ensures GetFieldsForFormset([NameField, ChoiceField], Some("choice, name")) == [ChoiceField]
  {
    SplitChoiceName();
    ExampleFieldsVisible();
    OnlyChoiceMatches();
  }

  /** `formset_add_row`: the given colspan, or one more than the visible fields for the "remove" link. */
  function FormsetAddRowColspan(form: seq<Field>, colspan: Option<int>): (c: int)
    ensures colspan.Some? ==> c == colspan.value
    ensures colspan.None? ==> c == |VisibleFields(form)| + 1 && 1 <= c <= |form| + 1
  {
    match colspan
    case Some(n) => n
    case None => |VisibleFields(form)| + 1
  }

  /** Two visible fields and a hidden one give a colspan of 3. */
  lemma AddRowColspanExample()
    ensures FormsetAddRowColspan([NameField, ChoiceField, Field("id", true)], None) == 3
  {
    var form := [NameField, ChoiceField, Field("id", true)];
    assert form[1..] == [ChoiceField, Field("id", true)] && form[1..][1..] == [Field("id", true)] && form[1..][1..][1..] == [];
    assert VisibleFields([Field("id", true)]) == [];
    assert VisibleFields([ChoiceField, Field("id", true)]) == [ChoiceField];
    assert VisibleFields(form) == [NameField, ChoiceField];
  }

  function Names(fields: seq<Field>): (r: seq<string>)
    ensures |r| == |fields| && forall i :: 0 <= i < |fields| ==> r[i] == fields[i].name
  {
    seq(|fields|, i requires 0 <= i < |fields| => fields[i].name)
  }

  /** The template contexts' computed parts. */
  datatype FormsContext = FormsContext(fieldNames: seq<string>, colSpan: int)
  datatype DynamicContext = DynamicContext(fields: Option<string>, colSpan: int)

  /** `formset_empty_row` and `formset_header_row` both render the selected fields. */
  function FormsetRowFields(form: seq<Field>, fields: Option<string>): (r: seq<Field>)
    ensures forall x :: x in r ==> x in form && !x.hidden
    ensures IsSubsequence(r, VisibleFields(form))
    ensures r == GetFieldsForFormset(form, fields)
  {
    FieldsInFormOrder(form, fields);
    GetFieldsForFormset(form, fields)
  }

  /** `formset_forms`: the selected fields' names, and one column more than them. */
  function FormsetForms(form: seq<Field>, fields: Option<string>): (c: FormsContext)
    ensures |c.fieldNames| + 1 == c.colSpan && c.colSpan <= |VisibleFields(form)| + 1
    ensures forall i :: 0 <= i < |c.fieldNames| ==> exists x :: x in form && !x.hidden && x.name == c.fieldNames[i]
    ensures c.fieldNames == Names(GetFieldsForFormset(form, fields))
  {
    var selected := GetFieldsForFormset(form, fields);
    assert forall i :: 0 <= i < |selected| ==> selected[i] in selected;
    FormsContext(Names(selected), |selected| + 1)
  }

  /** `dynamic_formset`: the column count comes from the selection, but the raw `fields` argument is passed on. */
  function DynamicFormset(form: seq<Field>, fields: Option<string>): (c: DynamicContext)
    ensures c.fields == fields
    ensures c.colSpan == FormsetForms(form, fields).colSpan
  {
    DynamicContext(fields, |GetFieldsForFormset(form, fields)| + 1)
  }
}

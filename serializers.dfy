/**
 * The two recipe serializers (app/recipe/serializers.py). `RecipeSerializer`
 * shows id, title, time_minutes, price and link; `RecipeDetailSerializer`
 * adds description. `id` is read-only and `user` is not a field at all, so
 * neither can be written through a payload.
 *
 * A representation is the ordered list of (field name, value) pairs. A
 * payload maps names to values; names that are not writable fields are
 * ignored. Validation follows the model columns the fields are derived from.
 */
module Serializers {
  import opened Wrappers
  import opened Models

  datatype Field = Id | Title | TimeMinutes | Price | Link | Description

  function FieldName(f: Field): string {
    match f
    case Id => "id"
    case Title => "title"
    case TimeMinutes => "time_minutes"
    case Price => "price"
    case Link => "link"
    case Description => "description"
  }

  /** `RecipeSerializer.Meta.fields` */
  const RecipeFields: seq<Field> := [Id, Title, TimeMinutes, Price, Link]

  /** `RecipeDetailSerializer.Meta.fields` */
  const RecipeDetailFields: seq<Field> := RecipeFields + [Description]

  /** `read_only_fields` */
  const ReadOnlyFields: set<Field> := {Id}

  /** The fields a payload can set. */
  const WritableFields: set<Field> := {Title, TimeMinutes, Price, Link, Description}

  /** Columns with neither `blank=True` nor a default: a full write must supply them. */
  const RequiredFields: set<Field> := {Title, TimeMinutes, Price}

  /** `max_length` of the title and link columns. */
  const MaxLength: nat := 200

  datatype Value = Text(text: string) | Whole(number: int) | Money(cents: int)

  function FieldValue(r: Recipe, f: Field): Value {
    match f
    case Id => Whole(r.id)
    case Title => Text(r.title)
    case TimeMinutes => Whole(r.timeMinutes)
    case Price => Money(r.priceCents)
    case Link => Text(r.link)
    case Description => Text(r.description)
  }

  // -------------------------------------------------------- representations

  type Representation = seq<(string, Value)>

  function Represent(r: Recipe, fields: seq<Field>): Representation {
    seq(|fields|, i requires 0 <= i < |fields| => (FieldName(fields[i]), FieldValue(r, fields[i])))
  }

  /** What the list endpoint shows of a recipe: exactly these five fields, in this order. */
  function ListRepresentation(r: Recipe): (rep: Representation)
    ensures |rep| == 5
    ensures rep[0] == ("id", Whole(r.id))
    ensures rep[1] == ("title", Text(r.title))
    ensures rep[2] == ("time_minutes", Whole(r.timeMinutes))
    ensures rep[3] == ("price", Money(r.priceCents))
    ensures rep[4] == ("link", Text(r.link))
  {
    Represent(r, RecipeFields)
  }

  /** The detail representation is the list one followed by the description. */
  function DetailRepresentation(r: Recipe): (rep: Representation)
    ensures rep == ListRepresentation(r) + [("description", Text(r.description))]
  {
    Represent(r, RecipeDetailFields)
  }

  // ------------------------------------------------------------- validation

  type Payload = map<string, Value>

  datatype FieldError = Required | Blank | TooLong | Invalid | TooManyDigits

  /** The check one supplied value must pass. */
  function CheckValue(f: Field, v: Value): Option<FieldError> {
    match f
    case Title =>
      if !v.Text? then Some(Invalid)
      else if v.text == "" then Some(Blank)
      else if |v.text| > MaxLength then Some(TooLong)
      else None
    case Link =>
      if !v.Text? then Some(Invalid)
      else if |v.text| > MaxLength then Some(TooLong)
      else None
    case Description => if v.Text? then None else Some(Invalid)
    case TimeMinutes => if v.Whole? then None else Some(Invalid)
    case Price =>
      if !v.Money? then Some(Invalid)
      else if PriceFits(v.cents) then None
      else Some(TooManyDigits)
    case Id => None
  }

  /** A supplied field is checked; a missing one is an error only for a full write of a required field. */
  function CheckField(f: Field, p: Payload, partial: bool): Option<FieldError> {
    if FieldName(f) in p then CheckValue(f, p[FieldName(f)])
    else if !partial && f in RequiredFields then Some(Required)
    else None
  }

  function Errors(p: Payload, partial: bool): map<Field, FieldError> {
    map f | f in WritableFields && CheckField(f, p, partial).Some? :: CheckField(f, p, partial).value
  }

  function TextOr(p: Payload, key: string, default: string): string {
    if key in p && p[key].Text? then p[key].text else default
  }

  function WholeOr(p: Payload, key: string, default: int): int {
    if key in p && p[key].Whole? then p[key].number else default
  }

  function MoneyOr(p: Payload, key: string, default: int): int {
    if key in p && p[key].Money? then p[key].cents else default
  }

  /** `serializer.save()`: every supplied writable field takes its payload value. */
  function ApplyPayload(r: Recipe, p: Payload): Recipe {
    r.(
      title := TextOr(p, "title", r.title),
      timeMinutes := WholeOr(p, "time_minutes", r.timeMinutes),
      priceCents := MoneyOr(p, "price", r.priceCents),
      link := TextOr(p, "link", r.link),
      description := TextOr(p, "description", r.description))
  }

  /**
   * Write a payload through `RecipeDetailSerializer` onto an existing
   * recipe: a full update (`partial` false, PUT) or a partial one (PATCH).
   */
  function UpdateRecipe(r: Recipe, p: Payload, partial: bool): (res: Result<Recipe, map<Field, FieldError>>)
    ensures res.Success? <==> forall f :: f in WritableFields ==> CheckField(f, p, partial).None?
    ensures res.Failure? ==> res.error != map[] && res.error.Keys <= WritableFields
    ensures res.Failure? ==> forall f :: f in res.error ==> CheckField(f, p, partial) == Some(res.error[f])
    ensures res.Failure? ==> forall f :: f in WritableFields && CheckField(f, p, partial).Some? ==> f in res.error
    ensures res.Success? && PriceFits(r.priceCents) ==> PriceFits(res.value.priceCents)
    ensures res.Success? ==> !partial ==> forall f :: f in RequiredFields ==> FieldName(f) in p
    ensures res.Success? ==>
      && res.value.id == r.id
      && res.value.owner == r.owner
      && res.value.tagIds == r.tagIds
      && res.value.ingredientIds == r.ingredientIds
    ensures res.Success? ==> forall f :: f in WritableFields ==>
      FieldValue(res.value, f) == if FieldName(f) in p then p[FieldName(f)] else FieldValue(r, f)
  {
    var errors := Errors(p, partial);
    if errors != map[] then Failure(errors)
    else
      assert forall f :: f in WritableFields ==> f !in errors;
      Success(ApplyPayload(r, p))
  }

  /** The row a create starts from: no relations, empty optional text. */
  function BlankRecipe(id: int, owner: int): Recipe {
    Recipe(id, owner, "", 0, 0, "", "", {}, {})
  }

  /**
   * Create through `RecipeDetailSerializer`: the payload must supply the
   * required fields; the id and the owner are the caller's, never the payload's.
   */
  function BuildRecipe(p: Payload, id: int, owner: int): (res: Result<Recipe, map<Field, FieldError>>)
    ensures res.Success? <==> forall f :: f in WritableFields ==> CheckField(f, p, false).None?
    ensures res.Failure? ==> res.error.Keys <= WritableFields
    ensures res.Failure? ==> forall f :: f in WritableFields ==>
      (f in res.error <==> CheckField(f, p, false).Some?) &&
      (f in res.error ==> CheckField(f, p, false) == Some(res.error[f]))
    ensures res.Success? ==> forall f :: f in RequiredFields ==> FieldName(f) in p
    ensures res.Success? ==> PriceFits(res.value.priceCents)
    ensures res.Success? ==>
      && res.value.id == id
      && res.value.owner == owner
      && res.value.tagIds == {} && res.value.ingredientIds == {}
      && res.value.link == TextOr(p, "link", "")
      && res.value.description == TextOr(p, "description", "")
    ensures res.Success? ==> forall f :: f in RequiredFields ==> FieldValue(res.value, f) == p[FieldName(f)]
  {
    UpdateRecipe(BlankRecipe(id, owner), p, false)
  }

  // ------------------------------------------------------------------ lemmas

  /** The writable fields are the detail fields less the read-only `id`. */
  lemma WritableFieldsAreDetailLessReadOnly()
    ensures WritableFields == (set f | f in RecipeDetailFields) - ReadOnlyFields
    ensures RequiredFields <= WritableFields
  {
    var detail := set f | f in RecipeDetailFields;
    assert RecipeDetailFields == [Id, Title, TimeMinutes, Price, Link, Description];
    assert Id in detail && Title in detail && TimeMinutes in detail;
    assert Price in detail && Link in detail && Description in detail;
  }

  /** A payload key that names no writable field (such as "user" or "id") changes nothing. */
  lemma NonFieldKeyIgnored(r: Recipe, p: Payload, key: string, v: Value, partial: bool)
    requires forall f :: f in WritableFields ==> FieldName(f) != key
    ensures UpdateRecipe(r, p[key := v], partial) == UpdateRecipe(r, p, partial)
  {
    var q := p[key := v];
    assert FieldName(Title) != key && FieldName(TimeMinutes) != key && FieldName(Price) != key;
    assert FieldName(Link) != key && FieldName(Description) != key;
    forall f | f in WritableFields ensures CheckField(f, q, partial) == CheckField(f, p, partial) {
    }
    assert Errors(q, partial) == Errors(p, partial);
    assert ApplyPayload(r, q) == ApplyPayload(r, p);
  }

  /** Sending another owner's id as "user" never moves a recipe to that owner. */
  lemma UserKeyIgnored(r: Recipe, p: Payload, v: Value, partial: bool)
    ensures UpdateRecipe(r, p["user" := v], partial) == UpdateRecipe(r, p, partial)
    ensures UpdateRecipe(r, p["user" := v], partial).Success? ==>
      UpdateRecipe(r, p["user" := v], partial).value.owner == r.owner
  {
    NonFieldKeyIgnored(r, p, "user", v, partial);
  }

  /** A saved recipe prints as the title the payload gave it, and the list shows that text as its title. */
  lemma RecipeStrIsSavedTitle(r: Recipe, p: Payload, partial: bool, t: string)
    requires "title" in p && p["title"] == Text(t)
    requires UpdateRecipe(r, p, partial).Success?
    ensures RecipeStr(UpdateRecipe(r, p, partial).value) == t
    ensures ListRepresentation(UpdateRecipe(r, p, partial).value)[1] == ("title", Text(t))
  {
    assert FieldValue(UpdateRecipe(r, p, partial).value, Title) == p[FieldName(Title)];
  }

  /** The payload a representation reads as; the first pair with a name wins. */
  function ToPayload(rep: Representation): Payload {
    if rep == [] then map[] else ToPayload(rep[1..])[rep[0].0 := rep[0].1]
  }

  lemma {:induction false} ToPayloadAt(rep: Representation, i: nat)
    requires i < |rep|
    requires forall j :: 0 <= j < i ==> rep[j].0 != rep[i].0
    ensures rep[i].0 in ToPayload(rep) && ToPayload(rep)[rep[i].0] == rep[i].1
  {
    if i > 0 {
      ToPayloadAt(rep[1..], i - 1);
    }
  }

  /** A recipe whose fields pass the serializer's checks. */
  predicate Acceptable(r: Recipe) {
    forall f :: f in WritableFields ==> CheckValue(f, FieldValue(r, f)).None?
  }

  /** PUT of what GET showed is the identity: the detail fields round-trip. */
  lemma PutDetailRoundTrip(r: Recipe)
    requires Acceptable(r)
    ensures UpdateRecipe(r, ToPayload(DetailRepresentation(r)), false) == Success(r)
  {
    var rep := DetailRepresentation(r);
    var p := ToPayload(rep);
    assert rep == [("id", Whole(r.id)), ("title", Text(r.title)), ("time_minutes", Whole(r.timeMinutes)),
                   ("price", Money(r.priceCents)), ("link", Text(r.link)), ("description", Text(r.description))];
    ToPayloadAt(rep, 1);
    ToPayloadAt(rep, 2);
    ToPayloadAt(rep, 3);
    ToPayloadAt(rep, 4);
    ToPayloadAt(rep, 5);
    forall f | f in WritableFields ensures CheckField(f, p, false).None? {
      assert p[FieldName(f)] == FieldValue(r, f);
    }
    assert ApplyPayload(r, p) == r;
  }
}

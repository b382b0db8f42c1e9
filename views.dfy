/**
 * The recipe API views (app/recipe/views.py): the per-user list queries of
 * recipes, tags and ingredients, the lookups every detail route goes
 * through, and the writes of the recipe and label stores.
 *
 * A query parameter is `None` when the request does not carry it. A failed
 * id-list or flag parse is an error value here; the views let the
 * `ValueError` escape.
 */
module Views {
  import opened Wrappers
  import opened Numerals
  import opened IdParams
  import opened Models
  import opened Ordering
  import opened Serializers

  datatype ViewError =
    | NotFound                                 // no such row within the requester's queryset
    | MalformedIdList                          // `int()` failed on a `tags`/`ingredients` piece
    | MalformedFlag                            // `int()` failed on `assigned_only`
    | Invalid(errors: map<Field, FieldError>)  // the serializer rejected the payload

  // ---------------------------------------------------- serializer choice

  datatype Action = List | Create | Retrieve | Update | PartialUpdate | Destroy | UploadImage

  datatype SerializerClass = RecipeSerializer | RecipeDetailSerializer | RecipeImageSerializer

  /** `RecipeViewSet.get_serializer_class` */
  function GetSerializerClass(action: Action): (s: SerializerClass)
    ensures s == RecipeSerializer <==> action == List
    ensures s == RecipeImageSerializer <==> action == UploadImage
    ensures s == RecipeDetailSerializer <==> action != List && action != UploadImage
  {
    if action == List then RecipeSerializer
    else if action == UploadImage then RecipeImageSerializer
    else RecipeDetailSerializer
  }

  // ------------------------------------------------------- recipe queries

  /** The `tags` and `ingredients` parameters of a recipe request. */
  datatype RecipeQuery = RecipeQuery(tags: Option<string>, ingredients: Option<string>)

  /** `if tags: ... _params_to_int(tags)`: an absent or empty parameter applies no filter. */
  function IdFilter(param: Option<string>): (r: Result<Option<set<int>>, ViewError>)
    ensures r == Success(None) <==> param.None? || param == Some("")
    ensures r.Failure? <==> param.Some? && param.value != "" && ParamsToInt(param.value).None?
    ensures r.Failure? ==> r.error == MalformedIdList
    ensures r.Success? && r.value.Some? ==> forall i :: i in r.value.value <==>
      exists k :: 0 <= k < |Split(param.value, Comma)| && ParseInt(Split(param.value, Comma)[k]) == Some(i)
  {
    if param.None? || param.value == "" then Success(None)
    else
      match ParamsToInt(param.value)
      case None => Failure(MalformedIdList)
      case Some(ids) => Success(Some(set i | i in ids))
  }

  /** `filter(x__id__in=ids)` on one relation: no filter, or some related id in the set. */
  predicate RelatedToAny(related: set<int>, filter: Option<set<int>>) {
    filter.None? || related * filter.value != {}
  }

  predicate RecipeSelected(r: Recipe, user: int, tags: Option<set<int>>, ingredients: Option<set<int>>) {
    r.owner == user && RelatedToAny(r.tagIds, tags) && RelatedToAny(r.ingredientIds, ingredients)
  }

  /** The chained `filter` calls, by their set semantics. */
  function FilterRecipes(rows: seq<Recipe>, user: int, tags: Option<set<int>>, ingredients: Option<set<int>>): (r: seq<Recipe>)
    ensures forall x :: x in r <==> x in rows && RecipeSelected(x, user, tags, ingredients)
    ensures UniqueIds(rows) ==> UniqueIds(r)
  {
    if rows == [] then []
    else
      var rest := FilterRecipes(rows[1..], user, tags, ingredients);
      if RecipeSelected(rows[0], user, tags, ingredients) then
        ConsUniqueIds(rows, rest);
        [rows[0]] + rest
      else rest
  }

  /**
   * `RecipeViewSet.get_queryset`: the requester's recipes that pass the tag
   * and ingredient filters, newest (highest id) first, each once.
   */
  function ListRecipes(rows: seq<Recipe>, user: int, q: RecipeQuery): (r: Result<seq<Recipe>, ViewError>)
    ensures r.Failure? <==> IdFilter(q.tags).Failure? || IdFilter(q.ingredients).Failure?
    ensures r.Failure? ==> r.error == MalformedIdList
    ensures r.Success? ==> forall x :: x in r.value <==>
      x in rows && RecipeSelected(x, user, IdFilter(q.tags).value, IdFilter(q.ingredients).value)
    ensures r.Success? ==> ByIdDescending(r.value)
    ensures r.Success? && UniqueIds(rows) ==> ByIdStrictlyDescending(r.value)
  {
    match (IdFilter(q.tags), IdFilter(q.ingredients))
    case (Failure(e), _) => Failure(e)
    case (_, Failure(e)) => Failure(e)
    case (Success(tags), Success(ingredients)) =>
      var selected := FilterRecipes(rows, user, tags, ingredients);
      assert forall x :: x in SortById(selected) <==> x in selected by {
        forall x ensures x in SortById(selected) <==> x in selected {
          assert x in SortById(selected) <==> x in multiset(SortById(selected));
        }
      }
      if UniqueIds(rows) then
        SortByIdStrict(selected);
        Success(SortById(selected))
      else Success(SortById(selected))
  }

  /** Without filters the list is exactly the requester's recipes. */
  lemma ListWithoutFilters(rows: seq<Recipe>, user: int, q: RecipeQuery)
    requires q.tags.None? || q.tags == Some("")
    requires q.ingredients.None? || q.ingredients == Some("")
    ensures ListRecipes(rows, user, q).Success?
    ensures forall x :: x in ListRecipes(rows, user, q).value <==> x in rows && x.owner == user
  {
  }

  /**
   * With a parsed tag filter (and a parsed ingredient filter, or none), a recipe is
   * listed exactly when the requester owns it and one of its tags is among the ids.
   */
  lemma ListWithTagFilter(rows: seq<Recipe>, user: int, tags: string, ids: seq<int>, q: RecipeQuery)
    requires tags != "" && ParamsToInt(tags) == Some(ids)
    requires q.tags == Some(tags) && IdFilter(q.ingredients) == Success(None)
    ensures ListRecipes(rows, user, q).Success?
    ensures forall x :: x in ListRecipes(rows, user, q).value <==>
      x in rows && x.owner == user && exists t :: t in x.tagIds && t in ids
  {
    var list := ListRecipes(rows, user, q).value;
    forall x ensures x in list <==> x in rows && x.owner == user && exists t :: t in x.tagIds && t in ids {
      if x in rows && x.owner == user && exists t :: t in x.tagIds && t in ids {
        var t :| t in x.tagIds && t in ids;
        assert t in x.tagIds * (set i | i in ids);
      }
      if x in list {
        var t :| t in x.tagIds * (set i | i in ids);
      }
    }
  }

  /** A recipe some other user owns is never listed. */
  lemma OthersRecipesNotListed(rows: seq<Recipe>, user: int, q: RecipeQuery, x: Recipe)
    requires x.owner != user
    ensures ListRecipes(rows, user, q).Success? ==> x !in ListRecipes(rows, user, q).value
  {
  }

  // ------------------------------------------------------ scoped lookups

  /** The first row whose primary key is `id`, if any. */
  function FindById<T>(s: seq<T>, idOf: T -> int, id: int): (r: Option<T>)
    ensures r.Some? ==> r.value in s && idOf(r.value) == id
    ensures r.None? ==> forall x :: x in s ==> idOf(x) != id
  {
    if s == [] then None
    else if idOf(s[0]) == id then Some(s[0])
    else FindById(s[1..], idOf, id)
  }

  /**
   * `get_object()` on a detail route: the row with that id within
   * `get_queryset()`, so another user's recipe is "not found".
   */
  function GetRecipe(rows: seq<Recipe>, user: int, q: RecipeQuery, id: int): (r: Result<Recipe, ViewError>)
    ensures r.Success? ==> r.value in rows && r.value.id == id && r.value.owner == user
    ensures r.Failure? ==> r.error == NotFound || r.error == MalformedIdList
    ensures ListRecipes(rows, user, q).Failure? ==> r == Failure(MalformedIdList)
    ensures ListRecipes(rows, user, q).Success? ==>
      (r.Success? <==> exists x :: x in ListRecipes(rows, user, q).value && x.id == id)
    ensures r.Success? ==> r.value in ListRecipes(rows, user, q).value
  {
    match ListRecipes(rows, user, q)
    case Failure(e) => Failure(e)
    case Success(visible) =>
      match FindById(visible, (x: Recipe) => x.id, id)
      case None => Failure(NotFound)
      case Some(x) => Success(x)
  }

  /** Whatever the filters, a recipe the requester does not own cannot be reached by id. */
  lemma NotOwnedIsNotFound(rows: seq<Recipe>, user: int, q: RecipeQuery, id: int)
    requires forall x :: x in rows && x.id == id ==> x.owner != user
    ensures GetRecipe(rows, user, q, id).Failure?
    ensures ListRecipes(rows, user, q).Success? ==> GetRecipe(rows, user, q, id) == Failure(NotFound)
  {
  }

  /** `retrieve`: the detail representation of the requester's recipe. */
  function RetrieveRecipe(rows: seq<Recipe>, user: int, q: RecipeQuery, id: int): (r: Result<Representation, ViewError>)
    ensures r.Success? ==> exists x :: x in rows && x.owner == user && x.id == id && r.value == DetailRepresentation(x)
    ensures r.Failure? <==> GetRecipe(rows, user, q, id).Failure?
    ensures r.Failure? ==> r.error == GetRecipe(rows, user, q, id).error
    ensures r.Success? ==> exists x :: x in ListRecipes(rows, user, q).value && x.id == id && r.value == DetailRepresentation(x)
  {
    match GetRecipe(rows, user, q, id)
    case Failure(e) => Failure(e)
    case Success(x) => Success(DetailRepresentation(x))
  }

  // ------------------------------------------------- tag/ingredient queries

  datatype LabelKind = TagKind | IngredientKind

  function Related(r: Recipe, kind: LabelKind): set<int> {
    match kind
    case TagKind => r.tagIds
    case IngredientKind => r.ingredientIds
  }

  /** `filter(recipe__isnull=False)`: some recipe, of any owner, refers to the label. */
  predicate Assigned(l: Label, kind: LabelKind, recipes: seq<Recipe>) {
    exists r :: r in recipes && l.id in Related(r, kind)
  }

  /** `bool(int(query_params.get("assigned_only", 0)))` */
  function AssignedOnlyFlag(param: Option<string>): (r: Result<bool, ViewError>)
    ensures r.Failure? <==> param.Some? && ParseInt(param.value).None?
    ensures r.Failure? ==> r.error == MalformedFlag
    ensures r.Success? ==> (r.value <==> param.Some? && ParseInt(param.value).value != 0)
  {
    if param.None? then Success(false)
    else
      match ParseInt(param.value)
      case None => Failure(MalformedFlag)
      case Some(v) => Success(v != 0)
  }

  predicate LabelSelected(l: Label, kind: LabelKind, recipes: seq<Recipe>, user: int, assignedOnly: bool) {
    l.owner == user && (assignedOnly ==> Assigned(l, kind, recipes))
  }

  function FilterLabels(labels: seq<Label>, kind: LabelKind, recipes: seq<Recipe>, user: int, assignedOnly: bool): (r: seq<Label>)
    ensures forall l :: l in r <==> l in labels && LabelSelected(l, kind, recipes, user, assignedOnly)
    ensures UniqueLabelIds(labels) ==> UniqueLabelIds(r)
  {
    if labels == [] then []
    else
      var rest := FilterLabels(labels[1..], kind, recipes, user, assignedOnly);
      if LabelSelected(labels[0], kind, recipes, user, assignedOnly) then
        ConsUniqueLabelIds(labels, rest);
        [labels[0]] + rest
      else rest
  }

  /**
   * `BaseRecipeAttrViewSet.get_queryset`: the requester's tags (or
   * ingredients), only those some recipe refers to when `assigned_only` is
   * non-zero, by descending name, each once.
   */
  function ListLabels(labels: seq<Label>, kind: LabelKind, recipes: seq<Recipe>, user: int, assignedOnly: Option<string>): (r: Result<seq<Label>, ViewError>)
    ensures r.Failure? <==> assignedOnly.Some? && ParseInt(assignedOnly.value).None?
    ensures r.Failure? ==> r.error == MalformedFlag
    ensures r.Success? ==> forall l :: l in r.value <==>
      && l in labels
      && l.owner == user
      && (assignedOnly.Some? && ParseInt(assignedOnly.value).value != 0 ==> Assigned(l, kind, recipes))
    ensures r.Success? ==> ByNameDescending(r.value)
    ensures r.Success? && UniqueLabelIds(labels) ==> UniqueLabelIds(r.value)
  {
    match AssignedOnlyFlag(assignedOnly)
    case Failure(e) => Failure(e)
    case Success(flag) =>
      var selected := FilterLabels(labels, kind, recipes, user, flag);
      assert forall l :: l in SortByName(selected) <==> l in selected by {
        forall l ensures l in SortByName(selected) <==> l in selected {
          assert l in SortByName(selected) <==> l in multiset(SortByName(selected));
        }
      }
      if UniqueLabelIds(labels) then
        SortByNameUnique(selected);
        Success(SortByName(selected))
      else Success(SortByName(selected))
  }

  /** With `assigned_only=1` a label no recipe refers to is left out, and one referred to is listed exactly once. */
  lemma AssignedOnlyListsReferencedOnce(labels: seq<Label>, kind: LabelKind, recipes: seq<Recipe>, user: int, l: Label)
    requires UniqueLabelIds(labels) && l in labels && l.owner == user
    ensures var r := ListLabels(labels, kind, recipes, user, Some("1"));
      && r.Success?
      && (l in r.value <==> Assigned(l, kind, recipes))
      && forall i, j :: 0 <= i < j < |r.value| ==> r.value[i].id != r.value[j].id
  {
    assert ParseInt("1") == Some(1) by {
      assert IsNumeral("1");
      assert "1"[..0] == "";
    }
  }

  /** Without `assigned_only` (or with 0) all of the requester's labels are listed. */
  lemma UnfilteredListsAllOwned(labels: seq<Label>, kind: LabelKind, recipes: seq<Recipe>, user: int, assignedOnly: Option<string>)
    requires assignedOnly.None? || assignedOnly == Some("0")
    ensures ListLabels(labels, kind, recipes, user, assignedOnly).Success?
    ensures forall l :: l in ListLabels(labels, kind, recipes, user, assignedOnly).value <==> l in labels && l.owner == user
  {
    if assignedOnly.Some? {
      assert ParseInt("0") == Some(0) by {
        assert IsNumeral("0");
        assert "0"[..0] == "";
      }
    }
  }

  /** The tag list is in descending order of what each tag prints as. */
  lemma TagsListedByStr(labels: seq<Label>, recipes: seq<Recipe>, user: int, assignedOnly: Option<string>)
    requires ListLabels(labels, TagKind, recipes, user, assignedOnly).Success?
    ensures var s := ListLabels(labels, TagKind, recipes, user, assignedOnly).value;
      forall i, j :: 0 <= i < j < |s| ==> NameLe(TagStr(s[j]), TagStr(s[i]))
  {
  }

  /** `get_object()` for a tag or ingredient: only within the requester's queryset. */
  function GetLabel(labels: seq<Label>, kind: LabelKind, recipes: seq<Recipe>, user: int, assignedOnly: Option<string>, id: int): (r: Result<Label, ViewError>)
    ensures r.Success? ==> r.value in labels && r.value.id == id && r.value.owner == user
    ensures r.Failure? ==> r.error == NotFound || r.error == MalformedFlag
    ensures ListLabels(labels, kind, recipes, user, assignedOnly).Failure? ==> r == Failure(MalformedFlag)
    ensures ListLabels(labels, kind, recipes, user, assignedOnly).Success? ==>
      (r.Success? <==> exists l :: l in ListLabels(labels, kind, recipes, user, assignedOnly).value && l.id == id)
    ensures r.Success? ==> r.value in ListLabels(labels, kind, recipes, user, assignedOnly).value
    ensures ListLabels(labels, kind, recipes, user, assignedOnly).Success? && r.Failure? ==> r.error == NotFound
  {
    match ListLabels(labels, kind, recipes, user, assignedOnly)
    case Failure(e) => Failure(e)
    case Success(visible) =>
      match FindById(visible, (l: Label) => l.id, id)
      case None => Failure(NotFound)
      case Some(l) => Success(l)
  }

  /** A label id the requester does not own is "not found" whenever the flag parses. */
  lemma NotOwnedLabelIsNotFound(labels: seq<Label>, kind: LabelKind, recipes: seq<Recipe>, user: int, assignedOnly: Option<string>, id: int)
    requires forall l :: l in labels && l.id == id ==> l.owner != user
    ensures ListLabels(labels, kind, recipes, user, assignedOnly).Success? ==>
      GetLabel(labels, kind, recipes, user, assignedOnly, id) == Failure(NotFound)
  {
  }

  // ------------------------------------------------------------ the store

  /** `Recipe.objects.filter(...).delete()` for one id. */
  function RemoveRecipe(s: seq<Recipe>, id: int): (r: seq<Recipe>)
    ensures forall x :: x in r <==> x in s && x.id != id
    ensures UniqueIds(s) ==> UniqueIds(r)
    decreases |s|
  {
    if s == [] then []
    else
      var rest := RemoveRecipe(s[1..], id);
      if s[0].id == id then rest
      else
        ConsUniqueIds(s, rest);
        [s[0]] + rest
  }

  function ReplaceRecipe(s: seq<Recipe>, y: Recipe): seq<Recipe> {
    seq(|s|, i requires 0 <= i < |s| => if s[i].id == y.id then y else s[i])
  }

  function RemoveLabel(s: seq<Label>, id: int): (r: seq<Label>)
    ensures forall x :: x in r <==> x in s && x.id != id
    ensures UniqueLabelIds(s) ==> UniqueLabelIds(r)
    decreases |s|
  {
    if s == [] then []
    else
      var rest := RemoveLabel(s[1..], id);
      if s[0].id == id then rest
      else
        ConsUniqueLabelIds(s, rest);
        [s[0]] + rest
  }

  function WithRelated(r: Recipe, kind: LabelKind, ids: set<int>): Recipe {
    match kind
    case TagKind => r.(tagIds := ids)
    case IngredientKind => r.(ingredientIds := ids)
  }

  /**
   * Deleting a label also deletes its rows of the many-to-many relation:
   * each recipe loses that id from the relation of that kind and nothing else.
   */
  function Unrelate(s: seq<Recipe>, kind: LabelKind, id: int): (r: seq<Recipe>)
    ensures |r| == |s|
    ensures forall k :: 0 <= k < |s| ==> Related(r[k], kind) == Related(s[k], kind) - {id}
    ensures forall k :: 0 <= k < |s| ==> WithRelated(r[k], kind, Related(s[k], kind)) == s[k]
  {
    seq(|s|, i requires 0 <= i < |s| =>
      match kind
      case TagKind => s[i].(tagIds := s[i].tagIds - {id})
      case IngredientKind => s[i].(ingredientIds := s[i].ingredientIds - {id}))
  }

  /** Once a label is deleted, no recipe refers to it, so `assigned_only` no longer sees it. */
  lemma DeletedLabelUnassigned(s: seq<Recipe>, kind: LabelKind, l: Label)
    ensures !Assigned(l, kind, Unrelate(s, kind, l.id))
  {
    var u := Unrelate(s, kind, l.id);
    forall r | r in u ensures l.id !in Related(r, kind) {
      var k :| 0 <= k < |u| && u[k] == r;
    }
  }

  /** The recipe table's invariant: unique keys below the next key, and prices that fit their column. */
  ghost predicate RecipeTableValid(s: seq<Recipe>, nextId: int) {
    && UniqueIds(s)
    && (forall k :: 0 <= k < |s| ==> s[k].id < nextId)
    && (forall k :: 0 <= k < |s| ==> PriceFits(s[k].priceCents))
  }

  /** Saving an update of a row keeps the table valid and leaves other owners' rows in place. */
  lemma ReplaceKeepsTable(s: seq<Recipe>, nextId: int, x: Recipe, y: Recipe)
    requires RecipeTableValid(s, nextId) && x in s && y.id == x.id
    requires PriceFits(x.priceCents) ==> PriceFits(y.priceCents)
    ensures RecipeTableValid(ReplaceRecipe(s, y), nextId)
    ensures forall z :: z in s && z.owner != x.owner ==> z in ReplaceRecipe(s, y)
  {
    var j :| 0 <= j < |s| && s[j] == x;
    var r := ReplaceRecipe(s, y);
    forall z | z in s && z.owner != x.owner ensures z in r {
      var k :| 0 <= k < |s| && s[k] == z;
      assert k != j;
      assert r[k] == z;
    }
  }

  /** Deleting a row keeps the table valid and leaves other owners' rows in place. */
  lemma RemoveKeepsTable(s: seq<Recipe>, nextId: int, x: Recipe)
    requires RecipeTableValid(s, nextId) && x in s
    ensures RecipeTableValid(RemoveRecipe(s, x.id), nextId)
    ensures forall z :: z in s && z.owner != x.owner ==> z in RemoveRecipe(s, x.id)
  {
    var j :| 0 <= j < |s| && s[j] == x;
    var r := RemoveRecipe(s, x.id);
    forall k | 0 <= k < |r| ensures r[k].id < nextId && PriceFits(r[k].priceCents) {
      assert r[k] in s;
      var i :| 0 <= i < |s| && s[i] == r[k];
    }
    forall z | z in s && z.owner != x.owner ensures z.id != x.id {
      var k :| 0 <= k < |s| && s[k] == z;
      assert k != j;
    }
  }

  /** Dropping a label's links keeps the recipe table valid: the links are the only change. */
  lemma UnrelateKeepsTable(s: seq<Recipe>, nextId: int, kind: LabelKind, id: int)
    requires RecipeTableValid(s, nextId)
    ensures RecipeTableValid(Unrelate(s, kind, id), nextId)
  {
    var u := Unrelate(s, kind, id);
    forall k | 0 <= k < |s| ensures u[k].id == s[k].id && u[k].priceCents == s[k].priceCents {
      assert WithRelated(u[k], kind, Related(s[k], kind)) == s[k];
    }
  }

  datatype Outcome = Deleted | Rejected(error: ViewError)

  /** The recipe, tag and ingredient tables behind the views. */
  class RecipeStore {
    var recipes: seq<Recipe>
    var tags: seq<Label>
    var ingredients: seq<Label>
    var nextId: int  // the next recipe primary key

    /** Primary keys are unique, every recipe id was handed out before, and every price fits its column. */
    ghost predicate Valid()
      reads this
    {
      && RecipeTableValid(recipes, nextId)
      && UniqueLabelIds(tags)
      && UniqueLabelIds(ingredients)
    }

    function Labels(kind: LabelKind): seq<Label>
      reads this
    {
      match kind
      case TagKind => tags
      case IngredientKind => ingredients
    }

    constructor (recipes0: seq<Recipe>, tags0: seq<Label>, ingredients0: seq<Label>, nextId0: int)
      requires UniqueIds(recipes0) && UniqueLabelIds(tags0) && UniqueLabelIds(ingredients0)
      requires forall k :: 0 <= k < |recipes0| ==> recipes0[k].id < nextId0
      requires forall k :: 0 <= k < |recipes0| ==> PriceFits(recipes0[k].priceCents)
      ensures Valid()
      ensures recipes == recipes0 && tags == tags0 && ingredients == ingredients0 && nextId == nextId0
    {
      recipes, tags, ingredients, nextId := recipes0, tags0, ingredients0, nextId0;
    }

    /**
     * `create`: the payload goes through `RecipeDetailSerializer`, then
     * `perform_create` saves it with the requester as owner.
     */
    method PerformCreate(user: int, p: Payload) returns (r: Result<Recipe, ViewError>)
      requires Valid()
      modifies this
      ensures Valid()
      ensures tags == old(tags) && ingredients == old(ingredients)
      ensures match BuildRecipe(p, old(nextId), user)
        case Failure(e) => r == Failure(ViewError.Invalid(e)) && recipes == old(recipes) && nextId == old(nextId)
        case Success(x) => r == Success(x) && recipes == old(recipes) + [x] && nextId == old(nextId) + 1
      ensures r.Success? ==> r.value.owner == user && r.value.id == old(nextId)
    {
      var built := BuildRecipe(p, nextId, user);
      if built.Failure? {
        return Failure(ViewError.Invalid(built.error));
      }
      recipes := recipes + [built.value];
      nextId := nextId + 1;
      r := Success(built.value);
    }

    /** `update` and `partial_update`: find the requester's recipe, validate, save. */
    method Update(user: int, q: RecipeQuery, id: int, p: Payload, partial: bool) returns (r: Result<Recipe, ViewError>)
      requires Valid()
      modifies this
      ensures Valid()
      ensures tags == old(tags) && ingredients == old(ingredients) && nextId == old(nextId)
      ensures match GetRecipe(old(recipes), user, q, id)
        case Failure(e) => r == Failure(e) && recipes == old(recipes)
        case Success(x) =>
          match UpdateRecipe(x, p, partial)
          case Failure(e) => r == Failure(ViewError.Invalid(e)) && recipes == old(recipes)
          case Success(y) => r == Success(y) && recipes == ReplaceRecipe(old(recipes), y)
      ensures r.Success? ==> r.value.owner == user && r.value.id == id
      ensures forall x :: x in old(recipes) && x.owner != user ==> x in recipes
    {
      var found := GetRecipe(recipes, user, q, id);
      if found.Failure? {
        return Failure(found.error);
      }
      var updated := UpdateRecipe(found.value, p, partial);
      if updated.Failure? {
        return Failure(ViewError.Invalid(updated.error));
      }
      var y := updated.value;
      ReplaceKeepsTable(recipes, nextId, found.value, y);
      recipes := ReplaceRecipe(recipes, y);
      r := Success(y);
    }

    /** `destroy`: delete the requester's recipe; anything else is "not found" and deletes nothing. */
    method Destroy(user: int, q: RecipeQuery, id: int) returns (r: Outcome)
      requires Valid()
      modifies this
      ensures Valid()
      ensures tags == old(tags) && ingredients == old(ingredients) && nextId == old(nextId)
      ensures match GetRecipe(old(recipes), user, q, id)
        case Failure(e) => r == Rejected(e) && recipes == old(recipes)
        case Success(_) => r == Deleted && recipes == RemoveRecipe(old(recipes), id)
      ensures forall x :: x in old(recipes) && x.owner != user ==> x in recipes
    {
      var found := GetRecipe(recipes, user, q, id);
      if found.Failure? {
        return Rejected(found.error);
      }
      RemoveKeepsTable(recipes, nextId, found.value);
      recipes := RemoveRecipe(recipes, id);
      r := Deleted;
    }

    /** `destroy` on the tag or ingredient views: the label goes, and so do its links to recipes. */
    method DestroyLabel(kind: LabelKind, user: int, assignedOnly: Option<string>, id: int) returns (r: Outcome)
      requires Valid()
      modifies this
      ensures Valid()
      ensures nextId == old(nextId)
      ensures match GetLabel(old(Labels(kind)), kind, old(recipes), user, assignedOnly, id)
        case Failure(e) =>
          r == Rejected(e) && recipes == old(recipes) && tags == old(tags) && ingredients == old(ingredients)
        case Success(_) =>
          && r == Deleted
          && recipes == Unrelate(old(recipes), kind, id)
          && Labels(kind) == RemoveLabel(old(Labels(kind)), id)
          && (kind == TagKind ==> ingredients == old(ingredients))
          && (kind == IngredientKind ==> tags == old(tags))
    {
      var found := GetLabel(Labels(kind), kind, recipes, user, assignedOnly, id);
      if found.Failure? {
        return Rejected(found.error);
      }
      match kind {
        case TagKind => tags := RemoveLabel(tags, id);
        case IngredientKind => ingredients := RemoveLabel(ingredients, id);
      }
      UnrelateKeepsTable(recipes, nextId, kind, id);
      recipes := Unrelate(recipes, kind, id);
      r := Deleted;
    }
  }
}

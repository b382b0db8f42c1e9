# Recipe API core, modelled in Dafny

This project models the core of a Django REST recipe backend and proves properties of that model. In the backend:

- Each authenticated user owns recipes, tags and ingredients. Tags and ingredients are called "labels" here.
- The recipe list can be filtered by comma-separated tag and ingredient ids (`?tags=1,2&ingredients=3`). It returns only the requester's recipes, newest first, each once.
- The tag and ingredient lists return the requester's labels in descending name order. With `?assigned_only=1` they keep only the labels some recipe refers to.
- Every detail route (retrieve, update, partial update, destroy) finds its row inside the requester's queryset. Another user's row is therefore "not found".
- Recipes are read and written through two serializers. The list serializer shows `id, title, time_minutes, price, link`. The detail serializer adds `description`. `id` is read-only, and the owner always comes from the request.
- The user manager creates accounts. It rejects an empty email, normalises the domain part of the email, and sets the default flags. `create_superuser` then also sets the staff and superuser flags.

Modules (one file each):

- `Wrappers` (`wrappers.dfy`): `Option` and `Result`.
- `Numerals` (`numerals.dfy`): decimal numerals, and the integer parse used for query parameters.
- `IdParams` (`params.dfy`): `_params_to_int`, which splits on `,` and parses each piece.
- `Models` (`models.dfy`): the records, the price column bound, `__str__`, email normalisation, and the `UserManager` class that holds the user table.
- `Ordering` (`ordering.dfy`): the `order_by("-id")` and `order_by("-name")` sorts, proved to be sorted permutations.
- `Serializers` (`serializers.dfy`): field lists, representations, and payload validation and saving.
- `Views` (`views.dfy`): the list queries, the scoped lookups, `get_serializer_class`, and the `RecipeStore` class whose methods create, update and delete rows.

How the model represents the backend:

- Tables are sequences of rows in scan order, and ids are primary keys.
- A recipe's tags and ingredients are sets of label ids.
- A price is an integer number of cents, so two decimal places are exact.
- The requester is a user id passed as a parameter, because authentication is not modelled.
- A query parameter the request does not carry is `None`.
- Where Python would raise `ValueError`, on a bad id list or a bad `assigned_only`, the model returns an error value.

The views and the model file disagree about the recipe relations. `app/core/models.py:69` declares a single many-to-many field `tag`, and the file has no `Ingredient` model. `app/recipe/views.py:64` and `:68` filter on `tags__id__in` and `ingredients__id__in`, and the views import `Ingredient`. The model follows the views: a recipe has both a `tagIds` and an `ingredientIds` relation.

## Model

| member | source | states |
|---|---|---|
| Numerals.ParseInt | app/recipe/views.py:54 | `int(str_id)` succeeds exactly on a non-empty digit string, optionally preceded by `-` |
| Numerals.ParseIntRoundTrip | app/recipe/views.py:54 | parsing the printed numeral of any integer gives that integer back |
| Numerals.LeadingZeroValue | app/recipe/views.py:54 | a leading zero does not change the value of a digit string |
| Numerals.LeadingZerosIgnored | app/recipe/views.py:54 | `0` in front of a numeral, with or without `-`, parses to the same integer (`007` is 7, `-007` is -7) |
| Numerals.NegativeZero | app/recipe/views.py:54 | `-0` parses to 0 |
| Numerals.NumeralValueOfNatToNumeral | app/recipe/views.py:54 | the decimal numeral of n has the value n (used by the parse round trip) |
| Numerals.NumeralLength | app/core/models.py:72 | a numeral has at most k digits exactly when n < 10^k |
| IdParams.Split | app/recipe/views.py:54 | `qa.split(",")` yields at least one piece, and no piece contains a comma |
| IdParams.JoinSplit | app/recipe/views.py:54 | joining the pieces of a split with the separator rebuilds the string |
| IdParams.SplitJoin | app/recipe/views.py:54 | splitting a join of comma-free pieces gives the pieces back |
| IdParams.SplitWithoutSeparator | app/recipe/views.py:54 | a string without commas splits into itself alone |
| IdParams.SplitAtSeparator | app/recipe/views.py:54 | the first comma ends the first piece |
| IdParams.ParseAll | app/recipe/views.py:54 | the list comprehension succeeds iff every piece parses; the result has one value per piece, the k-th being the k-th piece's value |
| IdParams.ParamsToInt | app/recipe/views.py:52-54 | fails iff some comma-separated piece is not an integer; otherwise one integer per piece, in order; the empty string fails |
| IdParams.ParamsToIntRoundTrip | app/recipe/views.py:52-54 | any non-empty id list written comma-separated parses back to the same list |
| IdParams.AdjacentSeparatorsGiveEmptyPiece | app/recipe/views.py:54 | two adjacent commas produce an empty piece |
| IdParams.AdjacentCommasRejected | app/recipe/views.py:52-54 | a parameter with two adjacent commas (`1,,2`) is rejected |
| Models.PriceFits | app/core/models.py:72 | a price in cents fits `max_digits=5, decimal_places=2` exactly when it is strictly between -1000.00 and 1000.00 |
| Models.NormalizeEmail | app/core/models.py:22 | the address keeps its length; every character after the last `@` is lower-cased and every other character is kept |
| Models.TagStr | app/core/models.py:59-60 | a tag prints as its name |
| Models.RecipeStr | app/core/models.py:76-77 | a recipe prints as its title |
| Models.LastAt | app/core/models.py:22 | finds the last `@` of the address, or reports that there is none |
| Models.NormalizeEmailParts | app/core/models.py:22 | normalising `local@domain` keeps the local part and lower-cases the domain |
| Models.NormalizeEmailWithoutAt | app/core/models.py:22 | an address without `@` is kept as it is |
| Models.LastAtSplits | app/core/models.py:22 | an address with an `@` is its local part, the last `@`, and a domain part without `@` |
| Models.LowerAsciiStable | app/core/models.py:22 | lower-casing a domain part adds no `@`, and lower-casing it again changes nothing |
| Models.NormalizeEmailIdempotent | app/core/models.py:22 | normalising twice is the same as normalising once |
| Models.UserManager.constructor | app/core/models.py:15-16 | the manager starts with an empty user table |
| Models.UserManager.CreateUser | app/core/models.py:18-26 | succeeds exactly when the email is non-empty and its normalised form is not in use; empty email → `MissingEmail` and an address in use → `EmailTaken`, both storing nothing; on success one new row with a fresh id, the normalised email, the given name and password, `is_active` true and `is_staff`/`is_superuser` false, appended to the table; email uniqueness is kept |
| Models.UserManager.CreateSuperuser | app/core/models.py:28-36 | succeeds exactly when `create_user` would, with the same error cases; on success the one new row has the normalised email, an empty name, `is_staff` and `is_superuser` true, and is still active |
| Ordering.NameLeTotal | app/recipe/views.py:131 | the name order relates any two names |
| Ordering.NameLeTransitive | app/recipe/views.py:131 | the name order is transitive |
| Ordering.NameLeAntisymmetric | app/recipe/views.py:131 | two names ordered both ways are equal |
| Ordering.InsertByIdPermutes | app/recipe/views.py:72 | inserting by id adds exactly the inserted row |
| Ordering.InsertByIdMembers | app/recipe/views.py:72 | after inserting by id, the rows are those of the input plus the inserted one |
| Ordering.HeadHasLargestId | app/recipe/views.py:72 | in an id-descending list no row has a larger id than the head |
| Ordering.ConsById | app/recipe/views.py:72 | a row whose id is at least every id of a descending list can go in front of it |
| Ordering.InsertByIdSorted | app/recipe/views.py:72 | inserting into an id-descending list keeps it id-descending and adds exactly that row |
| Ordering.SortById | app/recipe/views.py:72 | `order_by("-id")` yields an id-descending permutation of its input |
| Ordering.InsertByIdUnique | app/recipe/views.py:72 | inserting a row with a new id into a strictly id-descending list keeps it strictly descending |
| Ordering.ConsUniqueIds | app/recipe/views.py:70-72 | a selection from the tail of a list with unique ids stays unique with the head in front |
| Ordering.SortByIdStrict | app/recipe/views.py:72 | with unique ids the sorted list is strictly descending, so each recipe appears once |
| Ordering.ConsUniqueLabelIds | app/recipe/views.py:129-131 | a selection from the tail of a label list with unique ids stays unique with the head in front |
| Ordering.InsertByNameSorted | app/recipe/views.py:131 | inserting into a name-descending list keeps it name-descending and adds exactly that label |
| Ordering.SortByName | app/recipe/views.py:131 | `order_by("-name")` yields a name-descending permutation of its input |
| Ordering.InsertByNamePermutes | app/recipe/views.py:131 | inserting by name adds exactly the inserted label |
| Ordering.InsertByNameMembers | app/recipe/views.py:131 | after inserting by name, the labels are those of the input plus the inserted one |
| Ordering.InsertByNameUnique | app/recipe/views.py:131 | inserting a label with a new id keeps label ids unique |
| Ordering.SortByNameUnique | app/recipe/views.py:131 | sorting by name keeps label ids unique, so each label appears once |
| Serializers.ListRepresentation | app/recipe/serializers.py:14-20 | the list serializer shows exactly `id, title, time_minutes, price, link`, in that order, with the recipe's values |
| Serializers.DetailRepresentation | app/recipe/serializers.py:24-28 | the detail serializer shows the list fields followed by `description` |
| Serializers.WritableFieldsAreDetailLessReadOnly | app/recipe/serializers.py:14-28 | the writable fields are the detail fields less the read-only `id`, and every required field is writable |
| Serializers.UpdateRecipe | app/recipe/serializers.py:24-28 | the write succeeds iff every writable field passes its check; a failure reports exactly the failing writable fields, each with its own error; a full write must supply title, time_minutes and price; id, owner and relations never change; each writable field takes the supplied value, otherwise it keeps the old one; a price that fitted its column still fits |
| Serializers.BuildRecipe | app/recipe/serializers.py:24-28 | a create succeeds iff the full-write checks pass, and otherwise reports exactly the failing writable fields, each with its own error; the new row has the caller's id and owner, no relations, the payload's required values, a price that fits its column, and `link`/`description` from the payload or empty |
| Serializers.NonFieldKeyIgnored | app/recipe/serializers.py:14-21 | a payload key that names no writable field has no effect on the write |
| Serializers.UserKeyIgnored | app/recipe/serializers.py:14-21 | a `user` key in the payload changes nothing, so the owner is kept |
| Serializers.RecipeStrIsSavedTitle | app/core/models.py:76-77 | a saved recipe prints as the title the payload gave it, and shows that title in the list |
| Serializers.ToPayloadAt | app/recipe/serializers.py:14-28 | reading a representation back, each name that occurs first at position i maps to position i's value |
| Serializers.PutDetailRoundTrip | app/recipe/serializers.py:24-28 | a full PUT of exactly what GET showed of an acceptable recipe leaves it unchanged |
| Views.GetSerializerClass | app/recipe/views.py:74-80 | `list` uses the list serializer, `upload_image` the image serializer, and every other action the detail serializer |
| Views.FilterRecipes | app/recipe/views.py:62-71 | a row is kept iff it is the requester's and it passes the tag and ingredient filters; unique ids stay unique |
| Views.IdFilter | app/recipe/views.py:58-68 | an absent or empty `tags`/`ingredients` parameter applies no filter; a present one fails with `MalformedIdList` iff it does not parse, and otherwise filters on exactly the integers its pieces parse to |
| Views.ListRecipes | app/recipe/views.py:56-72 | fails iff a present, non-empty id list is malformed; otherwise it lists exactly the requester's recipes that match the filters, id-descending, each recipe once when ids are unique |
| Views.ListWithoutFilters | app/recipe/views.py:62-72 | an absent or empty filter lists all of the requester's recipes and only those |
| Views.ListWithTagFilter | app/recipe/views.py:62-72 | with `tags=...` a recipe is listed iff the requester owns it and one of its tags is among the ids |
| Views.OthersRecipesNotListed | app/recipe/views.py:70-72 | another user's recipe is never listed |
| Views.FindById | app/recipe/views.py:56-72 | finds a row of the queryset with the primary key, or reports that no row has it |
| Views.GetRecipe | app/recipe/views.py:56-72 | a malformed `tags`/`ingredients` list makes every lookup fail with `MalformedIdList`; otherwise a lookup finds a row iff the requester's filtered list has one with that id; what it finds is in that list, so it is the requester's |
| Views.NotOwnedIsNotFound | app/recipe/views.py:70-72 | a recipe id the requester does not own is "not found" |
| Views.RetrieveRecipe | app/recipe/views.py:56-80 | `retrieve` fails exactly when the scoped lookup fails, with the lookup's error; otherwise it shows the detail representation of a recipe with that id from the requester's filtered list |
| Views.AssignedOnlyFlag | app/recipe/views.py:122-124 | an absent `assigned_only` is false; a present one fails with `MalformedFlag` iff it is not an integer, and is otherwise true iff its value is non-zero |
| Views.FilterLabels | app/recipe/views.py:125-130 | a label is kept iff it is the requester's and, when `assigned_only` is set, some recipe refers to it; unique ids stay unique |
| Views.ListLabels | app/recipe/views.py:120-131 | fails iff `assigned_only` is present and not an integer; otherwise it lists exactly the requester's labels, only referenced ones when the flag is non-zero, in descending name order, each once when ids are unique |
| Views.AssignedOnlyListsReferencedOnce | app/recipe/views.py:122-131 | with `assigned_only=1` a label is listed iff some recipe refers to it, and no label appears twice even when several recipes refer to it |
| Views.UnfilteredListsAllOwned | app/recipe/views.py:122-131 | without `assigned_only` or with `0`, all of the requester's labels are listed |
| Views.TagsListedByStr | app/core/models.py:59-60 | the tag list is in descending order of what each tag prints as |
| Views.GetLabel | app/recipe/views.py:120-131 | a malformed `assigned_only` makes every lookup fail with `MalformedFlag`; otherwise a lookup finds a label iff the requester's label list has one with that id; what it finds is in that list, so it is the requester's; when the flag parses, the only failure is `NotFound` |
| Views.NotOwnedLabelIsNotFound | app/recipe/views.py:120-131 | a label id the requester does not own is "not found" whenever `assigned_only` parses |
| Views.RemoveRecipe | app/recipe/views.py:45-48 | deleting an id removes exactly the rows with that id; unique ids stay unique |
| Views.RemoveLabel | app/recipe/views.py:110-115 | deleting a label id removes exactly the labels with that id; unique ids stay unique |
| Views.Unrelate | app/recipe/views.py:110-115 | deleting a label removes its id from the relation of that kind in every recipe, and changes nothing else in any recipe |
| Views.DeletedLabelUnassigned | app/recipe/views.py:126-127 | after a label's links are deleted, no recipe refers to it |
| Views.ReplaceKeepsTable | app/recipe/views.py:45-48 | saving an update of a row keeps ids unique, below the next key and with fitting prices, and leaves other owners' rows in place |
| Views.RemoveKeepsTable | app/recipe/views.py:45-48 | deleting a row keeps the table invariant and leaves other owners' rows in place |
| Views.UnrelateKeepsTable | app/recipe/views.py:110-115 | dropping a label's links keeps the recipe table invariant |
| Views.RecipeStore.constructor | app/recipe/views.py:45-48 | the store starts from given tables whose ids are unique and whose prices fit the price column |
| Views.RecipeStore.PerformCreate | app/recipe/views.py:82-83 | a create that fails validation stores nothing; on success exactly one new row is appended, with a fresh id and the requester as owner; unique ids and fitting prices are kept |
| Views.RecipeStore.Update | app/recipe/views.py:45-72 | a failed lookup or failed validation changes nothing; on success the requester's row is replaced by its validated update, and no other user's recipe changes |
| Views.RecipeStore.Destroy | app/recipe/views.py:45-72 | a failed lookup deletes nothing; on success exactly the rows with that id go, and no other user's recipe is touched |
| Views.RecipeStore.DestroyLabel | app/recipe/views.py:110-131 | a failed lookup changes nothing; on success the label goes from its own table, its id leaves every recipe's relation of that kind, and the other table is unchanged |

## Left out

- Password hashing (`set_password`) and token authentication: the password is stored as given, and the requester is a parameter.
- How the requester is identified: the user id is a parameter of every view operation.
- `wait_for_db`, the admin, URL routing and the OpenAPI schema decorators: none of them changes the behaviour modelled here.
- `upload_image` and `RecipeImageSerializer`: the image field is not shown in the model file. Only the serializer choice for that action is modelled.
- Nested get-or-create of tags and ingredients in recipe payloads, and the Tag, Ingredient and Image serializers: those serializers are not part of this model. A recipe's relations come from the initial tables given to the store's constructor, and no operation attaches a label to a recipe.
- Updating a tag or an ingredient (the update mixin of the label views): it validates through `TagSerializer` and `IngredientSerializer`, which are not part of this model. Deleting a label is modelled.
- SQL mechanics: joins, `distinct()`, and the database's collation. Names are ordered by character code, and the order of two labels with equal names is whatever the insertion sort gives, because `order_by("-name")` leaves it unspecified.
- Numerals.ParseInt: accepts only an optional `-` followed by ASCII digits. Python's `int()` also accepts surrounding whitespace, a leading `+`, underscores between digits and non-ASCII digits; those inputs fail here.
- The HTTP status of a failed parse: Python lets the `ValueError` escape as a server error. The model returns `MalformedIdList` or `MalformedFlag`.
- HTTP status codes and response bodies in general: errors are datatype values.
- Models.NormalizeEmail: lower-cases only ASCII letters in the domain part.
- Models.NormalizeEmail: when the address contains `@`, Django's `normalize_email` first strips surrounding whitespace; the model keeps that whitespace, and so does `Models.UserManager.CreateUser`, which calls it.
- Models.UserManager.CreateUser: `**kwargs` is modelled only as `name`.
- Serializers.UpdateRecipe: DRF's type coercion of payload values (a numeric string for `time_minutes`, a float for `price`) and `trim_whitespace` are not modelled. A value of the wrong kind is `Invalid`.
- Serializers.UpdateRecipe: the range of the 32-bit integer column behind `time_minutes` is not checked.
- Models.UserManager.CreateUser: does not model the email and name columns' `max_length=200`. `create_user` does not check them, but the PostgreSQL database rejects a longer value when the row is saved (`DataError`); the model stores it.
- Models.UserManager.CreateUser: ids come from a counter that advances only when a row is stored. A PostgreSQL sequence also consumes a value on a failed insert, so the database's ids can have gaps that the model's do not.
- Concurrency and transactions: every operation is one atomic step on the store.

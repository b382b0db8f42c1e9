/**
 * The records of the recipe backend (app/core/models.py): users, tags and
 * ingredients (both "labels": an id, an owner and a name) and recipes, plus
 * the user manager that creates accounts.
 *
 * Ids are the rows' primary keys. A recipe's tags and ingredients are sets of
 * label ids, as the recipe views use them. A price is an amount in cents,
 * so the two decimal places are exact.
 */
module Models {
  import opened Wrappers
  import opened Numerals

  datatype User = User(
    id: int,
    email: string,
    name: string,
    password: Option<string>,  // what `set_password` was given; hashing is not modelled
    isActive: bool,
    isStaff: bool,
    isSuperuser: bool)

  /** A tag or an ingredient: a name owned by one user. */
  datatype Label = Label(id: int, owner: int, name: string)

  datatype Recipe = Recipe(
    id: int,
    owner: int,
    title: string,
    timeMinutes: int,
    priceCents: int,
    description: string,
    link: string,
    tagIds: set<int>,
    ingredientIds: set<int>)

  // ---------------------------------------------------------------- prices

  /** `DecimalField(max_digits=5, decimal_places=2)` */
  const PriceMaxDigits: nat := 5

  function Abs(x: int): nat {
    if x < 0 then -x else x
  }

  /**
   * An amount in cents fits the price column when it has at most five
   * digits; with two decimal places that is strictly between -1000.00 and
   * 1000.00.
   */
  predicate PriceFits(cents: int): (fits: bool)
    ensures fits <==> -100000 < cents < 100000
  {
    NumeralLength(Abs(cents), PriceMaxDigits);
    assert Pow10(PriceMaxDigits) == 100000;
    |NatToNumeral(Abs(cents))| <= PriceMaxDigits
  }

  // --------------------------------------------------------------- __str__

  /** `Tag.__str__` */
  function TagStr(t: Label): (s: string)
    ensures s == t.name
  {
    t.name
  }

  /** `Recipe.__str__` */
  function RecipeStr(r: Recipe): (s: string)
    ensures s == r.title
  {
    r.title
  }

  // ---------------------------------------------------- email normalisation

  /** The position of the last `@`, or -1 when there is none. */
  function LastAt(s: string): (k: int)
    ensures -1 <= k < |s|
    ensures k >= 0 ==> s[k] == '@'
    ensures forall j :: k < j < |s| ==> s[j] != '@'
  {
    if |s| == 0 then -1
    else if s[|s| - 1] == '@' then |s| - 1
    else LastAt(s[..|s| - 1])
  }

  function LowerChar(c: char): char {
    if 'A' <= c <= 'Z' then (c as int + 32) as char else c
  }

  function LowerAscii(s: string): string {
    seq(|s|, i requires 0 <= i < |s| => LowerChar(s[i]))
  }

  /**
   * `BaseUserManager.normalize_email`: the text after the last `@` is
   * lower-cased; the local part before it is kept as it is.
   */
  function NormalizeEmail(email: string): (e: string)
    ensures |e| == |email|
    ensures forall k :: 0 <= k < |email| ==>
      e[k] == if k > LastAt(email) >= 0 then LowerChar(email[k]) else email[k]
  {
    var k := LastAt(email);
    if k < 0 then email else email[..k + 1] + LowerAscii(email[k + 1..])
  }

  /** The local part is kept and the domain part is lower-cased. */
  lemma NormalizeEmailParts(local: string, domain: string)
    requires '@' !in domain
    ensures NormalizeEmail(local + "@" + domain) == local + "@" + LowerAscii(domain)
  {
    var s := local + "@" + domain;
    var k := LastAt(s);
    assert s[|local|] == '@';
    assert k == |local|;
    assert s[..k + 1] == local + "@";
    assert s[k + 1..] == domain;
  }

  /** An address without `@` is left alone. */
  lemma NormalizeEmailWithoutAt(email: string)
    requires '@' !in email
    ensures NormalizeEmail(email) == email
  {
    assert LastAt(email) < 0;
  }

  /** The address is its local part, the last `@` and a domain without `@`. */
  lemma LastAtSplits(email: string)
    requires LastAt(email) >= 0
    ensures email == email[..LastAt(email)] + "@" + email[LastAt(email) + 1..]
    ensures '@' !in email[LastAt(email) + 1..]
  {
    var k := LastAt(email);
    var domain := email[k + 1..];
    forall j | 0 <= j < |domain| ensures domain[j] != '@' {
      assert domain[j] == email[k + 1 + j];
    }
  }

  /** Lower-casing adds no `@` and is idempotent. */
  lemma LowerAsciiStable(domain: string)
    requires '@' !in domain
    ensures '@' !in LowerAscii(domain)
    ensures LowerAscii(LowerAscii(domain)) == LowerAscii(domain)
  {
    var lowered := LowerAscii(domain);
    forall j | 0 <= j < |lowered| ensures lowered[j] != '@' {
      assert lowered[j] == LowerChar(domain[j]);
    }
  }

  /** Normalising twice is normalising once. */
  lemma NormalizeEmailIdempotent(email: string)
    ensures NormalizeEmail(NormalizeEmail(email)) == NormalizeEmail(email)
  {
    var k := LastAt(email);
    if k < 0 {
      NormalizeEmailWithoutAt(email);
    } else {
      LastAtSplits(email);
      var local, domain := email[..k], email[k + 1..];
      NormalizeEmailParts(local, domain);
      LowerAsciiStable(domain);
      NormalizeEmailParts(local, LowerAscii(domain));
    }
  }

  // ------------------------------------------------------------------ users

  datatype UserError = MissingEmail | EmailTaken

  predicate EmailInUse(users: seq<User>, email: string) {
    exists u :: u in users && u.email == email
  }

  predicate EmailsUnique(users: seq<User>) {
    forall i, j :: 0 <= i < j < |users| ==> users[i].email != users[j].email
  }

  /** The user table and `UserManager`. */
  class UserManager {
    var users: seq<User>
    var nextId: int  // the next primary key the table hands out

    /** The email column is unique and every row's id was handed out before. */
    ghost predicate Valid()
      reads this
    {
      && EmailsUnique(users)
      && forall k :: 0 <= k < |users| ==> users[k].id < nextId
    }

    constructor ()
      ensures Valid() && users == [] && nextId == 1
    {
      users := [];
      nextId := 1;
    }

    /**
     * `create_user`: rejects an empty email, normalises it, sets the default
     * flags and saves the row; the unique email column rejects a second
     * account with the same normalised address.
     */
    method CreateUser(email: string, password: Option<string>, name: string) returns (r: Result<User, UserError>)
      requires Valid()
      modifies this
      ensures Valid()
      ensures email == "" ==> r == Failure(MissingEmail)
      ensures email != "" && EmailInUse(old(users), NormalizeEmail(email)) ==> r == Failure(EmailTaken)
      ensures r.Failure? ==> users == old(users) && nextId == old(nextId)
      ensures r.Success? <==> email != "" && !EmailInUse(old(users), NormalizeEmail(email))
      ensures r.Success? ==>
        && r.value.id == old(nextId)
        && r.value.email == NormalizeEmail(email)
        && r.value.name == name
        && r.value.password == password
        && r.value.isActive && !r.value.isStaff && !r.value.isSuperuser
      ensures r.Success? ==> users == old(users) + [r.value] && nextId == old(nextId) + 1
    {
      if email == "" {
        return Failure(MissingEmail);
      }
      var normalized := NormalizeEmail(email);
      var user := User(nextId, normalized, name, password, isActive := true, isStaff := false, isSuperuser := false);
      if EmailInUse(users, normalized) {
        return Failure(EmailTaken);
      }
      users := users + [user];
      nextId := nextId + 1;
      r := Success(user);
    }

    /** `create_superuser`: `create_user`, then both flags set and the row saved again. */
    method CreateSuperuser(email: string, password: Option<string>) returns (r: Result<User, UserError>)
      requires Valid()
      modifies this
      ensures Valid()
      ensures email == "" ==> r == Failure(MissingEmail)
      ensures email != "" && EmailInUse(old(users), NormalizeEmail(email)) ==> r == Failure(EmailTaken)
      ensures r.Failure? ==> users == old(users) && nextId == old(nextId)
      ensures r.Success? <==> email != "" && !EmailInUse(old(users), NormalizeEmail(email))
      ensures r.Success? ==>
        && r.value.id == old(nextId)
        && r.value.email == NormalizeEmail(email)
        && r.value.name == ""
        && r.value.password == password
        && r.value.isActive && r.value.isStaff && r.value.isSuperuser
      ensures r.Success? ==> users == old(users) + [r.value] && nextId == old(nextId) + 1
    {
      r := CreateUser(email, password, "");
      if r.Failure? {
        return;
      }
      var user := r.value.(isStaff := true, isSuperuser := true);
      users := users[|users| - 1 := user];
      r := Success(user);
    }
  }
}

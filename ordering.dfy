/**
 * The two orders the list views ask for: recipes by descending id
 * (`order_by("-id")`) and labels by descending name (`order_by("-name")`).
 * Names compare lexicographically by character code. Each sort is an
 * insertion sort, proved to give a sorted permutation of its input.
 */
module Ordering {
  import opened Models

  // ------------------------------------------------------------ name order

  /** `a` sorts at or before `b`, character code by character code. */
  predicate NameLe(a: string, b: string) {
    |a| == 0 || (|b| > 0 && (a[0] < b[0] || (a[0] == b[0] && NameLe(a[1..], b[1..]))))
  }

  lemma {:induction false} NameLeTotal(a: string, b: string)
    ensures NameLe(a, b) || NameLe(b, a)
  {
    if |a| > 0 && |b| > 0 && a[0] == b[0] {
      NameLeTotal(a[1..], b[1..]);
    }
  }

  lemma {:induction false} NameLeTransitive(a: string, b: string, c: string)
    requires NameLe(a, b) && NameLe(b, c)
    ensures NameLe(a, c)
  {
    if |a| > 0 && a[0] == b[0] && b[0] == c[0] {
      NameLeTransitive(a[1..], b[1..], c[1..]);
    }
  }

  lemma {:induction false} NameLeAntisymmetric(a: string, b: string)
    requires NameLe(a, b) && NameLe(b, a)
    ensures a == b
  {
    if |a| > 0 {
      NameLeAntisymmetric(a[1..], b[1..]);
      assert a == [a[0]] + a[1..] && b == [b[0]] + b[1..];
    }
  }

  // ------------------------------------------------------- recipes by id

  predicate UniqueIds(s: seq<Recipe>) {
    forall i, j :: 0 <= i < j < |s| ==> s[i].id != s[j].id
  }

  predicate ByIdDescending(s: seq<Recipe>) {
    forall i, j :: 0 <= i < j < |s| ==> s[i].id >= s[j].id
  }

  predicate ByIdStrictlyDescending(s: seq<Recipe>) {
    forall i, j :: 0 <= i < j < |s| ==> s[i].id > s[j].id
  }

  function InsertById(x: Recipe, s: seq<Recipe>): seq<Recipe> {
    if s == [] || s[0].id <= x.id then [x] + s else [s[0]] + InsertById(x, s[1..])
  }

  /** `order_by("-id")`: the recipes in descending id order, each as often as in the input. */
  function SortById(s: seq<Recipe>): (r: seq<Recipe>)
    ensures ByIdDescending(r)
    ensures multiset(r) == multiset(s)
  {
    if s == [] then []
    else
      var rest := SortById(s[1..]);
      InsertByIdSorted(s[0], rest);
      assert s == [s[0]] + s[1..];
      InsertById(s[0], rest)
  }

  lemma {:induction false} InsertByIdPermutes(x: Recipe, s: seq<Recipe>)
    ensures multiset(InsertById(x, s)) == multiset(s) + multiset{x}
  {
    if s != [] && s[0].id > x.id {
      InsertByIdPermutes(x, s[1..]);
      assert s == [s[0]] + s[1..];
    }
  }

  lemma InsertByIdMembers(x: Recipe, s: seq<Recipe>)
    ensures forall y :: y in InsertById(x, s) <==> y in s || y == x
  {
    InsertByIdPermutes(x, s);
    forall y ensures y in InsertById(x, s) <==> y in s || y == x {
      assert y in InsertById(x, s) <==> y in multiset(InsertById(x, s));
      assert y in s <==> y in multiset(s);
    }
  }

  /** In an id-descending list no row has a larger id than the head. */
  lemma HeadHasLargestId(s: seq<Recipe>, y: Recipe)
    requires ByIdDescending(s) && y in s
    ensures y.id <= s[0].id
  {
    var m :| 0 <= m < |s| && s[m] == y;
  }

  /** A row with an id no smaller than any in a descending list can go in front. */
  lemma ConsById(h: Recipe, rest: seq<Recipe>)
    requires ByIdDescending(rest)
    requires forall j :: 0 <= j < |rest| ==> rest[j].id <= h.id
    ensures ByIdDescending([h] + rest)
  {
    var r := [h] + rest;
    forall i, j | 0 <= i < j < |r| ensures r[i].id >= r[j].id {
      assert r[j] == rest[j - 1];
      if i > 0 {
        assert r[i] == rest[i - 1];
      }
    }
  }

  lemma {:induction false} InsertByIdSorted(x: Recipe, s: seq<Recipe>)
    requires ByIdDescending(s)
    ensures ByIdDescending(InsertById(x, s))
    ensures multiset(InsertById(x, s)) == multiset(s) + multiset{x}
  {
    InsertByIdPermutes(x, s);
    if s == [] {
    } else if s[0].id <= x.id {
      ConsById(x, s);
    } else {
      InsertByIdSorted(x, s[1..]);
      InsertByIdMembers(x, s[1..]);
      var rest := InsertById(x, s[1..]);
      assert s == [s[0]] + s[1..];
      forall j | 0 <= j < |rest| ensures rest[j].id <= s[0].id {
        if rest[j] != x {
          assert rest[j] in s;
          HeadHasLargestId(s, rest[j]);
        }
      }
      ConsById(s[0], rest);
    }
  }

  lemma {:induction false} InsertByIdUnique(x: Recipe, s: seq<Recipe>)
    requires ByIdStrictlyDescending(s)
    requires forall k :: 0 <= k < |s| ==> s[k].id != x.id
    ensures ByIdStrictlyDescending(InsertById(x, s))
  {
    if s != [] && s[0].id > x.id {
      InsertByIdUnique(x, s[1..]);
      InsertByIdMembers(x, s[1..]);
      var rest := InsertById(x, s[1..]);
      forall j | 0 <= j < |rest| ensures s[0].id > rest[j].id {
        if rest[j] != x {
          assert rest[j] in s[1..];
          var m :| 0 <= m < |s[1..]| && s[1..][m] == rest[j];
          assert s[m + 1] == rest[j];
        }
      }
      var r := [s[0]] + rest;
      assert InsertById(x, s) == r;
      forall i, j | 0 <= i < j < |r| ensures r[i].id > r[j].id {
        assert r[j] == rest[j - 1];
        if i > 0 {
          assert r[i] == rest[i - 1];
        }
      }
    }
  }

  /**
   * A list drawn from the tail of a list with unique ids avoids the head's
   * id, so the head can go in front of it.
   */
  lemma ConsUniqueIds(s: seq<Recipe>, rest: seq<Recipe>)
    requires s != []
    requires forall x :: x in rest ==> x in s[1..]
    ensures UniqueIds(s) && UniqueIds(rest) ==> UniqueIds([s[0]] + rest)
  {
    if UniqueIds(s) && UniqueIds(rest) {
      var r := [s[0]] + rest;
      forall i, j | 0 <= i < j < |r| ensures r[i].id != r[j].id {
        assert r[j] == rest[j - 1];
        assert rest[j - 1] in s[1..];
        var m :| 0 <= m < |s[1..]| && s[1..][m] == rest[j - 1];
        assert s[m + 1] == rest[j - 1];
        if i > 0 {
          assert r[i] == rest[i - 1];
        }
      }
    }
  }

  /** Distinct ids come out strictly descending: no recipe twice. */
  lemma {:induction false} SortByIdStrict(s: seq<Recipe>)
    requires UniqueIds(s)
    ensures ByIdStrictlyDescending(SortById(s))
  {
    if s != [] {
      SortByIdStrict(s[1..]);
      var rest := SortById(s[1..]);
      forall k | 0 <= k < |rest| ensures rest[k].id != s[0].id {
        assert rest[k] in multiset(s[1..]);
        var j :| 0 <= j < |s[1..]| && s[1..][j] == rest[k];
        assert s[j + 1] == rest[k];
      }
      InsertByIdUnique(s[0], rest);
    }
  }

  // ----------------------------------------------------- labels by name

  predicate UniqueLabelIds(s: seq<Label>) {
    forall i, j :: 0 <= i < j < |s| ==> s[i].id != s[j].id
  }

  predicate ByNameDescending(s: seq<Label>) {
    forall i, j :: 0 <= i < j < |s| ==> NameLe(s[j].name, s[i].name)
  }

  function InsertByName(x: Label, s: seq<Label>): seq<Label> {
    if s == [] || NameLe(s[0].name, x.name) then [x] + s else [s[0]] + InsertByName(x, s[1..])
  }

  /** `order_by("-name")`: the labels in non-increasing name order, each as often as in the input. */
  function SortByName(s: seq<Label>): (r: seq<Label>)
    ensures ByNameDescending(r)
    ensures multiset(r) == multiset(s)
  {
    if s == [] then []
    else
      var rest := SortByName(s[1..]);
      InsertByNameSorted(s[0], rest);
      assert s == [s[0]] + s[1..];
      InsertByName(s[0], rest)
  }

  /** The label counterpart of `ConsUniqueIds`. */
  lemma ConsUniqueLabelIds(s: seq<Label>, rest: seq<Label>)
    requires s != []
    requires forall x :: x in rest ==> x in s[1..]
    ensures UniqueLabelIds(s) && UniqueLabelIds(rest) ==> UniqueLabelIds([s[0]] + rest)
  {
    if UniqueLabelIds(s) && UniqueLabelIds(rest) {
      var r := [s[0]] + rest;
      forall i, j | 0 <= i < j < |r| ensures r[i].id != r[j].id {
        assert r[j] == rest[j - 1];
        assert rest[j - 1] in s[1..];
        var m :| 0 <= m < |s[1..]| && s[1..][m] == rest[j - 1];
        assert s[m + 1] == rest[j - 1];
        if i > 0 {
          assert r[i] == rest[i - 1];
        }
      }
    }
  }

  lemma {:induction false} InsertByNameSorted(x: Label, s: seq<Label>)
    requires ByNameDescending(s)
    ensures ByNameDescending(InsertByName(x, s))
    ensures multiset(InsertByName(x, s)) == multiset(s) + multiset{x}
  {
    if s == [] {
    } else if NameLe(s[0].name, x.name) {
      forall j | 0 <= j < |s| ensures NameLe(s[j].name, x.name) {
        if j > 0 {
          NameLeTransitive(s[j].name, s[0].name, x.name);
        }
      }
    } else {
      NameLeTotal(s[0].name, x.name);
      InsertByNameSorted(x, s[1..]);
      var rest := InsertByName(x, s[1..]);
      assert s == [s[0]] + s[1..];
      forall j | 0 <= j < |rest| ensures NameLe(rest[j].name, s[0].name) {
        assert rest[j] in multiset(rest);
      }
    }
  }

  lemma {:induction false} InsertByNamePermutes(x: Label, s: seq<Label>)
    ensures multiset(InsertByName(x, s)) == multiset(s) + multiset{x}
  {
    if s != [] && !NameLe(s[0].name, x.name) {
      InsertByNamePermutes(x, s[1..]);
      assert s == [s[0]] + s[1..];
    }
  }

  lemma InsertByNameMembers(x: Label, s: seq<Label>)
    ensures forall y :: y in InsertByName(x, s) <==> y in s || y == x
  {
    InsertByNamePermutes(x, s);
    forall y ensures y in InsertByName(x, s) <==> y in s || y == x {
      assert y in InsertByName(x, s) <==> y in multiset(InsertByName(x, s));
      assert y in s <==> y in multiset(s);
    }
  }

  lemma {:induction false} InsertByNameUnique(x: Label, s: seq<Label>)
    requires UniqueLabelIds(s)
    requires forall k :: 0 <= k < |s| ==> s[k].id != x.id
    ensures UniqueLabelIds(InsertByName(x, s))
  {
    if s != [] && !NameLe(s[0].name, x.name) {
      InsertByNameUnique(x, s[1..]);
      InsertByNameMembers(x, s[1..]);
      var rest := InsertByName(x, s[1..]);
      forall j | 0 <= j < |rest| ensures s[0].id != rest[j].id {
        if rest[j] != x {
          assert rest[j] in s[1..];
          var m :| 0 <= m < |s[1..]| && s[1..][m] == rest[j];
          assert s[m + 1] == rest[j];
        }
      }
      var r := [s[0]] + rest;
      assert InsertByName(x, s) == r;
      forall i, j | 0 <= i < j < |r| ensures r[i].id != r[j].id {
        assert r[j] == rest[j - 1];
        if i > 0 {
          assert r[i] == rest[i - 1];
        }
      }
    }
  }

  /** Sorting keeps distinct ids distinct: no label twice. */
  lemma {:induction false} SortByNameUnique(s: seq<Label>)
    requires UniqueLabelIds(s)
    ensures UniqueLabelIds(SortByName(s))
  {
    if s != [] {
      SortByNameUnique(s[1..]);
      var rest := SortByName(s[1..]);
      forall k | 0 <= k < |rest| ensures rest[k].id != s[0].id {
        assert rest[k] in multiset(s[1..]);
        var j :| 0 <= j < |s[1..]| && s[1..][j] == rest[k];
        assert s[j + 1] == rest[k];
      }
      InsertByNameUnique(s[0], rest);
    }
  }
}

/**
 * The comma-separated id lists of the recipe list filters
 * (`RecipeViewSet._params_to_int`): the string is split at every comma, as
 * Python's `str.split(",")` does, and every piece must be an integer literal.
 */
module IdParams {
  import opened Wrappers
  import opened Numerals

  const Comma: char := ','

  /** `s.split(sep)`: the pieces between separators, always at least one. */
  function Split(s: string, sep: char): (pieces: seq<string>)
    ensures |pieces| >= 1
    ensures forall k :: 0 <= k < |pieces| ==> sep !in pieces[k]
  {
    if |s| == 0 then [""]
    else
      var rest := Split(s[1..], sep);
      if s[0] == sep then [""] + rest
      else [[s[0]] + rest[0]] + rest[1..]
  }

  /** `sep.join(pieces)` */
  function Join(pieces: seq<string>, sep: char): string
    requires |pieces| >= 1
  {
    if |pieces| == 1 then pieces[0] else pieces[0] + [sep] + Join(pieces[1..], sep)
  }

  /** Joining the pieces gives back the string: no character is lost or added. */
  lemma {:induction false} JoinSplit(s: string, sep: char)
    ensures Join(Split(s, sep), sep) == s
  {
    if |s| > 0 {
      var rest := Split(s[1..], sep);
      JoinSplit(s[1..], sep);
      if s[0] == sep {
        assert ([""] + rest)[1..] == rest;
      } else {
        var pieces := [[s[0]] + rest[0]] + rest[1..];
        if |rest| > 1 {
          assert pieces[1..] == rest[1..];
        }
        assert [s[0]] + s[1..] == s;
      }
    }
  }

  lemma {:induction false} SplitWithoutSeparator(a: string, sep: char)
    requires sep !in a
    ensures Split(a, sep) == [a]
  {
    if |a| > 0 {
      SplitWithoutSeparator(a[1..], sep);
      assert [a[0]] + a[1..] == a;
    }
  }

  lemma {:induction false} SplitAtSeparator(a: string, t: string, sep: char)
    requires sep !in a
    ensures Split(a + [sep] + t, sep) == [a] + Split(t, sep)
  {
    var s := a + [sep] + t;
    if |a| == 0 {
      assert s[1..] == t;
    } else {
      assert s[1..] == a[1..] + [sep] + t;
      SplitAtSeparator(a[1..], t, sep);
      assert [a[0]] + a[1..] == a;
    }
  }

  /** Splitting a join of separator-free pieces gives back those pieces. */
  lemma {:induction false} SplitJoin(pieces: seq<string>, sep: char)
    requires |pieces| >= 1
    requires forall k :: 0 <= k < |pieces| ==> sep !in pieces[k]
    ensures Split(Join(pieces, sep), sep) == pieces
  {
    if |pieces| == 1 {
      SplitWithoutSeparator(pieces[0], sep);
    } else {
      SplitJoin(pieces[1..], sep);
      SplitAtSeparator(pieces[0], Join(pieces[1..], sep), sep);
      assert [pieces[0]] + pieces[1..] == pieces;
    }
  }

  /** `[int(p) for p in pieces]`, failing as a whole when one piece fails. */
  function ParseAll(pieces: seq<string>): (r: Option<seq<int>>)
    ensures r.Some? <==> forall k :: 0 <= k < |pieces| ==> ParseInt(pieces[k]).Some?
    ensures r.Some? ==> |r.value| == |pieces|
    ensures r.Some? ==> forall k :: 0 <= k < |pieces| ==> ParseInt(pieces[k]) == Some(r.value[k])
  {
    if |pieces| == 0 then Some([])
    else
      match (ParseInt(pieces[0]), ParseAll(pieces[1..]))
      case (Some(x), Some(xs)) => Some([x] + xs)
      case _ => None
  }

  /** `RecipeViewSet._params_to_int`: one integer per comma-separated piece, in order. */
  function ParamsToInt(qa: string): (r: Option<seq<int>>)
    ensures r.None? <==> exists k :: 0 <= k < |Split(qa, Comma)| && ParseInt(Split(qa, Comma)[k]).None?
    ensures r.Some? ==> |r.value| == |Split(qa, Comma)|
    ensures r.Some? ==> forall k :: 0 <= k < |r.value| ==> ParseInt(Split(qa, Comma)[k]) == Some(r.value[k])
    ensures qa == "" ==> r.None?
  {
    var pieces := Split(qa, Comma);
    if ParseAll(pieces).None? then
      assert !forall k :: 0 <= k < |pieces| ==> ParseInt(pieces[k]).Some?;
      var k :| 0 <= k < |pieces| && !ParseInt(pieces[k]).Some?;
      assert ParseInt(Split(qa, Comma)[k]).None?;
      None
    else ParseAll(pieces)
  }

  /** The query string a client builds for a list of ids: `",".join(str(i) for i in ids)`. */
  function JoinIds(ids: seq<int>): string
    requires |ids| >= 1
  {
    Join(seq(|ids|, k requires 0 <= k < |ids| => IntToNumeral(ids[k])), Comma)
  }

  /** Parsing a comma-joined list of integer literals yields those integers, in order. */
  lemma ParamsToIntRoundTrip(ids: seq<int>)
    requires |ids| >= 1
    ensures ParamsToInt(JoinIds(ids)) == Some(ids)
  {
    var pieces := seq(|ids|, k requires 0 <= k < |ids| => IntToNumeral(ids[k]));
    forall k | 0 <= k < |pieces|
      ensures Comma !in pieces[k] && ParseInt(pieces[k]) == Some(ids[k])
    {
      ParseIntRoundTrip(ids[k]);
      assert forall j :: 0 <= j < |pieces[k]| ==> pieces[k][j] != Comma;
    }
    SplitJoin(pieces, Comma);
    var r := ParamsToInt(JoinIds(ids));
    assert r.Some?;
    assert r.value == ids;
  }

  /** Two adjacent separators leave an empty piece, and not as the first piece. */
  lemma {:induction false} AdjacentSeparatorsGiveEmptyPiece(s: string, i: nat, sep: char)
    requires i + 1 < |s| && s[i] == sep && s[i + 1] == sep
    ensures "" in Split(s, sep)[1..]
  {
    var rest := Split(s[1..], sep);
    if i == 0 {
      assert s[1..][0] == sep;
      assert rest == [""] + Split(s[2..], sep) by {
        assert s[1..][1..] == s[2..];
      }
      if s[0] == sep {
        assert Split(s, sep)[1..] == rest;
      }
    } else {
      AdjacentSeparatorsGiveEmptyPiece(s[1..], i - 1, sep);
      if s[0] == sep {
        assert Split(s, sep)[1..] == rest;
      } else {
        assert Split(s, sep)[1..] == rest[1..];
      }
    }
  }

  /** An empty piece, as in "1,,2", makes the whole parse fail: it is not dropped. */
  lemma AdjacentCommasRejected(s: string, i: nat)
    requires i + 1 < |s| && s[i] == Comma && s[i + 1] == Comma
    ensures ParamsToInt(s).None?
  {
    AdjacentSeparatorsGiveEmptyPiece(s, i, Comma);
    var pieces := Split(s, Comma);
    var k :| 1 <= k < |pieces| && pieces[k] == "";
    assert ParseInt(pieces[k]).None?;
  }
}

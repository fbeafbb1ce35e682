/**
 * The few java.lang.String operations the core depends on, with the JDK's semantics:
 * split with a one-character literal separator and limit 0, replace of a one-character
 * literal by "", equalsIgnoreCase and string concatenation with a separator.
 */
module JavaStrings {

  /** Every piece of s between occurrences of sep, empty pieces included: n separators give n + 1 pieces. */
  function SplitAll(s: string, sep: char): (r: seq<string>)
    ensures |r| >= 1
    ensures forall i :: 0 <= i < |r| ==> sep !in r[i]
    decreases |s|
  {
    if |s| == 0 then [""]
    else
      var rest := SplitAll(s[1..], sep);
      if s[0] == sep then [""] + rest
      else [[s[0]] + rest[0]] + rest[1..]
  }

  /** The parts concatenated with sep between neighbours (String.join, or a chain of `+ sep +`). */
  function Join(parts: seq<string>, sep: string): string
  {
    if |parts| == 0 then ""
    else if |parts| == 1 then parts[0]
    else parts[0] + sep + Join(parts[1..], sep)
  }

  /** Drops the empty pieces at the end, as String.split does when the limit is 0. */
  function DropTrailingEmpty(ps: seq<string>): seq<string>
  {
    if |ps| == 0 then []
    else if ps[|ps| - 1] == "" then DropTrailingEmpty(ps[..|ps| - 1])
    else ps
  }

  /**
   * s.split(String.valueOf(sep)): a string without the separator gives itself as the only piece
   * (so "" gives [""]); otherwise the pieces between separators are kept, leading empty pieces
   * included, and the trailing empty pieces are dropped (so " " split on ' ' gives []).
   */
  function Split(s: string, sep: char): seq<string>
  {
    if sep !in s then [s] else DropTrailingEmpty(SplitAll(s, sep))
  }

  /** s.replace(String.valueOf(c), ""): every occurrence of c is removed. */
  function RemoveChar(s: string, c: char): (r: string)
    ensures c !in r
    ensures |r| <= |s|
  {
    if |s| == 0 then ""
    else (if s[0] == c then "" else [s[0]]) + RemoveChar(s[1..], c)
  }

  /** Character.toLowerCase on the ASCII letters; every other character is its own case fold. */
  function ToLower(c: char): char
  {
    if 'A' <= c <= 'Z' then (c as int + 32) as char else c
  }

  /** String.equalsIgnoreCase. */
  predicate EqualsIgnoreCase(a: string, b: string)
  {
    |a| == |b| && forall i :: 0 <= i < |a| ==> ToLower(a[i]) == ToLower(b[i])
  }

  // ---------------------------------------------------------------------------------------
  // Lemmas

  /** What dropping trailing empties keeps: a prefix that ends in a non-empty piece, followed in the input by empty pieces only. */
  lemma {:induction false} DropTrailingEmptyKeeps(ps: seq<string>)
    ensures DropTrailingEmpty(ps) <= ps
    ensures |DropTrailingEmpty(ps)| > 0 ==> DropTrailingEmpty(ps)[|DropTrailingEmpty(ps)| - 1] != ""
    ensures forall i :: |DropTrailingEmpty(ps)| <= i < |ps| ==> ps[i] == ""
  {
    if |ps| > 0 && ps[|ps| - 1] == "" {
      DropTrailingEmptyKeeps(ps[..|ps| - 1]);
    }
  }

  /** No piece of a split holds the separator. */
  lemma SplitPieces(s: string, sep: char)
    ensures forall i :: 0 <= i < |Split(s, sep)| ==> sep !in Split(s, sep)[i]
  {
    if sep in s {
      DropTrailingEmptyKeeps(SplitAll(s, sep));
    }
  }

  /** Joining the pieces with the separator gives back the string. */
  lemma {:induction false} SplitAllThenJoin(s: string, sep: char)
    ensures Join(SplitAll(s, sep), [sep]) == s
    decreases |s|
  {
    if |s| > 0 {
      var rest := SplitAll(s[1..], sep);
      SplitAllThenJoin(s[1..], sep);
      assert s == [s[0]] + s[1..];
      if s[0] != sep {
        var r := SplitAll(s, sep);
        assert |rest| >= 2 ==> Join(rest, [sep]) == rest[0] + [sep] + Join(rest[1..], [sep]);
        assert |rest| >= 2 ==> r[1..] == rest[1..];
      }
    }
  }

  /** Joining the pieces of a split gives back the string, except that separators at its end are lost. */
  lemma {:induction false} SplitThenJoin(s: string, sep: char)
    ensures Join(Split(s, sep), [sep]) <= s
    ensures forall i :: |Join(Split(s, sep), [sep])| <= i < |s| ==> s[i] == sep
  {
    if sep in s {
      var all := SplitAll(s, sep);
      var kept := DropTrailingEmpty(all);
      SplitAllThenJoin(s, sep);
      DropTrailingEmptyKeeps(all);
      JoinOfPrefix(all, |kept|, [sep]);
      assert all[..|kept|] == kept;
    }
  }

  /** Joining a prefix of pieces followed by empty pieces only adds separators. */
  lemma {:induction false} JoinOfPrefix(ps: seq<string>, k: nat, sep: string)
    requires k <= |ps|
    requires forall i :: k <= i < |ps| ==> ps[i] == ""
    ensures Join(ps[..k], sep) <= Join(ps, sep)
    ensures forall i :: |Join(ps[..k], sep)| <= i < |Join(ps, sep)| ==> Join(ps, sep)[i] in sep
  {
    if k == |ps| {
      assert ps[..k] == ps;
    } else if k == 0 {
      AllEmptyJoin(ps, sep);
    } else {
      JoinOfPrefix(ps[1..], k - 1, sep);
      assert ps[1..][..k - 1] == ps[..k][1..];
      if k == 1 {
        assert Join(ps[..k], sep) == ps[0];
        AllEmptyJoin(ps[1..], sep);
      }
    }
  }

  /** Joining empty pieces yields separators only. */
  lemma {:induction false} AllEmptyJoin(ps: seq<string>, sep: string)
    requires forall i :: 0 <= i < |ps| ==> ps[i] == ""
    ensures forall i :: 0 <= i < |Join(ps, sep)| ==> Join(ps, sep)[i] in sep
  {
    if |ps| > 1 {
      AllEmptyJoin(ps[1..], sep);
      assert Join(ps, sep) == sep + Join(ps[1..], sep);
    }
  }

  /** A string free of the separator splits into itself. */
  lemma {:induction false} SplitAllNoSep(a: string, sep: char)
    requires sep !in a
    ensures SplitAll(a, sep) == [a]
    decreases |a|
  {
    if |a| > 0 {
      SplitAllNoSep(a[1..], sep);
      assert [a[0]] + a[1..] == a;
    }
  }

  /** A separator-free prefix ending at a separator becomes the first piece. */
  lemma {:induction false} SplitAllCons(a: string, sep: char, b: string)
    requires sep !in a
    ensures SplitAll(a + [sep] + b, sep) == [a] + SplitAll(b, sep)
    decreases |a|
  {
    var s := a + [sep] + b;
    if |a| == 0 {
      assert s[1..] == b;
    } else {
      assert s[1..] == a[1..] + [sep] + b;
      SplitAllCons(a[1..], sep, b);
      assert [a[0]] + a[1..] == a;
    }
  }

  /** Splitting undoes joining when no piece holds the separator. */
  lemma {:induction false} SplitAllJoin(ps: seq<string>, sep: char)
    requires |ps| >= 1
    requires forall i :: 0 <= i < |ps| ==> sep !in ps[i]
    ensures SplitAll(Join(ps, [sep]), sep) == ps
  {
    if |ps| == 1 {
      SplitAllNoSep(ps[0], sep);
    } else {
      SplitAllJoin(ps[1..], sep);
      SplitAllCons(ps[0], sep, Join(ps[1..], [sep]));
      assert [ps[0]] + ps[1..] == ps;
    }
  }

  /**
   * Round trip: split recovers the pieces it was joined from, when there are at least two,
   * none holds the separator and the last is not empty (so no trailing piece is dropped).
   */
  lemma {:induction false} SplitJoin(ps: seq<string>, sep: char)
    requires |ps| >= 2 && ps[|ps| - 1] != ""
    requires forall i :: 0 <= i < |ps| ==> sep !in ps[i]
    ensures Split(Join(ps, [sep]), sep) == ps
  {
    SplitAllJoin(ps, sep);
    var s := Join(ps, [sep]);
    assert s == ps[0] + [sep] + Join(ps[1..], [sep]);
    assert s[|ps[0]|] == sep;
  }

  /** A separator at the end of the string adds no piece: split drops the trailing empty one. */
  lemma {:induction false} SplitJoinTrailing(ps: seq<string>, sep: char)
    requires |ps| >= 1 && ps[|ps| - 1] != ""
    requires forall i :: 0 <= i < |ps| ==> sep !in ps[i]
    ensures Split(Join(ps, [sep]) + [sep], sep) == ps
  {
    var all := ps + [""];
    assert Join(ps, [sep]) + [sep] == Join(all, [sep]) by {
      JoinAppend(ps, "", [sep]);
    }
    SplitAllJoin(all, sep);
    assert (Join(ps, [sep]) + [sep])[|Join(ps, [sep])|] == sep;
    assert all[..|all| - 1] == ps;
    assert DropTrailingEmpty(ps) == ps;
  }

  /** Appending a piece appends the separator and the piece. */
  lemma {:induction false} JoinAppend(ps: seq<string>, x: string, sep: string)
    requires |ps| >= 1
    ensures Join(ps + [x], sep) == Join(ps, sep) + sep + x
  {
    if |ps| == 1 {
      assert (ps + [x])[1..] == [x];
    } else {
      JoinAppend(ps[1..], x, sep);
      assert (ps + [x])[1..] == ps[1..] + [x];
    }
  }

  /** Join of six pieces is the six pieces concatenated with the separator between neighbours. */
  lemma JoinSix(ps: seq<string>, sep: string)
    requires |ps| == 6
    ensures Join(ps, sep) == ps[0] + sep + ps[1] + sep + ps[2] + sep + ps[3] + sep + ps[4] + sep + ps[5]
  {
    assert Join(ps[..1], sep) == ps[0];
    JoinAppend(ps[..1], ps[1], sep);
    assert ps[..1] + [ps[1]] == ps[..2];
    JoinAppend(ps[..2], ps[2], sep);
    assert ps[..2] + [ps[2]] == ps[..3];
    JoinAppend(ps[..3], ps[3], sep);
    assert ps[..3] + [ps[3]] == ps[..4];
    JoinAppend(ps[..4], ps[4], sep);
    assert ps[..4] + [ps[4]] == ps[..5];
    JoinAppend(ps[..5], ps[5], sep);
    assert ps[..5] + [ps[5]] == ps;
  }

  lemma RemoveCharSingle(c: char, x: char)
    ensures RemoveChar([c], x) == if c == x then "" else [c]
  {
    assert [c][1..] == "";
  }

  lemma {:induction false} RemoveCharConcat(a: string, b: string, c: char)
    ensures RemoveChar(a + b, c) == RemoveChar(a, c) + RemoveChar(b, c)
    decreases |a|
  {
    if |a| > 0 {
      assert (a + b)[1..] == a[1..] + b;
      RemoveCharConcat(a[1..], b, c);
    } else {
      assert a + b == b;
    }
  }

  lemma {:induction false} RemoveCharAbsent(s: string, c: char)
    requires c !in s
    ensures RemoveChar(s, c) == s
    decreases |s|
  {
    if |s| > 0 {
      RemoveCharAbsent(s[1..], c);
      assert [s[0]] + s[1..] == s;
    }
  }
}

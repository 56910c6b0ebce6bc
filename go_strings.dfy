/**
 * The parts of Go's `strings` and `path/filepath` packages that the launcher
 * relies on, with the properties the launcher's parsing depends on.
 * Strings are sequences of Unicode code points; the separators used here are
 * all ASCII, so splitting code points agrees with Go's splitting of UTF-8 bytes.
 */
module GoStrings {

  // ---------------------------------------------------------------- Split/Join

  /** strings.Split(s, string(sep)): the pieces between occurrences of `sep`; "" gives [""]. */
  function Split(s: string, sep: char): (r: seq<string>)
    ensures |r| >= 1
    decreases |s|
  {
    if s == [] then [""]
    else
      var rest := Split(s[1..], sep);
      if s[0] == sep then [""] + rest
      else [[s[0]] + rest[0]] + rest[1..]
  }

  /** strings.Join(elems, sep). */
  function Join(elems: seq<string>, sep: string): string
  {
    if elems == [] then ""
    else if |elems| == 1 then elems[0]
    else elems[0] + sep + Join(elems[1..], sep)
  }

  /** The number of occurrences of `c` in `s`. */
  function Count(s: string, c: char): nat
  {
    if s == [] then 0 else (if s[0] == c then 1 else 0) + Count(s[1..], c)
  }

  /** No piece of a split contains the separator. */
  lemma {:induction false} SplitPiecesFree(s: string, sep: char)
    ensures forall i :: 0 <= i < |Split(s, sep)| ==> sep !in Split(s, sep)[i]
    decreases |s|
  {
    if s != [] {
      SplitPiecesFree(s[1..], sep);
    }
  }

  /** Splitting yields one piece more than there are separators. */
  lemma {:induction false} SplitLength(s: string, sep: char)
    ensures |Split(s, sep)| == Count(s, sep) + 1
    decreases |s|
  {
    if s != [] {
      SplitLength(s[1..], sep);
    }
  }

  /** Joining the pieces back with the separator restores the string. */
  lemma {:induction false} JoinSplit(s: string, sep: char)
    ensures Join(Split(s, sep), [sep]) == s
    decreases |s|
  {
    if s != [] {
      var rest := Split(s[1..], sep);
      JoinSplit(s[1..], sep);
      if s[0] == sep {
        assert Split(s, sep) == [""] + rest;
        assert ([""] + rest)[1..] == rest;
      } else {
        var r := Split(s, sep);
        assert r == [[s[0]] + rest[0]] + rest[1..];
        if |rest| == 1 {
          assert r == [[s[0]] + rest[0]];
        } else {
          assert r[1..] == rest[1..];
          assert Join(rest, [sep]) == rest[0] + [sep] + Join(rest[1..], [sep]);
        }
      }
    }
  }

  /** A string free of the separator splits into itself alone. */
  lemma {:induction false} SplitNoSep(s: string, sep: char)
    requires sep !in s
    ensures Split(s, sep) == [s]
    decreases |s|
  {
    if s != [] {
      assert sep !in s[1..];
      SplitNoSep(s[1..], sep);
      assert s[0] != sep;
      assert [s[0]] + s[1..] == s;
    }
  }

  /** Splitting distributes over a separator placed between two strings. */
  lemma {:induction false} SplitConcat(a: string, b: string, sep: char)
    ensures Split(a + [sep] + b, sep) == Split(a, sep) + Split(b, sep)
    decreases |a|
  {
    var s := a + [sep] + b;
    if a == [] {
      assert s[0] == sep && s[1..] == b;
    } else {
      assert s[0] == a[0] && s[1..] == a[1..] + [sep] + b;
      SplitConcat(a[1..], b, sep);
      var ra := Split(a[1..], sep);
      if a[0] != sep {
        assert (ra + Split(b, sep))[0] == ra[0];
        assert (ra + Split(b, sep))[1..] == ra[1..] + Split(b, sep);
      }
    }
  }

  /** Splitting a join of separator-free pieces gives the pieces back. */
  lemma {:induction false} SplitJoin(elems: seq<string>, sep: char)
    requires |elems| >= 1
    requires forall i :: 0 <= i < |elems| ==> sep !in elems[i]
    ensures Split(Join(elems, [sep]), sep) == elems
    decreases |elems|
  {
    SplitNoSep(elems[0], sep);
    if |elems| > 1 {
      SplitJoin(elems[1..], sep);
      SplitConcat(elems[0], Join(elems[1..], [sep]), sep);
      assert [elems[0]] + elems[1..] == elems;
    }
  }

  // ---------------------------------------------------------------- HasPrefix

  /** strings.HasPrefix(s, prefix). */
  predicate HasPrefix(s: string, prefix: string)
  {
    |prefix| <= |s| && s[..|prefix|] == prefix
  }

  // ---------------------------------------------------------------- Fields

  /** unicode.IsSpace: the Latin-1 spaces and the other Unicode White_Space code points. */
  predicate IsSpace(c: char)
  {
    var n := c as int;
    n == 0x09 || n == 0x0A || n == 0x0B || n == 0x0C || n == 0x0D || n == 0x20
    || n == 0x85 || n == 0xA0 || n == 0x1680 || (0x2000 <= n <= 0x200A)
    || n == 0x2028 || n == 0x2029 || n == 0x202F || n == 0x205F || n == 0x3000
  }

  /** The pieces between single white-space characters (empty pieces kept). */
  function SplitSpaces(s: string): (r: seq<string>)
    ensures |r| >= 1
    decreases |s|
  {
    if s == [] then [""]
    else
      var rest := SplitSpaces(s[1..]);
      if IsSpace(s[0]) then [""] + rest
      else [[s[0]] + rest[0]] + rest[1..]
  }

  /** The non-empty strings of `ps`, in order. */
  function NonEmpty(ps: seq<string>): seq<string>
  {
    if ps == [] then []
    else if ps[0] == "" then NonEmpty(ps[1..])
    else [ps[0]] + NonEmpty(ps[1..])
  }

  /**
   * strings.Fields(s): the substrings of `s` around each run of one or more
   * white-space characters; empty when `s` is blank.
   */
  function Fields(s: string): seq<string>
  {
    NonEmpty(SplitSpaces(s))
  }

  /** The concatenation of a sequence of strings. */
  function Concat(ps: seq<string>): string
  {
    if ps == [] then "" else ps[0] + Concat(ps[1..])
  }

  /** The characters of `s` that are not white space, in order. */
  function NonSpace(s: string): string
  {
    if s == [] then "" else (if IsSpace(s[0]) then "" else [s[0]]) + NonSpace(s[1..])
  }

  predicate Blank(s: string)
  {
    forall i :: 0 <= i < |s| ==> IsSpace(s[i])
  }

  lemma {:induction false} SplitSpacesPieces(s: string)
    ensures forall i, j :: 0 <= i < |SplitSpaces(s)| && 0 <= j < |SplitSpaces(s)[i]| ==> !IsSpace(SplitSpaces(s)[i][j])
    ensures Concat(SplitSpaces(s)) == NonSpace(s)
    decreases |s|
  {
    if s != [] {
      SplitSpacesPieces(s[1..]);
      var rest := SplitSpaces(s[1..]);
      if IsSpace(s[0]) {
        assert ([""] + rest)[1..] == rest;
      } else {
        var r := SplitSpaces(s);
        assert r[0] == [s[0]] + rest[0] && r[1..] == rest[1..];
        assert Concat(rest) == rest[0] + Concat(rest[1..]);
        assert Concat(r) == r[0] + Concat(r[1..]);
      }
    }
  }

  /**
   * Dropping the empty pieces keeps only pieces of `ps`, none of them empty,
   * and loses no character.
   */
  lemma {:induction false} NonEmptyKeeps(ps: seq<string>)
    ensures forall i :: 0 <= i < |NonEmpty(ps)| ==> NonEmpty(ps)[i] != "" && NonEmpty(ps)[i] in ps
    ensures Concat(NonEmpty(ps)) == Concat(ps)
    decreases |ps|
  {
    if ps != [] {
      NonEmptyKeeps(ps[1..]);
      if ps[0] != "" {
        assert NonEmpty(ps)[1..] == NonEmpty(ps[1..]);
      }
    }
  }

  /** Dropping the empty pieces keeps the order: it distributes over concatenation. */
  lemma {:induction false} NonEmptyAppend(a: seq<string>, b: seq<string>)
    ensures NonEmpty(a + b) == NonEmpty(a) + NonEmpty(b)
    decreases |a|
  {
    if a != [] {
      assert (a + b)[0] == a[0];
      assert (a + b)[1..] == a[1..] + b;
      NonEmptyAppend(a[1..], b);
    } else {
      assert a + b == b;
    }
  }

  /** A sequence with no empty piece is left as it is. */
  lemma {:induction false} NonEmptyIdentity(ps: seq<string>)
    requires forall i :: 0 <= i < |ps| ==> ps[i] != ""
    ensures NonEmpty(ps) == ps
    decreases |ps|
  {
    if ps != [] {
      NonEmptyIdentity(ps[1..]);
    }
  }

  /**
   * Every field is non-empty and free of white space, and the fields together
   * hold exactly the non-space characters of `s`, in order.
   */
  lemma FieldsWellFormed(s: string)
    ensures forall i :: 0 <= i < |Fields(s)| ==> Fields(s)[i] != ""
    ensures forall i, j :: 0 <= i < |Fields(s)| && 0 <= j < |Fields(s)[i]| ==> !IsSpace(Fields(s)[i][j])
    ensures Concat(Fields(s)) == NonSpace(s)
  {
    SplitSpacesPieces(s);
    NonEmptyKeeps(SplitSpaces(s));
  }

  lemma {:induction false} NonSpaceEmpty(s: string)
    ensures NonSpace(s) == "" <==> Blank(s)
    decreases |s|
  {
    if s != [] {
      NonSpaceEmpty(s[1..]);
      if Blank(s) {
        assert Blank(s[1..]);
      }
    }
  }

  lemma ConcatNonEmpty(ps: seq<string>)
    requires ps != [] && ps[0] != ""
    ensures Concat(ps) != ""
  {
  }

  /** strings.Fields yields nothing exactly when the string is blank. */
  lemma FieldsEmptyIffBlank(s: string)
    ensures Fields(s) == [] <==> Blank(s)
  {
    FieldsWellFormed(s);
    NonSpaceEmpty(s);
    if Fields(s) != [] {
      ConcatNonEmpty(Fields(s));
    }
  }

  /** A string with no white space is one piece. */
  lemma {:induction false} SplitSpacesNoSpace(s: string)
    requires forall i :: 0 <= i < |s| ==> !IsSpace(s[i])
    ensures SplitSpaces(s) == [s]
    decreases |s|
  {
    if s != [] {
      SplitSpacesNoSpace(s[1..]);
      assert [s[0]] + s[1..] == s;
    }
  }

  /** Splitting at white space distributes over a white-space character placed between two strings. */
  lemma {:induction false} SplitSpacesConcat(a: string, c: char, b: string)
    requires IsSpace(c)
    ensures SplitSpaces(a + [c] + b) == SplitSpaces(a) + SplitSpaces(b)
    decreases |a|
  {
    var s := a + [c] + b;
    if a == [] {
      assert s[0] == c && s[1..] == b;
    } else {
      assert s[0] == a[0] && s[1..] == a[1..] + [c] + b;
      SplitSpacesConcat(a[1..], c, b);
      var ra := SplitSpaces(a[1..]);
      if !IsSpace(a[0]) {
        assert (ra + SplitSpaces(b))[0] == ra[0];
        assert (ra + SplitSpaces(b))[1..] == ra[1..] + SplitSpaces(b);
      }
    }
  }

  /** Fields undoes a join with single spaces of non-empty words without white space. */
  lemma {:induction false} FieldsJoin(ws: seq<string>)
    requires forall i :: 0 <= i < |ws| ==> ws[i] != ""
    requires forall i, j :: 0 <= i < |ws| && 0 <= j < |ws[i]| ==> !IsSpace(ws[i][j])
    ensures Fields(Join(ws, " ")) == ws
    decreases |ws|
  {
    if ws == [] {
      assert SplitSpaces("") == [""];
    } else {
      SplitSpacesNoSpace(ws[0]);
      assert NonEmpty([ws[0]]) == [ws[0]] by {
        assert [ws[0]][1..] == [];
      }
      if |ws| > 1 {
        FieldsJoin(ws[1..]);
        var rest := Join(ws[1..], " ");
        assert Join(ws, " ") == ws[0] + [' '] + rest;
        SplitSpacesConcat(ws[0], ' ', rest);
        NonEmptyAppend([ws[0]], SplitSpaces(rest));
        assert [ws[0]] + ws[1..] == ws;
      }
    }
  }

  // ---------------------------------------------------------------- filepath

  /**
   * filepath.Join(dir, name) for a clean directory and a single clean
   * element: the element placed under the directory with one separator.
   */
  function JoinPath(dir: string, name: string): (r: string)
    ensures HasPrefix(r, dir) && |r| >= |name|
    ensures r[|r| - |name|..] == name
  {
    if dir == "" then name
    else if dir[|dir| - 1] == '/' then dir + name
    else dir + "/" + name
  }
}

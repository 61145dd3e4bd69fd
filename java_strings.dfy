/**
 * The two java.lang.String operations the run mojo relies on:
 * trim() (used for its "blank" checks) and split(" ") (used to turn the
 * args parameter into an argument list).
 */
module JavaStrings {

  /** The separator given to String.split by the mojo. */
  const Space: char := ' '

  // ---------------------------------------------------------------------
  // String.trim()
  // ---------------------------------------------------------------------

  /** Drops every leading character whose code is at most U+0020. */
  function TrimLeading(s: string): string
  {
    if s != [] && s[0] <= ' ' then TrimLeading(s[1..]) else s
  }

  /** Drops every trailing character whose code is at most U+0020. */
  function TrimTrailing(s: string): string
  {
    if s != [] && s[|s| - 1] <= ' ' then TrimTrailing(s[..|s| - 1]) else s
  }

  /** String.trim(): the leading run is scanned first, then the trailing one. */
  function Trim(s: string): (r: string)
    ensures |r| <= |s|
    ensures r != [] ==> r[0] > ' ' && r[|r| - 1] > ' '
  {
    TrimLeadingKeepsSuffix(s);
    TrimTrailingKeepsPrefix(TrimLeading(s));
    TrimTrailing(TrimLeading(s))
  }

  /**
   * Blank: every character is a control character or a space. Lemma
   * BlankIffTrimEmpty proves this is exactly `s.trim().equals("")`, the
   * test the mojo applies to its paths.
   */
  predicate IsBlank(s: string)
  {
    forall i :: 0 <= i < |s| ==> s[i] <= ' '
  }

  /**
   * TrimLeading keeps a suffix of s: what it removes is at most U+0020
   * throughout, and what it keeps, if anything, starts above U+0020.
   */
  lemma {:induction false} TrimLeadingKeepsSuffix(s: string)
    ensures |TrimLeading(s)| <= |s| && TrimLeading(s) == s[|s| - |TrimLeading(s)|..]
    ensures forall i :: 0 <= i < |s| - |TrimLeading(s)| ==> s[i] <= ' '
    ensures TrimLeading(s) != [] ==> TrimLeading(s)[0] > ' '
  {
    if s != [] && s[0] <= ' ' {
      TrimLeadingKeepsSuffix(s[1..]);
      forall i | 0 <= i < |s| - |TrimLeading(s)| ensures s[i] <= ' ' {
        if i > 0 {
          assert s[i] == s[1..][i - 1];
        }
      }
    }
  }

  /**
   * TrimTrailing keeps a prefix of s: what it removes is at most U+0020
   * throughout, and what it keeps, if anything, ends above U+0020.
   */
  lemma {:induction false} TrimTrailingKeepsPrefix(s: string)
    ensures |TrimTrailing(s)| <= |s| && TrimTrailing(s) == s[..|TrimTrailing(s)|]
    ensures forall i :: |TrimTrailing(s)| <= i < |s| ==> s[i] <= ' '
    ensures TrimTrailing(s) != [] ==> TrimTrailing(s)[|TrimTrailing(s)| - 1] > ' '
  {
    if s != [] && s[|s| - 1] <= ' ' {
      TrimTrailingKeepsPrefix(s[..|s| - 1]);
    }
  }

  /** trim() leaves nothing exactly when every character is a control character or a space. */
  lemma BlankIffTrimEmpty(s: string)
    ensures IsBlank(s) <==> Trim(s) == ""
  {
    var t := TrimLeading(s);
    TrimLeadingKeepsSuffix(s);
    TrimTrailingKeepsPrefix(t);
    if t != [] {
      assert t[0] == s[|s| - |t|];
    }
  }

  // ---------------------------------------------------------------------
  // String.split(" ") with the default limit 0
  // ---------------------------------------------------------------------

  /** Every piece of s between two consecutive spaces, empty pieces included. */
  function Fields(s: string): (r: seq<string>)
    ensures |r| >= 1
    ensures forall i :: 0 <= i < |r| ==> Space !in r[i]
  {
    if s == [] then [[]]
    else
      var rest := Fields(s[1..]);
      if s[0] == Space then [[]] + rest
      else [[s[0]] + rest[0]] + rest[1..]
  }

  /** String.join(" ", parts): the inverse of Fields. */
  function Join(parts: seq<string>): string
  {
    if |parts| == 0 then ""
    else if |parts| == 1 then parts[0]
    else parts[0] + [Space] + Join(parts[1..])
  }

  /** Drops the empty strings at the end of a list, as split does when its limit is 0. */
  function DropTrailingEmpty(parts: seq<string>): (r: seq<string>)
    ensures |r| <= |parts| && r == parts[..|r|]
    ensures forall i :: |r| <= i < |parts| ==> parts[i] == ""
    ensures r != [] ==> r[|r| - 1] != ""
  {
    if parts != [] && parts[|parts| - 1] == "" then DropTrailingEmpty(parts[..|parts| - 1])
    else parts
  }

  /**
   * s.split(" "): when no space occurs, the one-element array holding s
   * (so "" gives [""]); otherwise the fields between single spaces with
   * the trailing empty ones removed (so " " gives []).
   */
  function Split(s: string): seq<string>
  {
    if Space !in s then [s] else DropTrailingEmpty(Fields(s))
  }

  /** Fields and Join are inverse: joining the fields gives back s. */
  lemma {:induction false} JoinFields(s: string)
    ensures Join(Fields(s)) == s
  {
    if s != [] {
      var rest := Fields(s[1..]);
      JoinFields(s[1..]);
      if s[0] == Space {
        assert ([[]] + rest)[1..] == rest;
      } else if |rest| == 1 {
        assert s == [s[0]] + s[1..];
      } else {
        var r := [[s[0]] + rest[0]] + rest[1..];
        assert r[1..] == rest[1..];
        assert Join(rest) == rest[0] + [Space] + Join(rest[1..]);
        assert s == [s[0]] + s[1..];
      }
    }
  }

  /** A piece without spaces is one field. */
  lemma {:induction false} FieldsOfWord(w: string)
    requires Space !in w
    ensures Fields(w) == [w]
  {
    if w != [] {
      FieldsOfWord(w[1..]);
      assert w == [w[0]] + w[1..];
    }
  }

  /** A space-free piece followed by a space starts a new field. */
  lemma {:induction false} FieldsOfWordThenSpace(w: string, t: string)
    requires Space !in w
    ensures Fields(w + [Space] + t) == [w] + Fields(t)
  {
    var s := w + [Space] + t;
    if w == [] {
      assert s[1..] == t;
    } else {
      assert s[1..] == w[1..] + [Space] + t;
      FieldsOfWordThenSpace(w[1..], t);
      assert w == [w[0]] + w[1..];
    }
  }

  /** The other direction of the round trip: Fields recovers space-free parts from their join. */
  lemma {:induction false} FieldsJoin(parts: seq<string>)
    requires |parts| >= 1
    requires forall i :: 0 <= i < |parts| ==> Space !in parts[i]
    ensures Fields(Join(parts)) == parts
  {
    if |parts| == 1 {
      FieldsOfWord(parts[0]);
    } else {
      FieldsJoin(parts[1..]);
      FieldsOfWordThenSpace(parts[0], Join(parts[1..]));
      assert parts == [parts[0]] + parts[1..];
    }
  }

  /** Nothing split returns contains the separator. */
  lemma SplitPiecesHaveNoSpace(s: string)
    ensures forall i :: 0 <= i < |Split(s)| ==> Space !in Split(s)[i]
  {
    if Space in s {
      var f := Fields(s);
      forall i | 0 <= i < |Split(s)| ensures Space !in Split(s)[i] {
        assert Split(s)[i] == f[i];
      }
    }
  }

  /**
   * Split keeps the fields of s in order and drops only empty trailing
   * ones: it is a prefix of Fields(s), whatever it leaves out is empty,
   * and its last element, if any, is not.
   */
  lemma SplitIsFieldsWithoutTrailingEmpty(s: string)
    requires Space in s
    ensures |Split(s)| <= |Fields(s)| && Split(s) == Fields(s)[..|Split(s)|]
    ensures forall i :: |Split(s)| <= i < |Fields(s)| ==> Fields(s)[i] == ""
    ensures Split(s) != [] ==> Split(s)[|Split(s)| - 1] != ""
  {
  }

  /**
   * Round trip of split against join: a list of space-free arguments
   * whose last element is not empty (or that has a single element)
   * comes back unchanged from splitting its join.
   */
  lemma {:induction false} SplitJoin(parts: seq<string>)
    requires |parts| >= 1
    requires forall i :: 0 <= i < |parts| ==> Space !in parts[i]
    requires |parts| > 1 ==> parts[|parts| - 1] != ""
    ensures Split(Join(parts)) == parts
  {
    if |parts| == 1 {
      assert Join(parts) == parts[0];
    } else {
      assert Join(parts) == parts[0] + [Space] + Join(parts[1..]);
      assert Join(parts)[|parts[0]|] == Space;
      FieldsJoin(parts);
    }
  }
}

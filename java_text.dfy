/** The few java.lang.String operations the container code relies on, with Java's own
    semantics: trim, toLowerCase, equalsIgnoreCase, contains, isEmpty and split(",").
    Case mapping is modelled on the ASCII letters only. */
module JavaText {

  /** Character.toLowerCase restricted to ASCII. */
  function LowerChar(c: char): char {
    if 'A' <= c <= 'Z' then (c as int + 32) as char else c
  }

  /** String.toLowerCase. */
  function Lower(s: string): (r: string)
    ensures |r| == |s|
    ensures forall i :: 0 <= i < |s| ==> r[i] == LowerChar(s[i])
  {
    if s == [] then [] else [LowerChar(s[0])] + Lower(s[1..])
  }

  lemma {:induction false} LowerIdempotent(s: string)
    ensures Lower(Lower(s)) == Lower(s)
  {
    var l := Lower(s);
    assert forall i :: 0 <= i < |l| ==> LowerChar(l[i]) == l[i];
  }

  /** String.equalsIgnoreCase: same length, each pair of characters equal up to case. */
  predicate EqualsIgnoreCase(a: string, b: string) {
    |a| == |b| && forall i :: 0 <= i < |a| ==> LowerChar(a[i]) == LowerChar(b[i])
  }

  lemma EqualsIgnoreCaseIsLowerEquality(a: string, b: string)
    ensures EqualsIgnoreCase(a, b) <==> Lower(a) == Lower(b)
  {
    if Lower(a) == Lower(b) {
      assert forall i :: 0 <= i < |a| ==> Lower(a)[i] == Lower(b)[i];
    }
  }

  /** The characters String.trim removes: every code point up to and including the space. */
  predicate IsTrimmed(c: char) {
    c <= ' '
  }

  function TrimStart(s: string): (r: string)
    ensures |r| <= |s| && r == s[|s| - |r|..]
    ensures r == [] || !IsTrimmed(r[0])
    ensures forall i :: 0 <= i < |s| - |r| ==> IsTrimmed(s[i])
  {
    if s != [] && IsTrimmed(s[0]) then
      var r := TrimStart(s[1..]);
      assert s[1..][|s| - 1 - |r|..] == s[|s| - |r|..];
      r
    else s
  }

  function TrimEnd(s: string): (r: string)
    ensures |r| <= |s| && r == s[..|r|]
    ensures r == [] || !IsTrimmed(r[|r| - 1])
    ensures forall i :: |r| <= i < |s| ==> IsTrimmed(s[i])
  {
    if s != [] && IsTrimmed(s[|s| - 1]) then
      var r := TrimEnd(s[..|s| - 1]);
      assert s[..|s| - 1][..|r|] == s[..|r|];
      r
    else s
  }

  /** String.trim: drop leading and trailing characters up to the space. */
  function Trim(s: string): (r: string)
    ensures r == [] || (!IsTrimmed(r[0]) && !IsTrimmed(r[|r| - 1]))
  {
    TrimEnd(TrimStart(s))
  }

  /** Trimming leaves nothing exactly when every character is trimmable. */
  lemma TrimEmptyIffAllTrimmed(s: string)
    ensures Trim(s) == [] <==> forall i :: 0 <= i < |s| ==> IsTrimmed(s[i])
  {
    var t := TrimStart(s);
    if Trim(s) == [] {
      // the start-trimmed rest is empty: it would start with a kept character, all trimmed
      assert TrimEnd(t) == [];
      assert t == [];
    } else {
      var r := Trim(s);
      assert r == t[..|r|];
      assert t[0] == r[0];
      assert s[|s| - |t|] == t[0];
    }
  }

  /** Every character of s is one trim removes (the empty string included). */
  predicate Blank(s: string) {
    forall i :: 0 <= i < |s| ==> IsTrimmed(s[i])
  }

  lemma {:induction false} TrimStartSkipsBlank(pad: string, s: string)
    requires Blank(pad)
    ensures TrimStart(pad + s) == TrimStart(s)
    decreases |pad|
  {
    if pad != [] {
      assert (pad + s)[0] == pad[0];
      assert (pad + s)[1..] == pad[1..] + s;
      TrimStartSkipsBlank(pad[1..], s);
    } else {
      assert pad + s == s;
    }
  }

  lemma {:induction false} TrimEndSkipsBlank(s: string, pad: string)
    requires Blank(pad)
    ensures TrimEnd(s + pad) == TrimEnd(s)
    decreases |pad|
  {
    if pad != [] {
      var q := pad[..|pad| - 1];
      assert (s + pad)[|s + pad| - 1] == pad[|pad| - 1];
      assert (s + pad)[..|s + pad| - 1] == s + q;
      TrimEndSkipsBlank(s, q);
    } else {
      assert s + pad == s;
    }
  }

  lemma {:induction false} TrimStartAppend(s: string, t: string)
    requires !Blank(s)
    ensures TrimStart(s + t) == TrimStart(s) + t
    decreases |s|
  {
    assert (s + t)[0] == s[0];
    if IsTrimmed(s[0]) {
      assert (s + t)[1..] == s[1..] + t;
      assert !Blank(s[1..]) by {
        var i :| 0 <= i < |s| && !IsTrimmed(s[i]);
        assert s[1..][i - 1] == s[i];
      }
      TrimStartAppend(s[1..], t);
    }
  }

  /** trim ignores blanks added on either side. */
  lemma TrimIgnoresPadding(left: string, s: string, right: string)
    requires Blank(left) && Blank(right)
    ensures Trim(left + s + right) == Trim(s)
  {
    assert left + s + right == left + (s + right);
    TrimStartSkipsBlank(left, s + right);
    if Blank(s) {
      TrimEmptyIffAllTrimmed(s);
      assert Blank(s + right) by {
        forall i | 0 <= i < |s + right| ensures IsTrimmed((s + right)[i]) {
          if i < |s| { assert (s + right)[i] == s[i]; } else { assert (s + right)[i] == right[i - |s|]; }
        }
      }
      TrimEmptyIffAllTrimmed(s + right);
    } else {
      TrimStartAppend(s, right);
      TrimEndSkipsBlank(TrimStart(s), right);
    }
  }

  lemma LowerAppend(a: string, b: string)
    ensures Lower(a + b) == Lower(a) + Lower(b)
  {
    assert forall i :: 0 <= i < |a + b| ==> Lower(a + b)[i] == (Lower(a) + Lower(b))[i];
  }

  /** toLowerCase leaves blanks alone. */
  lemma LowerOfBlank(pad: string)
    requires Blank(pad)
    ensures Lower(pad) == pad
  {
    assert forall i :: 0 <= i < |pad| ==> Lower(pad)[i] == pad[i];
  }

  /** Normalising with toLowerCase().trim() ignores case and blanks added on either side. */
  lemma NormalizeIgnoresCaseAndPadding(left: string, s: string, right: string)
    requires Blank(left) && Blank(right)
    ensures Trim(Lower(left + s + right)) == Trim(Lower(s))
    ensures Trim(Lower(Lower(s))) == Trim(Lower(s))
  {
    LowerAppend(left + s, right);
    LowerAppend(left, s);
    LowerOfBlank(left);
    LowerOfBlank(right);
    TrimIgnoresPadding(left, Lower(s), right);
    LowerIdempotent(s);
  }

  /** A string with no upper-case letter and nothing trimmable at either end is already in the
      form toLowerCase().trim() gives. */
  lemma NormalFormIsFixed(s: string)
    requires forall i :: 0 <= i < |s| ==> !('A' <= s[i] <= 'Z')
    requires s == [] || (!IsTrimmed(s[0]) && !IsTrimmed(s[|s| - 1]))
    ensures Trim(Lower(s)) == s
  {
    var l := Lower(s);
    assert forall i :: 0 <= i < |s| ==> l[i] == s[i];
    assert l == s;
    assert TrimStart(s) == s;
    assert TrimEnd(s) == s;
  }

  /** A word in normal form, padded with blanks, normalises back to the word. */
  lemma PaddedNormalForm(left: string, s: string, right: string)
    requires Blank(left) && Blank(right)
    requires forall i :: 0 <= i < |s| ==> !('A' <= s[i] <= 'Z')
    requires s == [] || (!IsTrimmed(s[0]) && !IsTrimmed(s[|s| - 1]))
    ensures Trim(Lower(left + s + right)) == s
  {
    NormalizeIgnoresCaseAndPadding(left, s, right);
    NormalFormIsFixed(s);
  }

  /** A string starting with a blank never equals, ignoring case, a word starting with a
      visible character. */
  lemma BlankStartDiffers(word: string, s: string)
    requires word != [] && !IsTrimmed(word[0])
    requires s != [] && IsTrimmed(s[0])
    ensures !EqualsIgnoreCase(word, s)
  {
    assert LowerChar(s[0]) == s[0];
    assert LowerChar(word[0]) != LowerChar(s[0]);
  }

  /** String.contains: some window of s equals sub. */
  predicate ContainsAt(s: string, sub: string, i: nat) {
    i + |sub| <= |s| && s[i..i + |sub|] == sub
  }

  function Contains(s: string, sub: string): (r: bool)
    ensures r <==> exists i: nat :: ContainsAt(s, sub, i)
    decreases |s|
  {
    if |sub| > |s| then false
    else if s[..|sub|] == sub then (assert ContainsAt(s, sub, 0); true)
    else (WindowsShift(s, sub); Contains(s[1..], sub))
  }

  /** Past a non-matching first window, the windows of s are those of its tail. */
  lemma WindowsShift(s: string, sub: string)
    requires s != [] && !ContainsAt(s, sub, 0)
    ensures (exists i: nat :: ContainsAt(s, sub, i)) <==> (exists j: nat :: ContainsAt(s[1..], sub, j))
  {
    if i: nat :| ContainsAt(s, sub, i) {
      assert i != 0;
      var j: nat := i - 1;
      assert s[1..][j..j + |sub|] == s[i..i + |sub|];
      assert ContainsAt(s[1..], sub, j);
    }
    if j: nat :| ContainsAt(s[1..], sub, j) {
      assert s[1..][j..j + |sub|] == s[j + 1..j + 1 + |sub|];
      assert ContainsAt(s, sub, j + 1);
    }
  }

  /* ---- String.split(",") ---- */

  /** All comma-separated pieces of s, empty ones included (split with a negative limit). */
  function Segments(s: string): (r: seq<string>)
    ensures |r| >= 1
    decreases |s|
  {
    if s == [] then [""]
    else
      var rest := Segments(s[1..]);
      if s[0] == ',' then [""] + rest else [[s[0]] + rest[0]] + rest[1..]
  }

  /** Joins pieces with commas: the inverse of Segments. */
  function Join(pieces: seq<string>): (r: string)
    requires |pieces| >= 1
    decreases |pieces|
  {
    if |pieces| == 1 then pieces[0] else pieces[0] + "," + Join(pieces[1..])
  }

  predicate CommaFree(s: string) {
    forall i :: 0 <= i < |s| ==> s[i] != ','
  }

  /** Splitting then joining gives the string back, and no piece holds a comma. */
  lemma {:induction false} JoinSegments(s: string)
    ensures Join(Segments(s)) == s
    ensures forall k :: 0 <= k < |Segments(s)| ==> CommaFree(Segments(s)[k])
    decreases |s|
  {
    if s != [] {
      JoinSegments(s[1..]);
      var rest := Segments(s[1..]);
      if s[0] == ',' {
        assert Segments(s)[1..] == rest;
        assert s == [','] + s[1..];
      } else {
        var r := Segments(s);
        assert r[0] == [s[0]] + rest[0];
        if |rest| == 1 {
          assert s == [s[0]] + rest[0];
        } else {
          assert r[1..] == rest[1..];
          assert Join(rest) == rest[0] + "," + Join(rest[1..]);
          assert s == [s[0]] + s[1..];
        }
        forall k | 0 <= k < |r| ensures CommaFree(r[k]) {
          if k > 0 { assert r[k] == rest[k]; }
        }
      }
    }
  }

  /** The converse direction: comma-free pieces joined with commas split back into themselves. */
  lemma {:induction false} SegmentsJoin(pieces: seq<string>)
    requires |pieces| >= 1
    requires forall k :: 0 <= k < |pieces| ==> CommaFree(pieces[k])
    ensures Segments(Join(pieces)) == pieces
    decreases |pieces|, |pieces[0]|
  {
    var p := pieces[0];
    if |pieces| == 1 {
      SegmentsOfCommaFree(p);
    } else if p == [] {
      var j := Join(pieces[1..]);
      SegmentsJoin(pieces[1..]);
      assert Join(pieces) == [','] + j;
      assert Join(pieces)[1..] == j;
    } else {
      var tail := [p[1..]] + pieces[1..];
      assert tail[1..] == pieces[1..];
      SegmentsJoin(tail);
      assert Join(pieces) == [p[0]] + Join(tail);
      assert Join(pieces)[1..] == Join(tail);
      assert [p[0]] + p[1..] == p;
    }
  }

  lemma {:induction false} SegmentsOfCommaFree(s: string)
    requires CommaFree(s)
    ensures Segments(s) == [s]
    decreases |s|
  {
    if s != [] {
      SegmentsOfCommaFree(s[1..]);
      assert [s[0]] + s[1..] == s;
    }
  }

  /** Removes the empty strings at the end of a list of pieces. */
  function DropTrailingEmpty(pieces: seq<string>): (r: seq<string>)
    ensures |r| <= |pieces| && r == pieces[..|r|]
    ensures r == [] || r[|r| - 1] != ""
    ensures forall k :: |r| <= k < |pieces| ==> pieces[k] == ""
  {
    if pieces != [] && pieces[|pieces| - 1] == "" then DropTrailingEmpty(pieces[..|pieces| - 1]) else pieces
  }

  /** String.split(","): a string without a comma is its own single piece (even ""); otherwise the
      pieces between commas, with trailing empty pieces removed. Nothing is trimmed and empty
      pieces in the middle are kept. */
  function JavaSplit(s: string): (r: seq<string>)
    ensures CommaFree(s) ==> r == [s]
    ensures !CommaFree(s) ==> r == [] || r[|r| - 1] != ""
  {
    if CommaFree(s) then (SegmentsOfCommaFree(s); [s]) else DropTrailingEmpty(Segments(s))
  }

  /** The pieces of split(",") are, in order, the comma-free pieces of the string, and the only
      pieces lost are empty ones at the end. */
  lemma JavaSplitPieces(s: string)
    ensures |JavaSplit(s)| <= |Segments(s)| && JavaSplit(s) == Segments(s)[..|JavaSplit(s)|]
    ensures forall k :: |JavaSplit(s)| <= k < |Segments(s)| ==> Segments(s)[k] == ""
    ensures forall k :: 0 <= k < |JavaSplit(s)| ==> CommaFree(JavaSplit(s)[k])
  {
    JoinSegments(s);
    if CommaFree(s) { SegmentsOfCommaFree(s); }
  }

  /** What split(",") makes of the extension list " hstore, , pgcrypto ": the blank middle piece
      and the surrounding spaces survive. */
  lemma SplitKeepsBlankPieces()
    ensures JavaSplit(" hstore, , pgcrypto ") == [" hstore", " ", " pgcrypto "]
  {
    var pieces := [" hstore", " ", " pgcrypto "];
    var s := " hstore, , pgcrypto ";
    assert Join(pieces) == s;
    assert !CommaFree(s) by { assert s[7] == ','; }
    SegmentsJoin(pieces);
  }

  /** split(",") of the empty string is one empty piece. */
  lemma SplitOfEmpty()
    ensures JavaSplit("") == [""]
  {
  }

  /** A list made only of commas splits into no pieces at all. */
  lemma SplitOfComma()
    ensures JavaSplit(",") == []
  {
    assert Segments(",") == ["", ""] by { assert ","[1..] == ""; }
    assert !CommaFree(",") by { assert ","[0] == ','; }
  }
}

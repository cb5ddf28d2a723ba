/** The parts of Go's `strings` package that the command line relies on. */
module GoStrings {

  /** unicode.IsSpace. */
  predicate IsSpace(c: char) {
    || '\U{9}' <= c <= '\r'
    || c in {' ', '\U{85}', '\U{a0}', '\U{1680}', '\U{2028}', '\U{2029}', '\U{202f}', '\U{205f}', '\U{3000}'}
    || '\U{2000}' <= c <= '\U{200a}'
  }

  predicate IsSlash(c: char) {
    c == '/'
  }

  predicate IsSpaceOrSlash(c: char) {
    IsSpace(c) || IsSlash(c)
  }

  function TrimLeft(s: string, cut: char -> bool): string {
    if s != "" && cut(s[0]) then TrimLeft(s[1..], cut) else s
  }

  function TrimRight(s: string, cut: char -> bool): string {
    if s != "" && cut(s[|s| - 1]) then TrimRight(s[..|s| - 1], cut) else s
  }

  /** strings.TrimSpace. */
  function TrimSpace(s: string): string {
    TrimRight(TrimLeft(s, IsSpace), IsSpace)
  }

  /** strings.TrimRight(s, "/"). */
  function TrimSlashes(s: string): string {
    TrimRight(s, IsSlash)
  }

  predicate Blank(s: string) {
    TrimSpace(s) == ""
  }

  /** The first value that is not blank, trimmed; "" when all are blank. */
  function FirstNonEmpty(values: seq<string>): string {
    if values == [] then ""
    else if !Blank(values[0]) then TrimSpace(values[0])
    else FirstNonEmpty(values[1..])
  }

  // A trimmed string has nothing left to trim at the end it was trimmed at.
  lemma {:induction false} TrimLeftHead(s: string, cut: char -> bool)
    ensures TrimLeft(s, cut) != "" ==> !cut(TrimLeft(s, cut)[0])
  {
    if s != "" && cut(s[0]) {
      TrimLeftHead(s[1..], cut);
    }
  }

  // Trimming on the right keeps a prefix, so it keeps the first character of what it leaves.
  lemma {:induction false} TrimRightPrefix(s: string, cut: char -> bool)
    ensures TrimRight(s, cut) <= s
  {
    if s != "" && cut(s[|s| - 1]) {
      TrimRightPrefix(s[..|s| - 1], cut);
    }
  }

  // Removing fewer characters first does not change what removing more of them leaves.
  lemma {:induction false} TrimRightAbsorbs(s: string, few: char -> bool, many: char -> bool)
    requires forall c :: few(c) ==> many(c)
    ensures TrimRight(TrimRight(s, few), many) == TrimRight(s, many)
  {
    if s != "" && few(s[|s| - 1]) {
      TrimRightAbsorbs(s[..|s| - 1], few, many);
    }
  }

  lemma {:induction false} TrimLeftFixed(s: string, cut: char -> bool)
    requires s == "" || !cut(s[0])
    ensures TrimLeft(s, cut) == s
  {
  }

  // The two ends are trimmed independently.
  lemma {:induction false} TrimCommutes(s: string, left: char -> bool, right: char -> bool)
    requires forall c :: left(c) ==> right(c)
    ensures TrimLeft(TrimRight(s, right), left) == TrimRight(TrimLeft(s, left), right)
  {
    if s != "" && right(s[|s| - 1]) {
      var init := s[..|s| - 1];
      TrimCommutes(init, left, right);
      TrimLeftSnoc(init, s[|s| - 1], left);
      var rest := TrimLeft(init, left);
      if rest != "" {
        assert (rest + [s[|s| - 1]])[..|rest|] == rest;
        assert s == init + [s[|s| - 1]];
      } else {
        assert s == init + [s[|s| - 1]];
      }
    } else if s != "" {
      TrimLeftLast(s, left);
    }
  }

  lemma {:induction false} TrimLeftSnoc(s: string, c: char, cut: char -> bool)
    ensures TrimLeft(s + [c], cut) ==
            if TrimLeft(s, cut) != "" then TrimLeft(s, cut) + [c] else if cut(c) then "" else [c]
  {
    if s == "" {
      assert s + [c] == [c];
      assert [c][1..] == "";
    } else if cut(s[0]) {
      TrimLeftSnoc(s[1..], c, cut);
      assert (s + [c])[1..] == s[1..] + [c];
    }
  }

  lemma {:induction false} TrimLeftLast(s: string, cut: char -> bool)
    requires s != "" && !cut(s[|s| - 1])
    ensures TrimLeft(s, cut) != "" && TrimLeft(s, cut)[|TrimLeft(s, cut)| - 1] == s[|s| - 1]
  {
    if cut(s[0]) {
      TrimLeftLast(s[1..], cut);
    }
  }

  // What trimming on the left removes is characters of the cut set, up to the first other one.
  lemma {:induction false} TrimLeftMeaning(s: string, cut: char -> bool) returns (n: nat)
    ensures n <= |s| && TrimLeft(s, cut) == s[n..]
    ensures (forall i :: 0 <= i < n ==> cut(s[i])) && (n < |s| ==> !cut(s[n]))
  {
    if s != "" && cut(s[0]) {
      var rest := TrimLeftMeaning(s[1..], cut);
      n := rest + 1;
      forall i | 0 <= i < n
        ensures cut(s[i])
      {
        if i > 0 {
          assert s[1..][i - 1] == s[i];
        }
      }
    } else {
      n := 0;
    }
  }

  lemma {:induction false} TrimRightMeaning(s: string, cut: char -> bool) returns (n: nat)
    ensures n <= |s| && TrimRight(s, cut) == s[..n]
    ensures (forall i :: n <= i < |s| ==> cut(s[i])) && (n > 0 ==> !cut(s[n - 1]))
  {
    if s != "" && cut(s[|s| - 1]) {
      n := TrimRightMeaning(s[..|s| - 1], cut);
      assert s[..|s| - 1][..n] == s[..n];
      forall i | n <= i < |s|
        ensures cut(s[i])
      {
        if i < |s| - 1 {
          assert s[..|s| - 1][i] == s[i];
        }
      }
    } else {
      n := |s|;
    }
  }

  // TrimSpace leaves the part of a string between the first and the last character that is no
  // space, and nothing of a string of spaces.
  lemma TrimSpaceMeaning(s: string) returns (from: nat, to: nat)
    ensures from <= to <= |s| && TrimSpace(s) == s[from..to]
    ensures forall i :: 0 <= i < from || to <= i < |s| ==> IsSpace(s[i])
    ensures from < to ==> !IsSpace(s[from]) && !IsSpace(s[to - 1])
  {
    from := TrimLeftMeaning(s, IsSpace);
    var left := s[from..];
    var n := TrimRightMeaning(left, IsSpace);
    to := from + n;
    assert left[..n] == s[from..to];
    forall i | to <= i < |s|
      ensures IsSpace(s[i])
    {
      assert left[i - from] == s[i];
    }
    if from < to {
      assert left[n - 1] == s[to - 1];
      assert from < |s| && !IsSpace(s[from]);
    }
  }

  // TrimSlashes leaves what comes before the slashes at the end.
  lemma TrimSlashesMeaning(s: string) returns (n: nat)
    ensures n <= |s| && TrimSlashes(s) == s[..n]
    ensures (forall i :: n <= i < |s| ==> s[i] == '/') && (n > 0 ==> s[n - 1] != '/')
  {
    n := TrimRightMeaning(s, IsSlash);
  }

  /** The value at `i` is the first that is more than space. */
  predicate FirstNonBlank(values: seq<string>, i: nat) {
    i < |values| && TrimSpace(values[i]) != "" && forall j :: 0 <= j < i ==> TrimSpace(values[j]) == ""
  }

  // FirstNonEmpty gives the first value that is more than space, trimmed.
  lemma {:induction false} FirstNonEmptyMeaning(values: seq<string>)
    ensures (forall i :: 0 <= i < |values| ==> TrimSpace(values[i]) == "") ==> FirstNonEmpty(values) == ""
    ensures forall i :: 0 <= i && FirstNonBlank(values, i) ==> FirstNonEmpty(values) == TrimSpace(values[i])
  {
    if values != [] && Blank(values[0]) {
      FirstNonEmptyMeaning(values[1..]);
      forall i | 0 <= i && FirstNonBlank(values, i)
        ensures FirstNonEmpty(values) == TrimSpace(values[i])
      {
        assert values[1..][i - 1] == values[i];
        assert FirstNonBlank(values[1..], i - 1);
      }
      if forall i :: 0 <= i < |values| ==> TrimSpace(values[i]) == "" {
        assert forall i :: 0 <= i < |values| - 1 ==> TrimSpace(values[1..][i]) == "";
      }
    }
  }

  // Trimming space twice is trimming it once.
  lemma TrimSpaceIdempotent(s: string)
    ensures TrimSpace(TrimSpace(s)) == TrimSpace(s)
  {
    var left := TrimLeft(s, IsSpace);
    TrimLeftHead(s, IsSpace);
    TrimRightPrefix(left, IsSpace);
    TrimLeftFixed(TrimSpace(s), IsSpace);
    TrimRightAbsorbs(left, IsSpace, IsSpace);
  }

  lemma FirstOfTwo(a: string, b: string)
    ensures FirstNonEmpty([a, b]) == if !Blank(a) then TrimSpace(a) else if !Blank(b) then TrimSpace(b) else ""
  {
    assert [a, b][1..] == [b];
    assert [b][1..] == [];
    assert FirstNonEmpty([b]) == if !Blank(b) then TrimSpace(b) else FirstNonEmpty([]);
  }

  lemma UnspacedStays(s: string)
    requires s != "" && !IsSpace(s[0]) && !IsSpace(s[|s| - 1])
    ensures TrimSpace(s) == s
  {
    TrimLeftFixed(s, IsSpace);
  }

  // FirstNonEmpty answers "" exactly when every value is blank.
  lemma {:induction false} FirstNonEmptyBlank(values: seq<string>)
    ensures Blank(FirstNonEmpty(values)) <==> forall i :: 0 <= i < |values| ==> Blank(values[i])
    ensures FirstNonEmpty(values) == "" <==> Blank(FirstNonEmpty(values))
  {
    if values != [] {
      TrimSpaceIdempotent(values[0]);
      FirstNonEmptyBlank(values[1..]);
      if Blank(values[0]) {
        assert forall i :: 1 <= i < |values| ==> values[i] == values[1..][i - 1];
        assert forall i :: 0 <= i < |values| - 1 ==> values[1..][i] == values[i + 1];
      }
    }
  }
}

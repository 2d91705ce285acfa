/** Turning a URL slug into a human-readable company name
    (`slug_to_name`): every run of characters other than ASCII letters and
    digits becomes one space, the ends are trimmed, and each word is
    capitalised. */
module Names {
  import opened Text

  /** Only ASCII letters, digits and single spaces between them. */
  predicate WellSpaced(n: string) {
    && (forall i :: 0 <= i < |n| ==> WellSpacedAt(n, i))
    && (n == [] || (n[0] != ' ' && n[|n| - 1] != ' '))
  }

  /** The character at `i` is a letter, a digit or a space, and it and the
      next one are not both spaces. */
  predicate WellSpacedAt(n: string, i: nat)
    requires i < |n|
  {
    && (IsAlnum(n[i]) || n[i] == ' ')
    && (i + 1 < |n| ==> !(n[i] == ' ' && n[i + 1] == ' '))
  }

  predicate StartsWord(n: string, i: nat)
    requires i < |n|
  {
    i == 0 || n[i - 1] == ' '
  }

  /** A letter at `i` is upper case exactly when it begins a word. */
  predicate TitleAt(n: string, i: nat)
    requires i < |n|
  {
    IsLetter(n[i]) ==> (IsUpper(n[i]) <==> StartsWord(n, i))
  }

  predicate TitleCased(n: string) {
    forall i :: 0 <= i < |n| ==> TitleAt(n, i)
  }

  predicate AllAlnum(w: string) {
    forall i :: 0 <= i < |w| ==> IsAlnum(w[i])
  }

  /** A capitalised word: letters and digits, a letter upper case only in
      front. */
  predicate CapWord(c: string) {
    c != [] && AllAlnum(c) && TitleCased(c)
  }

  function CapitalizeAll(ws: seq<string>): seq<string> {
    seq(|ws|, k requires 0 <= k < |ws| => Capitalize(ws[k]))
  }

  /** The slug with each run of non-alphanumerics replaced by one space and
      the ends trimmed: the name before capitalisation. */
  function Spaced(slug: string): string {
    Strip(ReplaceRuns(slug, NonAlnum))
  }

  /** `slug_to_name`: the result is made of capitalised words of letters and
      digits separated by single spaces, and apart from letter case it is
      the spaced-out slug. */
  function SlugToName(slug: string): (r: string)
    ensures WellSpaced(r) && TitleCased(r)
    ensures Lower(r) == Lower(Spaced(slug))
  {
    var n := Spaced(slug);
    SpacedIsWellSpaced(slug);
    SplitJoinWellSpaced(n);
    SplitWellSpacedAlnum(n);
    var ws := SplitWs(n);
    JoinCapitalizedShape(ws);
    LowerJoinCapitalized(ws);
    JoinWith(CapitalizeAll(ws), " ")
  }

  lemma SpacedIsWellSpaced(slug: string)
    ensures WellSpaced(Spaced(slug))
  {
    var t := ReplaceRuns(slug, NonAlnum);
    var n := Strip(t);
    var a := LeadingSpaces(t);
    assert n == t[a..a + |n|];
    SliceSingleSpaced(t, NonAlnum, a, a + |n|);
    SingleSpacedIsWellSpaced(n);
  }

  lemma SingleSpacedIsWellSpaced(n: string)
    requires SingleSpaced(n, NonAlnum) && IsStripped(n)
    ensures WellSpaced(n)
  {
    forall i | 0 <= i < |n| ensures WellSpacedAt(n, i) {
      assert SpacedAt(n, NonAlnum, i);
    }
  }

  lemma WordIsAlnum(n: string)
    requires WellSpaced(n)
    ensures AllAlnum(n[..WordLength(n)])
  {
    var m := WordLength(n);
    forall i | 0 <= i < m ensures IsAlnum(n[..m][i]) {
      assert !IsSpace(n[i]) && WellSpacedAt(n, i);
    }
  }

  /** After a space inside a well-spaced text comes a well-spaced text. */
  lemma RestIsWellSpaced(n: string, m: nat)
    requires WellSpaced(n) && m < |n| && n[m] == ' '
    ensures m + 1 < |n| && WellSpaced(n[m + 1..])
  {
    var rest := n[m + 1..];
    assert WellSpacedAt(n, m);
    forall i | 0 <= i < |rest| ensures WellSpacedAt(rest, i) {
      assert WellSpacedAt(n, m + 1 + i);
      assert rest[i] == n[m + 1 + i];
      if i + 1 < |rest| { assert rest[i + 1] == n[m + 2 + i]; }
    }
  }

  /** One step of splitting a well-spaced text: its first word, then
      either nothing or one space and a well-spaced rest. */
  lemma SplitWellSpacedStep(n: string) returns (m: nat)
    requires WellSpaced(n) && n != []
    ensures 0 < m <= |n| && AllAlnum(n[..m])
    ensures m == |n| ==> SplitWs(n) == [n]
    ensures m < |n| ==> m + 1 < |n| && n == n[..m] + " " + n[m + 1..] && WellSpaced(n[m + 1..])
    ensures m < |n| ==> SplitWs(n) == [n[..m]] + SplitWs(n[m + 1..]) && SplitWs(n[m + 1..]) != []
  {
    m := WordLength(n);
    assert WellSpacedAt(n, 0);
    WordIsAlnum(n);
    if m == |n| {
      assert n[m..] == [];
      assert n[..m] == n;
    } else {
      assert WellSpacedAt(n, m);
      RestIsWellSpaced(n, m);
      SplitAfterSpace(n, m);
    }
  }

  lemma SplitAfterSpace(n: string, m: nat)
    requires m + 1 < |n| && n[m] == ' ' && WellSpaced(n[m + 1..])
    ensures n == n[..m] + " " + n[m + 1..]
    ensures SplitWs(n[m..]) == SplitWs(n[m + 1..]) != []
  {
    var rest := n[m + 1..];
    assert n[m..][1..] == rest;
    assert WellSpacedAt(rest, 0);
    assert n == n[..m] + [n[m]] + rest;
  }

  /** A well-spaced text splits into words that join back into it. */
  lemma {:induction false} SplitJoinWellSpaced(n: string)
    requires WellSpaced(n)
    ensures JoinWith(SplitWs(n), " ") == n
    decreases |n|
  {
    if n != [] {
      var m := SplitWellSpacedStep(n);
      if m < |n| {
        var rest := n[m + 1..];
        SplitJoinWellSpaced(rest);
        JoinCons(n[..m], SplitWs(rest), " ");
      }
    } else {
      assert SplitWs(n) == [];
    }
  }

  /** The words of a well-spaced text are made of letters and digits. */
  lemma {:induction false} SplitWellSpacedAlnum(n: string)
    requires WellSpaced(n)
    ensures forall k :: 0 <= k < |SplitWs(n)| ==> AllAlnum(SplitWs(n)[k])
    decreases |n|
  {
    if n != [] {
      var m := SplitWellSpacedStep(n);
      if m < |n| {
        SplitWellSpacedAlnum(n[m + 1..]);
      }
    } else {
      assert SplitWs(n) == [];
    }
  }

  lemma CapitalizeWord(w: string)
    requires w != [] && AllAlnum(w)
    ensures CapWord(Capitalize(w))
  {
  }

  lemma WordIsWellSpaced(c: string)
    requires CapWord(c)
    ensures WellSpaced(c)
  {
  }

  lemma ConcatWords(c: string, j: string)
    requires CapWord(c) && j != [] && WellSpaced(j) && TitleCased(j)
    ensures WellSpaced(c + " " + j) && TitleCased(c + " " + j)
  {
    var r := c + " " + j;
    assert forall i :: 0 <= i < |c| ==> r[i] == c[i];
    assert r[|c|] == ' ';
    assert forall i :: |c| < i < |r| ==> r[i] == j[i - |c| - 1];
    forall i | 0 <= i < |r| ensures WellSpacedAt(r, i) && TitleAt(r, i) {
      if i > |c| {
        var k := i - |c| - 1;
        assert WellSpacedAt(j, k) && TitleAt(j, k);
        if k > 0 { assert r[i - 1] == j[k - 1]; }
      } else if i < |c| {
        assert TitleAt(c, i) && IsAlnum(c[i]);
        if i > 0 { assert r[i - 1] == c[i - 1] && IsAlnum(c[i - 1]); }
      } else {
        assert r[i + 1] == j[0];
      }
    }
  }

  /** Joining capitalised words of letters and digits with single spaces
      gives a well-spaced, title-cased text. */
  lemma {:induction false} JoinCapitalizedShape(ws: seq<string>)
    requires forall k :: 0 <= k < |ws| ==> ws[k] != [] && AllAlnum(ws[k])
    ensures WellSpaced(JoinWith(CapitalizeAll(ws), " "))
    ensures TitleCased(JoinWith(CapitalizeAll(ws), " "))
    ensures ws != [] ==> JoinWith(CapitalizeAll(ws), " ") != []
  {
    var cs := CapitalizeAll(ws);
    if |ws| == 1 {
      CapitalizeWord(ws[0]);
      WordIsWellSpaced(cs[0]);
    } else if |ws| > 1 {
      CapitalizeWord(ws[0]);
      JoinCapitalizedShape(ws[1..]);
      assert cs[1..] == CapitalizeAll(ws[1..]);
      ConcatWords(cs[0], JoinWith(cs[1..], " "));
    }
  }

  /** Capitalising words changes nothing but letter case. */
  lemma {:induction false} LowerJoinCapitalized(ws: seq<string>)
    ensures Lower(JoinWith(CapitalizeAll(ws), " ")) == Lower(JoinWith(ws, " "))
  {
    var cs := CapitalizeAll(ws);
    if |ws| == 1 {
      LowerCapitalize(ws[0]);
    } else if |ws| > 1 {
      LowerJoinCapitalized(ws[1..]);
      assert cs[1..] == CapitalizeAll(ws[1..]);
      var jc, jw := JoinWith(cs[1..], " "), JoinWith(ws[1..], " ");
      LowerConcat(cs[0] + " ", jc);
      LowerConcat(cs[0], " ");
      LowerConcat(ws[0] + " ", jw);
      LowerConcat(ws[0], " ");
      LowerCapitalize(ws[0]);
    }
  }
}

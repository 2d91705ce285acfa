/** String primitives the pipeline is built from, over `seq<char>`:
    Python's whitespace test, ASCII case mapping, `capitalize`, `strip`,
    the `in` substring test, `split()` / `split(sep)` / `join`, and the
    run-replacing substitutions used to clean values and slugs. */
module Text {

  datatype Option<T> = None | Some(value: T)

  /** The characters Python's `str.isspace` accepts (and `\s` matches in a
      `str` pattern). */
  predicate IsSpace(c: char) {
    || c == ' '
    || '\t' <= c <= '\r'
    || '\U{1C}' <= c <= '\U{1F}'
    || c == '\U{85}' || c == '\U{A0}' || c == '\U{1680}'
    || '\U{2000}' <= c <= '\U{200A}'
    || c == '\U{2028}' || c == '\U{2029}' || c == '\U{202F}'
    || c == '\U{205F}' || c == '\U{3000}'
  }

  predicate IsUpper(c: char) { 'A' <= c <= 'Z' }
  predicate IsLower(c: char) { 'a' <= c <= 'z' }
  predicate IsLetter(c: char) { IsUpper(c) || IsLower(c) }
  predicate IsDigit(c: char) { '0' <= c <= '9' }
  predicate IsAlnum(c: char) { IsLetter(c) || IsDigit(c) }

  function LowerChar(c: char): char {
    if IsUpper(c) then (c as int + 32) as char else c
  }

  function UpperChar(c: char): char {
    if IsLower(c) then (c as int - 32) as char else c
  }

  /** `str.lower()` on ASCII letters. */
  function Lower(s: string): string {
    seq(|s|, i requires 0 <= i < |s| => LowerChar(s[i]))
  }

  /** `str.capitalize()`: first character upper case, the rest lower case. */
  function Capitalize(s: string): string {
    if s == [] then [] else [UpperChar(s[0])] + Lower(s[1..])
  }

  /** `sub` occurs in `text` starting at index `i`. */
  predicate OccursAt(text: string, sub: string, i: nat) {
    i + |sub| <= |text| && text[i..i + |sub|] == sub
  }

  /** Python's `sub in text`. */
  predicate Contains(text: string, sub: string) {
    exists i :: 0 <= i <= |text| && OccursAt(text, sub, i)
  }

  lemma LowerConcat(a: string, b: string)
    ensures Lower(a + b) == Lower(a) + Lower(b)
  {
  }

  lemma LowerCapitalize(w: string)
    ensures Lower(Capitalize(w)) == Lower(w)
  {
  }

  // ---------------------------------------------------------------- strip

  /** Number of whitespace characters at the front. */
  function LeadingSpaces(s: string): (n: nat)
    ensures n <= |s|
    ensures forall i :: 0 <= i < n ==> IsSpace(s[i])
    ensures n == |s| || !IsSpace(s[n])
  {
    if s != [] && IsSpace(s[0]) then 1 + LeadingSpaces(s[1..]) else 0
  }

  /** Number of whitespace characters at the back. */
  function TrailingSpaces(s: string): (n: nat)
    ensures n <= |s|
    ensures forall i :: |s| - n <= i < |s| ==> IsSpace(s[i])
    ensures n == |s| || !IsSpace(s[|s| - n - 1])
  {
    if s != [] && IsSpace(s[|s| - 1]) then 1 + TrailingSpaces(s[..|s| - 1]) else 0
  }

  predicate IsStripped(s: string) {
    s == [] || (!IsSpace(s[0]) && !IsSpace(s[|s| - 1]))
  }

  /** `str.strip()`: the result is the slice of the input between its
      leading and its trailing whitespace. */
  function Strip(s: string): (r: string)
    ensures IsStripped(r)
    ensures LeadingSpaces(s) + |r| <= |s| && r == s[LeadingSpaces(s)..LeadingSpaces(s) + |r|]
    ensures forall i :: LeadingSpaces(s) + |r| <= i < |s| ==> IsSpace(s[i])
    ensures IsStripped(s) ==> r == s
  {
    var a := LeadingSpaces(s);
    if a == |s| then []
    else
      var b := |s| - TrailingSpaces(s);
      assert a < b;
      s[a..b]
  }

  /** Whatever occurs in a slice occurs in the whole text. */
  lemma ContainsInSlice(s: string, sub: string, a: nat, b: nat)
    requires a <= b <= |s| && Contains(s[a..b], sub)
    ensures Contains(s, sub)
  {
    var i :| 0 <= i <= b - a && OccursAt(s[a..b], sub, i);
    assert i + |sub| <= b - a;
    forall t | 0 <= t < |sub| ensures s[a + i..a + i + |sub|][t] == sub[t] {
      assert s[a..b][i..i + |sub|][t] == sub[t];
    }
    assert OccursAt(s, sub, a + i);
  }

  /** Stripping never makes a text contain something new. */
  lemma StripContains(s: string, sub: string)
    requires Contains(Strip(s), sub)
    ensures Contains(s, sub)
  {
    var a := LeadingSpaces(s);
    ContainsInSlice(s, sub, a, a + |Strip(s)|);
  }

  // ------------------------------------------------------- split and join

  /** Length of the leading run of non-whitespace characters. */
  function WordLength(s: string): (n: nat)
    ensures n <= |s|
    ensures forall i :: 0 <= i < n ==> !IsSpace(s[i])
    ensures n == |s| || IsSpace(s[n])
  {
    if s == [] || IsSpace(s[0]) then 0 else 1 + WordLength(s[1..])
  }

  /** A non-empty run of non-whitespace characters. */
  predicate IsWord(w: string) {
    w != [] && forall i :: 0 <= i < |w| ==> !IsSpace(w[i])
  }

  /** `str.split()` with no argument: the maximal runs of non-whitespace. */
  function SplitWs(s: string): (ws: seq<string>)
    ensures forall k :: 0 <= k < |ws| ==> IsWord(ws[k])
    decreases |s|
  {
    if s == [] then []
    else if IsSpace(s[0]) then SplitWs(s[1..])
    else
      var n := WordLength(s);
      assert IsWord(s[..n]);
      [s[..n]] + SplitWs(s[n..])
  }

  /** `sep.join(ws)`. */
  function JoinWith(ws: seq<string>, sep: string): string {
    if |ws| == 0 then ""
    else if |ws| == 1 then ws[0]
    else ws[0] + sep + JoinWith(ws[1..], sep)
  }

  /** Index of the leftmost occurrence of `sep` in `s`. */
  function IndexOf(s: string, sep: string): (r: Option<nat>)
    ensures r.Some? ==> OccursAt(s, sep, r.value)
    ensures r.Some? ==> forall j: nat :: j < r.value ==> !OccursAt(s, sep, j)
    ensures r.None? ==> !Contains(s, sep)
    decreases |s|
  {
    if OccursAt(s, sep, 0) then Some(0)
    else if s == [] then None
    else
      var rest := IndexOf(s[1..], sep);
      assert forall j: nat :: 1 <= j ==> (OccursAt(s, sep, j) <==> OccursAt(s[1..], sep, j - 1));
      if rest.Some? then Some(rest.value + 1) else None
  }

  /** `s.split(sep)` for a non-empty separator. */
  function SplitOn(s: string, sep: string): (parts: seq<string>)
    requires sep != []
    ensures |parts| >= 1
    ensures forall k :: 0 <= k < |parts| ==> !Contains(parts[k], sep)
    ensures |parts| == 1 <==> IndexOf(s, sep).None?
    ensures |parts| > 1 ==> IndexOf(s, sep) == Some(|parts[0]|)
    decreases |s|
  {
    match IndexOf(s, sep)
    case None => [s]
    case Some(i) =>
      assert forall j: nat :: OccursAt(s[..i], sep, j) ==> OccursAt(s, sep, j);
      [s[..i]] + SplitOn(s[i + |sep|..], sep)
  }

  lemma JoinCons(head: string, rest: seq<string>, sep: string)
    requires |rest| >= 1
    ensures JoinWith([head] + rest, sep) == head + sep + JoinWith(rest, sep)
  {
    assert ([head] + rest)[1..] == rest;
  }

  lemma SplitOnStep(s: string, sep: string, i: nat)
    requires sep != [] && IndexOf(s, sep) == Some(i)
    ensures i + |sep| <= |s| && s == s[..i] + sep + s[i + |sep|..]
    ensures SplitOn(s, sep) == [s[..i]] + SplitOn(s[i + |sep|..], sep)
  {
    OccursSplits(s, sep, i);
  }

  lemma OccursSplits(s: string, sep: string, i: nat)
    requires OccursAt(s, sep, i)
    ensures s == s[..i] + sep + s[i + |sep|..]
  {
    assert s[i..] == s[i..i + |sep|] + s[i + |sep|..];
    assert s == s[..i] + s[i..];
  }

  /** Splitting on a separator and joining with it gives the text back. */
  lemma {:induction false} SplitOnJoin(s: string, sep: string)
    requires sep != []
    ensures JoinWith(SplitOn(s, sep), sep) == s
    decreases |s|
  {
    var r := IndexOf(s, sep);
    if r.Some? {
      var i := r.value;
      var tail := s[i + |sep|..];
      SplitOnStep(s, sep, i);
      SplitOnJoin(tail, sep);
      JoinCons(s[..i], SplitOn(tail, sep), sep);
    }
  }

  /** Every part but the last ends at the leftmost occurrence of the
      separator in what is left of the text at that point. */
  lemma {:induction false} SplitOnLeftmost(s: string, sep: string, k: nat)
    requires sep != [] && k + 1 < |SplitOn(s, sep)|
    ensures IndexOf(JoinWith(SplitOn(s, sep)[k..], sep), sep) == Some(|SplitOn(s, sep)[k]|)
    decreases |s|
  {
    var parts := SplitOn(s, sep);
    if k == 0 {
      assert parts[0..] == parts;
      SplitOnJoin(s, sep);
    } else {
      var i := IndexOf(s, sep).value;
      var tail := s[i + |sep|..];
      SplitOnStep(s, sep, i);
      assert parts[k..] == SplitOn(tail, sep)[k - 1..];
      assert parts[k] == SplitOn(tail, sep)[k - 1];
      SplitOnLeftmost(tail, sep, k - 1);
    }
  }

  /** Every character of the text is whitespace. */
  predicate AllSpace(g: string) {
    forall i :: 0 <= i < |g| ==> IsSpace(g[i])
  }

  /** `gaps[0] + ws[0] + gaps[1] + ... + ws[n-1] + gaps[n]`. */
  function Interleave(gaps: seq<string>, ws: seq<string>): string
    requires |gaps| == |ws| + 1
    decreases |ws|
  {
    if ws == [] then gaps[0] else gaps[0] + ws[0] + Interleave(gaps[1..], ws[1..])
  }

  /** `gaps` are the whitespace around the words `ws` of `s`: `s` is the
      words (non-empty runs of non-whitespace) interleaved with all-whitespace gaps, the gaps between two
      words are not empty, and a text that starts with whitespace has a
      non-empty first gap. */
  predicate Decomposes(s: string, ws: seq<string>, gaps: seq<string>) {
    && |gaps| == |ws| + 1
    && (forall k :: 0 <= k < |ws| ==> IsWord(ws[k]))
    && (forall k :: 0 <= k < |gaps| ==> AllSpace(gaps[k]))
    && (forall k :: 0 < k < |ws| ==> gaps[k] != [])
    && s == Interleave(gaps, ws)
    && (s != [] && IsSpace(s[0]) ==> gaps[0] != [])
  }

  /** A leading whitespace character joins the first gap. */
  lemma DecomposesSpace(c: char, t: string, ws: seq<string>, g: seq<string>)
    requires IsSpace(c) && Decomposes(t, ws, g)
    ensures Decomposes([c] + t, ws, [[c] + g[0]] + g[1..])
  {
    var gaps := [[c] + g[0]] + g[1..];
    assert gaps[1..] == g[1..];
    if ws != [] {
      assert Interleave(gaps, ws) == [c] + Interleave(g, ws);
    }
    forall k | 0 <= k < |gaps| ensures AllSpace(gaps[k]) {
      if k == 0 {
        assert AllSpace(g[0]);
      } else {
        assert gaps[k] == g[k];
      }
    }
  }

  /** A leading word is preceded by an empty gap, and the gap after it is
      the leading whitespace of the rest. */
  lemma DecomposesWord(w: string, t: string, ws: seq<string>, g: seq<string>)
    requires IsWord(w) && (t == [] || IsSpace(t[0])) && Decomposes(t, ws, g)
    ensures Decomposes(w + t, [w] + ws, [[]] + g)
  {
    var gaps := [[]] + g;
    var all := [w] + ws;
    assert gaps[1..] == g && all[1..] == ws;
    assert Interleave(gaps, all) == w + Interleave(g, ws);
    forall k | 0 < k < |all| ensures gaps[k] != [] {
      assert gaps[k] == g[k - 1];
    }
    forall k | 0 <= k < |gaps| ensures AllSpace(gaps[k]) {
      if k > 0 { assert gaps[k] == g[k - 1]; }
    }
    if w + t != [] { assert (w + t)[0] == w[0]; }
  }

  /** `str.split()` cuts the text into its words and the whitespace between
      them, so each word is a maximal run of non-whitespace, and the words
      come in text order. */
  lemma {:induction false} SplitWsGaps(s: string) returns (gaps: seq<string>)
    ensures Decomposes(s, SplitWs(s), gaps)
    decreases |s|
  {
    if s == [] {
      gaps := [[]];
    } else if IsSpace(s[0]) {
      var g := SplitWsGaps(s[1..]);
      DecomposesSpace(s[0], s[1..], SplitWs(s[1..]), g);
      assert [s[0]] + s[1..] == s;
      gaps := [[s[0]] + g[0]] + g[1..];
    } else {
      var n := WordLength(s);
      var g := SplitWsGaps(s[n..]);
      assert IsWord(s[..n]);
      DecomposesWord(s[..n], s[n..], SplitWs(s[n..]), g);
      assert s[..n] + s[n..] == s;
      gaps := [[]] + g;
    }
  }

  // ------------------------------------------- run replacement and cleaning

  /** The character classes whose runs are replaced by a single space:
      `\s` when a value is cleaned, `[^a-zA-Z0-9]` when a slug is named. */
  datatype RunClass = Whitespace | NonAlnum

  predicate InRun(c: char, k: RunClass) {
    match k
    case Whitespace => IsSpace(c)
    case NonAlnum => !IsAlnum(c)
  }

  /** Length of the leading run of characters of the class. */
  function RunLength(s: string, k: RunClass): (n: nat)
    ensures n <= |s|
    ensures n == |s| || !InRun(s[n], k)
  {
    if s != [] && InRun(s[0], k) then 1 + RunLength(s[1..], k) else 0
  }

  /** Every character of the class is a plain space and no two of them are
      adjacent. */
  predicate SingleSpaced(s: string, k: RunClass) {
    forall i :: 0 <= i < |s| ==> SpacedAt(s, k, i)
  }

  /** The character at `i` is a plain space if it is of the class, and it
      and the next one are not both of the class. */
  predicate SpacedAt(s: string, k: RunClass, i: nat)
    requires i < |s|
  {
    && (InRun(s[i], k) ==> s[i] == ' ')
    && (i + 1 < |s| ==> !(InRun(s[i], k) && InRun(s[i + 1], k)))
  }

  /** `re.sub(<class>+, " ", s)`: each maximal run of the class becomes one
      space and every other character is kept in place. */
  function ReplaceRuns(s: string, k: RunClass): (r: string)
    ensures SingleSpaced(r, k)
    ensures |r| == 0 <==> |s| == 0
    ensures r != [] ==> (InRun(r[0], k) <==> InRun(s[0], k))
    decreases |s|
  {
    if s == [] then []
    else if InRun(s[0], k) then
      var t := ReplaceRuns(s[RunLength(s, k)..], k);
      ConsSingleSpaced(' ', t, k);
      [' '] + t
    else
      var t := ReplaceRuns(s[1..], k);
      ConsSingleSpaced(s[0], t, k);
      [s[0]] + t
  }

  lemma ConsSingleSpaced(c: char, t: string, k: RunClass)
    requires SingleSpaced(t, k)
    requires InRun(c, k) ==> c == ' ' && (t == [] || !InRun(t[0], k))
    ensures SingleSpaced([c] + t, k)
  {
    var r := [c] + t;
    forall i | 0 <= i < |r| ensures SpacedAt(r, k, i) {
      if i > 0 {
        assert SpacedAt(t, k, i - 1);
        assert r[i] == t[i - 1];
        if i + 1 < |r| { assert r[i + 1] == t[i]; }
      }
    }
  }

  /** On a text that is already single-spaced nothing is replaced. */
  lemma {:induction false} ReplaceRunsKeeps(s: string, k: RunClass)
    requires SingleSpaced(s, k)
    ensures ReplaceRuns(s, k) == s
    decreases |s|
  {
    if s != [] {
      assert SpacedAt(s, k, 0);
      SliceSingleSpaced(s, k, 1, |s|);
      assert s[1..|s|] == s[1..];
      if InRun(s[0], k) {
        assert RunLength(s[1..], k) == 0;
        assert RunLength(s, k) == 1;
      }
      ReplaceRunsKeeps(s[1..], k);
    }
  }

  lemma SliceSingleSpaced(s: string, k: RunClass, a: nat, b: nat)
    requires SingleSpaced(s, k) && a <= b <= |s|
    ensures SingleSpaced(s[a..b], k)
  {
    var t := s[a..b];
    forall i | 0 <= i < |t| ensures SpacedAt(t, k, i) {
      assert SpacedAt(s, k, a + i);
      assert t[i] == s[a + i];
      if i + 1 < |t| { assert t[i + 1] == s[a + i + 1]; }
    }
  }

  /** `s[x..y]` is all whitespace. */
  predicate AllSpaceIn(s: string, x: nat, y: nat)
    requires x <= y <= |s|
  {
    forall i :: x <= i < y ==> IsSpace(s[i])
  }

  /** `strip` is determined by where the visible text starts and ends:
      whitespace before `x`, whitespace from `y` on, and a visible
      character at each end of `s[x..y]` (or nothing visible at all). */
  lemma StripUnique(s: string, x: nat, y: nat)
    requires x <= y <= |s|
    requires AllSpaceIn(s, 0, x) && AllSpaceIn(s, y, |s|)
    requires x == y || (!IsSpace(s[x]) && !IsSpace(s[y - 1]))
    ensures Strip(s) == s[x..y]
  {
    var a := LeadingSpaces(s);
    var r := Strip(s);
    if x == y {
      if a < |s| {
        assert false;
      }
    } else {
      if a < x {
        assert false;
      }
      if a + |r| < y {
        assert false;
      }
      if a + |r| > y {
        assert false;
      }
    }
  }

  /** A value after cleaning: no whitespace at the ends, and inside only
      single plain spaces. */
  predicate IsClean(s: string) {
    IsStripped(s) && SingleSpaced(s, Whitespace)
  }

  /** `re.sub(r"\s+", " ", v).strip()`: clean, and the identity on a value
      that is already clean (so cleaning twice is cleaning once). */
  function Clean(v: string): (r: string)
    ensures IsClean(r)
    ensures IsClean(v) ==> r == v
  {
    var t := ReplaceRuns(v, Whitespace);
    var r := Strip(t);
    SliceSingleSpaced(t, Whitespace, LeadingSpaces(t), LeadingSpaces(t) + |r|);
    if IsClean(v) then ReplaceRunsKeeps(v, Whitespace); r else r
  }

  /** Cleaning keeps a value that starts with a visible character
      non-empty. */
  lemma CleanKeepsVisible(v: string)
    requires v != [] && !IsSpace(v[0])
    ensures Clean(v) != []
  {
    var t := ReplaceRuns(v, Whitespace);
    assert t != [] && !IsSpace(t[0]);
    assert LeadingSpaces(t) == 0;
  }

  /** Over whitespace, a run is the leading whitespace. */
  lemma {:induction false} RunIsLeadingSpaces(s: string)
    ensures RunLength(s, Whitespace) == LeadingSpaces(s)
    decreases |s|
  {
    if s != [] { RunIsLeadingSpaces(s[1..]); }
  }

  /** Characters of a word pass through run replacement unchanged. */
  lemma {:induction false} ReplaceRunsWord(v: string, m: nat)
    requires m <= WordLength(v)
    ensures ReplaceRuns(v, Whitespace) == v[..m] + ReplaceRuns(v[m..], Whitespace)
    decreases m
  {
    if m > 0 {
      ReplaceRunsWord(v[1..], m - 1);
      assert v[1..][m - 1..] == v[m..];
      assert v[..m] == [v[0]] + v[1..][..m - 1];
    }
  }

  /** Leading whitespace does not change the words. */
  lemma {:induction false} SplitWsSkip(v: string, n: nat)
    requires n <= LeadingSpaces(v)
    ensures SplitWs(v) == SplitWs(v[n..])
    decreases n
  {
    if n > 0 {
      SplitWsSkip(v[1..], n - 1);
      assert v[1..][n - 1..] == v[n..];
    }
  }

  /** A leading space is stripped away. */
  lemma StripSpaceCons(t: string)
    ensures Strip([' '] + t) == Strip(t)
  {
    var a := LeadingSpaces(t);
    var b := a + |Strip(t)|;
    ShiftedBounds(t, a, b);
    StripUnique([' '] + t, a + 1, b + 1);
  }

  /** The bounds of the visible text of `t` move one place to the right in
      `[' '] + t`. */
  lemma ShiftedBounds(t: string, x: nat, y: nat)
    requires x <= y <= |t| && AllSpaceIn(t, 0, x) && AllSpaceIn(t, y, |t|)
    requires x == y || (!IsSpace(t[x]) && !IsSpace(t[y - 1]))
    ensures AllSpaceIn([' '] + t, 0, x + 1) && AllSpaceIn([' '] + t, y + 1, |t| + 1)
    ensures x == y || (!IsSpace(([' '] + t)[x + 1]) && !IsSpace(([' '] + t)[y]))
    ensures ([' '] + t)[x + 1..y + 1] == t[x..y]
  {
  }

  /** Stripping a word, a space and a text that starts visibly strips only
      the end of that text. */
  lemma StripWordCons(w: string, t: string)
    requires IsWord(w) && (t == [] || !IsSpace(t[0]))
    ensures t != [] ==> Strip(w + [' '] + t) == w + [' '] + Strip(t)
    ensures t == [] ==> Strip(w + [' '] + t) == w
  {
    var s := w + [' '] + t;
    if t == [] {
      StripUnique(s, 0, |w|);
      assert s[0..|w|] == w;
    } else {
      var r := Strip(t);
      assert LeadingSpaces(t) == 0;
      assert r != [] && r == t[..|r|];
      forall i | |w| + 1 + |r| <= i < |s| ensures IsSpace(s[i]) {
        assert s[i] == t[i - |w| - 1];
      }
      assert s[|w| + |r|] == r[|r| - 1];
      StripUnique(s, 0, |w| + 1 + |r|);
      assert s[0..|w| + 1 + |r|] == w + [' '] + r;
    }
  }

  /** Cleaning a value is `" ".join(v.split())`: its words, in order,
      separated by single spaces. */
  lemma {:induction false} CleanJoinsWords(v: string)
    ensures Clean(v) == JoinWith(SplitWs(v), " ")
    decreases |v|
  {
    if v == [] {
    } else if IsSpace(v[0]) {
      var n := RunLength(v, Whitespace);
      RunIsLeadingSpaces(v);
      SplitWsSkip(v, n);
      StripSpaceCons(ReplaceRuns(v[n..], Whitespace));
      CleanJoinsWords(v[n..]);
    } else {
      var m := WordLength(v);
      var w := v[..m];
      ReplaceRunsWord(v, m);
      assert SplitWs(v) == [w] + SplitWs(v[m..]);
      if m == |v| {
        assert v[m..] == [] && w == v;
        assert SplitWs(v) == [v];
      } else {
        var u := v[m..];
        var n := RunLength(u, Whitespace);
        RunIsLeadingSpaces(u);
        SplitWsSkip(u, n);
        var x := u[n..];
        var t := ReplaceRuns(x, Whitespace);
        assert ReplaceRuns(v, Whitespace) == w + [' '] + t;
        assert IsWord(w);
        StripWordCons(w, t);
        if x == [] {
          assert SplitWs(v) == [w];
        } else {
          CleanJoinsWords(x);
          assert SplitWs(x) != [];
          JoinCons(w, SplitWs(x), " ");
        }
      }
    }
  }

  lemma CleanIdempotent(v: string)
    ensures Clean(Clean(v)) == Clean(v)
  {
  }
}

/** The regular expressions of the URL extractors and of the Workday
    location lookup, written as scanners over the text. Each `...At`
    function says what the pattern's capture group is when a match starts
    at a given position, following the engine's greedy-then-backtrack
    order; `Search` returns the group of the leftmost match, as `re.search`
    does. Case-insensitive matching and the classes `\w`, `\d` are taken
    over ASCII. */
module Patterns {
  import opened Text
  import opened Names

  // ------------------------------------------------------------ classes

  /** `\w`. */
  predicate IsWordChar(c: char) { IsAlnum(c) || c == '_' }

  /** `\b` at position `e`: a word character on exactly one side. */
  predicate AtBoundary(s: string, e: nat)
    requires e <= |s|
  {
    (e > 0 && IsWordChar(s[e - 1])) != (e < |s| && IsWordChar(s[e]))
  }

  /** `$`: the end, or just before a newline that ends the text. */
  predicate AtEnd(s: string, e: nat)
    requires e <= |s|
  {
    e == |s| || (e == |s| - 1 && s[e] == '\n')
  }

  /** `(?:\b|/|$)`. */
  predicate Terminator(s: string, e: nat)
    requires e <= |s|
  {
    AtBoundary(s, e) || (e < |s| && s[e] == '/') || AtEnd(s, e)
  }

  datatype CharClass =
    | Digit        // `\d`
    | SlugChar     // `[a-z0-9-]` ignoring case
    | NotSlash     // `[^/]`
    | NotDotOrBar  // `[^.|]`
    | Space        // `\s`

  predicate InClass(c: char, k: CharClass) {
    match k
    case Digit => IsDigit(c)
    case SlugChar => IsAlnum(c) || c == '-'
    case NotSlash => c != '/'
    case NotDotOrBar => c != '.' && c != '|'
    case Space => IsSpace(c)
  }

  /** Every character of `w` is in the class. */
  predicate ClassWord(w: string, k: CharClass) {
    forall t :: 0 <= t < |w| ==> InClass(w[t], k)
  }

  predicate AllIn(s: string, i: nat, j: nat, k: CharClass)
    requires i <= j <= |s|
  {
    forall t :: i <= t < j ==> InClass(s[t], k)
  }

  /** Length of the longest run of the class starting at `i`: how far a
      greedy `<class>+` or `<class>*` reaches. */
  function RunFrom(s: string, i: nat, k: CharClass): (n: nat)
    requires i <= |s|
    ensures i + n <= |s| && AllIn(s, i, i + n, k)
    ensures i + n == |s| || !InClass(s[i + n], k)
    decreases |s| - i
  {
    if i < |s| && InClass(s[i], k) then 1 + RunFrom(s, i + 1, k) else 0
  }

  lemma SliceClassWord(s: string, i: nat, j: nat, k: CharClass)
    requires i <= j <= |s| && AllIn(s, i, j, k)
    ensures ClassWord(s[i..j], k)
  {
    forall t | 0 <= t < j - i ensures InClass(s[i..j][t], k) {
      assert s[i..j][t] == s[i + t];
    }
  }

  /** `lit` (written in lower case) occurs at `i`, ignoring ASCII case when
      `fold` is set. */
  predicate LiteralAt(s: string, i: nat, lit: string, fold: bool) {
    i + |lit| <= |s| && (if fold then Lower(s[i..i + |lit|]) == lit else s[i..i + |lit|] == lit)
  }

  // ----------------------------------------- greedy run, then terminator

  /** The terminator holds `t` characters after `i`. */
  predicate TermAt(s: string, i: nat, t: nat) {
    i + t <= |s| && Terminator(s, i + t)
  }

  /** A greedy `<class>{min,}` of `m` characters at `i` followed by
      `(?:\b|/|$)`: the engine gives characters back one at a time until
      the terminator holds, so the match keeps the longest such prefix. */
  function LongestTerminated(s: string, i: nat, m: nat, min: nat): (r: Option<nat>)
    requires i + m <= |s|
    ensures r.Some? ==> min <= r.value <= m && TermAt(s, i, r.value)
    ensures r.Some? ==> forall t :: r.value < t <= m ==> !TermAt(s, i, t)
    ensures r.None? ==> forall t :: min <= t <= m ==> !TermAt(s, i, t)
    decreases m
  {
    if m < min then None
    else if TermAt(s, i, m) then Some(m)
    else if m == 0 then None
    else LongestTerminated(s, i, m - 1, min)
  }

  /** `<class>{min,}(?:\b|/|$)` at `j`: the captured run. */
  function TerminatedRun(s: string, j: nat, k: CharClass, min: nat): (r: Option<string>)
    requires j <= |s|
    ensures r.Some? ==> |r.value| >= min && ClassWord(r.value, k)
    ensures r.Some? ==> j + |r.value| <= |s| && r.value == s[j..j + |r.value|] && TermAt(s, j, |r.value|)
  {
    var n := RunFrom(s, j, k);
    match LongestTerminated(s, j, n, min)
    case None => None
    case Some(m) =>
      SliceClassWord(s, j, j + m, k);
      Some(s[j..j + m])
  }

  /** Inside a run of digits the terminator never holds: both neighbours
      are word characters, neither is '/', and the text does not end there. */
  lemma {:induction false} NoTerminatorInsideDigits(s: string, j: nat, n: nat)
    requires j + n <= |s| && AllIn(s, j, j + n, Digit)
    ensures forall t :: 1 <= t < n ==> !TermAt(s, j, t)
  {
    forall t | 1 <= t < n ensures !TermAt(s, j, t) {
      assert IsDigit(s[j + t - 1]) && IsDigit(s[j + t]);
    }
  }

  /** So a greedy digit run followed by `(?:\b|/|$)` never backtracks: the
      capture is the whole run of digits. */
  lemma DigitRunIsWhole(s: string, j: nat, min: nat)
    requires j <= |s| && 1 <= min
    ensures TerminatedRun(s, j, Digit, min).Some? ==> |TerminatedRun(s, j, Digit, min).value| == RunFrom(s, j, Digit)
  {
    NoTerminatorInsideDigits(s, j, RunFrom(s, j, Digit));
  }

  // ---------------------------------------------------------- patterns

  datatype Pattern =
    | Requisition     // `(?:[_-]|\b)R[-_]?(\d{3,})(?:\b|/|$)`, ignoring case
    | JobsNumber      // `/jobs/(\d+)(?:\b|/|$)`
    | JobsSlug        // `/(?:jobs?|postings)/([a-z0-9-]{8,})(?:\b|/|$)`, ignoring case
    | GreenhouseBoard // `boards\.greenhouse\.io/([^/]+)/?`, ignoring case
    | LeverBoard      // `jobs\.lever\.co/([^/]+)/?`, ignoring case
    | WorkdayTenant   // `https?://([a-z0-9-]+)\.wd\d+\.myworkdayjobs\.com`, ignoring case
    | LocationLabel   // `Location:\s*([^.|]+)`, ignoring case

  predicate IsSep(c: char) { c == '_' || c == '-' }

  /** `R[-_]?(\d{3,})(?:\b|/|$)` at `q`; the optional separator is tried
      first. */
  function AfterR(s: string, q: nat): (r: Option<string>)
    requires q <= |s|
    ensures r.Some? ==> |r.value| >= 3 && ClassWord(r.value, Digit)
    ensures r.Some? ==> q < |s| && (s[q] == 'R' || s[q] == 'r')
  {
    if q < |s| && (s[q] == 'R' || s[q] == 'r') then
      var withSep := if q + 1 < |s| && IsSep(s[q + 1]) then TerminatedRun(s, q + 2, Digit, 3) else None;
      if withSep.Some? then withSep else TerminatedRun(s, q + 1, Digit, 3)
    else None
  }

  function RequisitionAt(s: string, p: nat): (r: Option<string>)
    requires p <= |s|
    ensures r.Some? ==> |r.value| >= 3 && ClassWord(r.value, Digit)
    ensures r.Some? ==>
      (p + 1 < |s| && IsSep(s[p]) && (s[p + 1] == 'R' || s[p + 1] == 'r')) ||
      (AtBoundary(s, p) && p < |s| && (s[p] == 'R' || s[p] == 'r'))
  {
    var first := if p < |s| && IsSep(s[p]) then AfterR(s, p + 1) else None;
    if first.Some? then first
    else if AtBoundary(s, p) then AfterR(s, p)
    else None
  }

  function JobsNumberAt(s: string, p: nat): (r: Option<string>)
    requires p <= |s|
    ensures r.Some? ==> |r.value| >= 1 && ClassWord(r.value, Digit)
    ensures r.Some? ==> LiteralAt(s, p, "/jobs/", false)
  {
    if LiteralAt(s, p, "/jobs/", false) then TerminatedRun(s, p + 6, Digit, 1) else None
  }

  /** The alternatives `/jobs/`, `/job/`, `/postings/` in the order the
      engine tries them. */
  const SlugPrefixes: seq<string> := ["/jobs/", "/job/", "/postings/"]

  /** One of the alternatives from `alt` on occurs at `p`, ignoring case. */
  predicate SlugPrefixFrom(s: string, p: nat, alt: nat) {
    exists k :: alt <= k < |SlugPrefixes| && LiteralAt(s, p, SlugPrefixes[k], true)
  }

  function JobsSlugFrom(s: string, p: nat, alt: nat): (r: Option<string>)
    requires p <= |s| && alt <= |SlugPrefixes|
    ensures r.Some? ==> |r.value| >= 8 && ClassWord(r.value, SlugChar)
    ensures r.Some? ==> SlugPrefixFrom(s, p, alt)
    decreases |SlugPrefixes| - alt
  {
    if alt == |SlugPrefixes| then None
    else
      var lit := SlugPrefixes[alt];
      var here := if LiteralAt(s, p, lit, true) then TerminatedRun(s, p + |lit|, SlugChar, 8) else None;
      if here.Some? then here else JobsSlugFrom(s, p, alt + 1)
  }

  function JobsSlugAt(s: string, p: nat): (r: Option<string>)
    requires p <= |s|
    ensures r.Some? ==> |r.value| >= 8 && ClassWord(r.value, SlugChar)
    ensures r.Some? ==> SlugPrefixFrom(s, p, 0)
  {
    JobsSlugFrom(s, p, 0)
  }

  /** `<lit>([^/]+)/?`: the whole run of non-slash characters after the
      literal, when there is at least one. */
  function BoardAt(s: string, p: nat, lit: string): (r: Option<string>)
    requires p <= |s|
    ensures r.Some? ==> r.value != [] && ClassWord(r.value, NotSlash)
    ensures r.Some? ==> LiteralAt(s, p, lit, true)
  {
    if LiteralAt(s, p, lit, true) then
      var j := p + |lit|;
      var n := RunFrom(s, j, NotSlash);
      if n == 0 then None
      else
        SliceClassWord(s, j, j + n, NotSlash);
        Some(s[j..j + n])
    else None
  }

  /** `([a-z0-9-]+)\.wd\d+\.myworkdayjobs\.com` at `j`. A shorter run of
      either class would leave a class character where a '.' is required,
      so only the greedy runs can match. */
  function TenantAfter(s: string, j: nat): (r: Option<string>)
    requires j <= |s|
    ensures r.Some? ==> r.value != [] && ClassWord(r.value, SlugChar)
    ensures r.Some? ==> j + |r.value| <= |s| && r.value == s[j..j + |r.value|]
    ensures r.Some? ==> LiteralAt(s, j + |r.value|, ".wd", true)
  {
    var n := RunFrom(s, j, SlugChar);
    if n >= 1 && LiteralAt(s, j + n, ".wd", true) then
      var d := RunFrom(s, j + n + 3, Digit);
      if d >= 1 && LiteralAt(s, j + n + 3 + d, ".myworkdayjobs.com", true) then
        SliceClassWord(s, j, j + n, SlugChar);
        Some(s[j..j + n])
      else None
    else None
  }

  /** `https?://` then the tenant; the `s` is taken when present. */
  function WorkdayTenantAt(s: string, p: nat): (r: Option<string>)
    requires p <= |s|
    ensures r.Some? ==> r.value != [] && ClassWord(r.value, SlugChar)
    ensures r.Some? ==> LiteralAt(s, p, "https://", true) || LiteralAt(s, p, "http://", true)
  {
    var secure := if LiteralAt(s, p, "https://", true) then TenantAfter(s, p + 8) else None;
    if secure.Some? then secure
    else if LiteralAt(s, p, "http://", true) then TenantAfter(s, p + 7)
    else None
  }

  /** `Location:\s*([^.|]+)`. The greedy `\s*` takes every space; if no
      character of `[^.|]` follows, the engine gives the last space back
      and the group is that one space. */
  function LocationAt(s: string, p: nat): (r: Option<string>)
    requires p <= |s|
    ensures r.Some? ==> r.value != [] && ClassWord(r.value, NotDotOrBar)
    ensures r.Some? ==> LiteralAt(s, p, "location:", true)
  {
    if LiteralAt(s, p, "location:", true) then
      var a := p + 9;
      var w := RunFrom(s, a, Space);
      var b := a + w;
      var n := RunFrom(s, b, NotDotOrBar);
      if n >= 1 then
        SliceClassWord(s, b, b + n, NotDotOrBar);
        Some(s[b..b + n])
      else if w >= 1 then
        assert IsSpace(s[b - 1]);
        Some(s[b - 1..b])
      else None
    else None
  }

  /** The capture group of a match of the pattern starting at `p`. */
  function MatchAt(pat: Pattern, s: string, p: nat): (r: Option<string>)
    requires p <= |s|
    ensures r.Some? ==> GroupShape(pat, r.value)
  {
    match pat
    case Requisition => RequisitionAt(s, p)
    case JobsNumber => JobsNumberAt(s, p)
    case JobsSlug => JobsSlugAt(s, p)
    case GreenhouseBoard => BoardAt(s, p, "boards.greenhouse.io/")
    case LeverBoard => BoardAt(s, p, "jobs.lever.co/")
    case WorkdayTenant => WorkdayTenantAt(s, p)
    case LocationLabel => LocationAt(s, p)
  }

  /** What a pattern's capture group looks like. */
  predicate GroupShape(pat: Pattern, g: string) {
    match pat
    case Requisition => |g| >= 3 && ClassWord(g, Digit)
    case JobsNumber => |g| >= 1 && ClassWord(g, Digit)
    case JobsSlug => |g| >= 8 && ClassWord(g, SlugChar)
    case GreenhouseBoard => g != [] && ClassWord(g, NotSlash)
    case LeverBoard => g != [] && ClassWord(g, NotSlash)
    case WorkdayTenant => g != [] && ClassWord(g, SlugChar)
    case LocationLabel => g != [] && ClassWord(g, NotDotOrBar)
  }

  /** The leftmost match at or after `p`: its start and its group. */
  function SearchFrom(pat: Pattern, s: string, p: nat): (r: Option<(nat, string)>)
    requires p <= |s|
    ensures r.Some? ==> p <= r.value.0 <= |s| && MatchAt(pat, s, r.value.0) == Some(r.value.1)
    ensures r.Some? ==> forall q :: p <= q < r.value.0 ==> MatchAt(pat, s, q).None?
    ensures r.None? ==> forall q :: p <= q <= |s| ==> MatchAt(pat, s, q).None?
    decreases |s| - p
  {
    match MatchAt(pat, s, p)
    case Some(g) => Some((p, g))
    case None => if p == |s| then None else SearchFrom(pat, s, p + 1)
  }

  /** `re.search(pattern, s)` and its group 1. */
  function Search(pat: Pattern, s: string): (r: Option<string>)
    ensures r.Some? ==> GroupShape(pat, r.value)
    ensures r.Some? <==> exists q :: 0 <= q <= |s| && MatchAt(pat, s, q).Some?
    ensures r.Some? ==> exists q :: 0 <= q <= |s| && MatchAt(pat, s, q) == r && NoMatchBefore(pat, s, q)
  {
    match SearchFrom(pat, s, 0)
    case None => None
    case Some((q, g)) =>
      assert NoMatchBefore(pat, s, q);
      Some(g)
  }

  /** No match of the pattern starts before `q`. */
  predicate NoMatchBefore(pat: Pattern, s: string, q: nat)
    requires q <= |s|
  {
    forall p :: 0 <= p < q ==> MatchAt(pat, s, p).None?
  }

  // --------------------------------------------------------- extractors

  /** A requisition id: "R" and at least three digits. */
  predicate IsRequisitionId(r: string) {
    |r| >= 4 && r[0] == 'R' && ClassWord(r[1..], Digit)
  }

  /** `find_id_from_url`: the Workday requisition number, else the numeric
      Greenhouse id, else the Lever-style slug, else "". */
  function FindIdFromUrl(url: string): (r: string)
    ensures Search(Requisition, url).Some? ==> r == "R" + Search(Requisition, url).value && IsRequisitionId(r)
    ensures Search(Requisition, url).None? && Search(JobsNumber, url).Some? ==>
              r == Search(JobsNumber, url).value && r != [] && ClassWord(r, Digit)
    ensures Search(Requisition, url).None? && Search(JobsNumber, url).None? && Search(JobsSlug, url).Some? ==>
              r == Search(JobsSlug, url).value && |r| >= 8 && ClassWord(r, SlugChar)
    ensures r == "" <==> Search(Requisition, url).None? && Search(JobsNumber, url).None? && Search(JobsSlug, url).None?
  {
    match Search(Requisition, url)
    case Some(g) =>
      assert ("R" + g)[1..] == g;
      "R" + g
    case None =>
      match Search(JobsNumber, url)
      case Some(g) => g
      case None =>
        match Search(JobsSlug, url)
        case Some(g) => g
        case None => ""
  }

  /** `company_from_url_pattern`: the Greenhouse board, else the Lever
      board, else the Workday tenant, turned into a name. The first pattern
      that matches decides, even when its name comes out empty. */
  function CompanyFromUrlPattern(url: string): (r: string)
    ensures Search(GreenhouseBoard, url).Some? ==> r == SlugToName(Search(GreenhouseBoard, url).value)
    ensures Search(GreenhouseBoard, url).None? && Search(LeverBoard, url).Some? ==>
              r == SlugToName(Search(LeverBoard, url).value)
    ensures Search(GreenhouseBoard, url).None? && Search(LeverBoard, url).None? && Search(WorkdayTenant, url).Some? ==>
              r == SlugToName(Search(WorkdayTenant, url).value)
    ensures Search(GreenhouseBoard, url).None? && Search(LeverBoard, url).None? && Search(WorkdayTenant, url).None? ==> r == ""
    ensures WellSpaced(r) && TitleCased(r)
  {
    match Search(GreenhouseBoard, url)
    case Some(g) => SlugToName(g)
    case None =>
      match Search(LeverBoard, url)
      case Some(g) => SlugToName(g)
      case None =>
        match Search(WorkdayTenant, url)
        case Some(g) => SlugToName(g)
        case None => ""
  }
}

/** The site adapters: each reads a few facts off the page into a fresh
    dictionary with some of the keys "title", "company" and "location";
    and the table that picks the adapter from the URL's domain. */
module Adapters {
  import opened Text
  import opened Lookup
  import opened Inputs
  import opened Patterns
  import opened Company

  datatype Adapter = Workday | Greenhouse | Lever | LinkedIn | Generic

  /** `ADAPTERS`, in insertion order. */
  const AdapterTable: seq<(string, Adapter)> := [
    ("myworkdayjobs.com", Workday),
    ("greenhouse.io", Greenhouse),
    ("lever.co", Lever),
    ("linkedin.com", LinkedIn),
    ("smartrecruiters.com", Generic),
    ("icims.com", Generic),
    ("workable.com", Generic),
    ("ashbyhq.com", Generic),
    ("bamboohr.com", Generic)
  ]

  /** `choose_adapter`: the adapter of the first table key that occurs in
      the domain; none when no key does. */
  function ChooseAdapter(domain: string): (r: Option<Adapter>)
    ensures r.None? <==> forall j :: 0 <= j < |AdapterTable| ==> !Contains(domain, AdapterTable[j].0)
    ensures r.Some? ==> exists i: nat :: FirstPassingPair(AdapterTable, Within, domain, i) && r.value == AdapterTable[i].1
  {
    FirstValue(AdapterTable, Within, domain)
  }

  /** A Workday domain is recognised before any other key is looked at. */
  lemma WorkdayDomainFirst(domain: string)
    requires Contains(domain, "myworkdayjobs.com")
    ensures ChooseAdapter(domain) == Some(Workday)
  {
    FirstValueAt(AdapterTable, Within, domain, 0);
  }

  /** The keys an adapter fills. */
  predicate AdapterKeys(out: map<string, string>) {
    forall k :: k in out ==> k == "title" || k == "company" || k == "location"
  }

  /** The key is set exactly when the element was found, to its text. */
  predicate FilledFrom(out: map<string, string>, key: string, found: Option<string>) {
    (key in out <==> found.Some?) && (key in out ==> out[key] == found.value)
  }

  /** `adapter_greenhouse`'s outcome: title from the first `h1`, company and
      location from their selectors, each only when the element exists. */
  predicate GreenhouseFilled(page: Page, out: map<string, string>) {
    AdapterKeys(out)
    && FilledFrom(out, "title", page.firstH1)
    && FilledFrom(out, "company", page.greenhouseCompany)
    && FilledFrom(out, "location", page.greenhouseLocation)
  }

  method AdapterGreenhouse(page: Page) returns (out: map<string, string>)
    ensures GreenhouseFilled(page, out)
  {
    out := map[];
    if page.firstH1.Some? {
      out := out["title" := page.firstH1.value];
    }
    if page.greenhouseCompany.Some? {
      out := out["company" := page.greenhouseCompany.value];
    }
    if page.greenhouseLocation.Some? {
      out := out["location" := page.greenhouseLocation.value];
    }
  }

  /** `adapter_lever`'s outcome: title from the posting headline, and
      location; never a company. */
  predicate LeverFilled(page: Page, out: map<string, string>) {
    AdapterKeys(out) && "company" !in out
    && FilledFrom(out, "title", page.leverHeader)
    && FilledFrom(out, "location", page.leverLocation)
  }

  method AdapterLever(page: Page) returns (out: map<string, string>)
    ensures LeverFilled(page, out)
  {
    out := map[];
    if page.leverHeader.Some? {
      out := out["title" := page.leverHeader.value];
    }
    if page.leverLocation.Some? {
      out := out["location" := page.leverLocation.value];
    }
  }
  /** The location a Workday description gives: the text is re-spaced with
      single spaces, `Location:\s*([^.|]+)` is searched, and the group is
      stripped. An empty description gives none. */
  function DescriptionLocation(content: string): (r: Option<string>)
    ensures r.Some? ==> IsStripped(r.value) && ClassWord(r.value, NotDotOrBar)
    ensures r.Some? <==> content != "" && Search(LocationLabel, JoinWith(SplitWs(content), " ")).Some?
    ensures r.Some? ==> r.value == Strip(Search(LocationLabel, JoinWith(SplitWs(content), " ")).value)
  {
    if content == "" then None
    else
      match Search(LocationLabel, JoinWith(SplitWs(content), " "))
      case None => None
      case Some(g) =>
        StripClassWord(g, NotDotOrBar);
        Some(Strip(g))
  }

  lemma StripClassWord(w: string, k: CharClass)
    requires ClassWord(w, k)
    ensures ClassWord(Strip(w), k)
  {
    var a := LeadingSpaces(w);
    var r := Strip(w);
    forall t | 0 <= t < |r| ensures InClass(r[t], k) {
      assert r[t] == w[a + t];
    }
  }

  /** The location the Workday adapter settles on: the one the
      `twitter:description` gives, else the one the `og:description` gives. */
  function WorkdayLocation(page: Page): (r: Option<string>)
    ensures r.Some? ==> IsStripped(r.value) && ClassWord(r.value, NotDotOrBar)
    ensures r.Some? ==> r == DescriptionLocation(page.twitterDescription) || r == DescriptionLocation(page.ogDescription)
    ensures r.None? <==> DescriptionLocation(page.twitterDescription).None? && DescriptionLocation(page.ogDescription).None?
    ensures DescriptionLocation(page.twitterDescription).Some? ==> r == DescriptionLocation(page.twitterDescription)
    ensures DescriptionLocation(page.twitterDescription).None? ==> r == DescriptionLocation(page.ogDescription)
  {
    var first := DescriptionLocation(page.twitterDescription);
    if first.Some? then first else DescriptionLocation(page.ogDescription)
  }

  /** `adapter_workday`'s outcome: title from the first `h1`, location as
      `WorkdayLocation` says; never a company. */
  predicate WorkdayFilled(page: Page, out: map<string, string>) {
    AdapterKeys(out) && "company" !in out
    && FilledFrom(out, "title", page.firstH1)
    && FilledFrom(out, "location", WorkdayLocation(page))
  }

  /** `adapter_workday`: the loop over the two descriptions stops at the
      first that gives a location. */
  method AdapterWorkday(page: Page) returns (out: map<string, string>)
    ensures WorkdayFilled(page, out)
  {
    out := map[];
    if page.firstH1.Some? {
      out := out["title" := page.firstH1.value];
    }
    var base := out;
    var descs := [page.twitterDescription, page.ogDescription];
    var i := 0;
    while i < |descs|
      invariant 0 <= i <= |descs|
      invariant out == base
      invariant i >= 1 ==> DescriptionLocation(page.twitterDescription).None?
      invariant i >= 2 ==> DescriptionLocation(page.ogDescription).None?
    {
      var loc := DescriptionLocation(descs[i]);
      if loc.Some? {
        out := out["location" := loc.value];
        break;
      }
      i := i + 1;
    }
  }

  /** The part of a title before its first '|', stripped. */
  function TitleBeforeBar(t: string): (r: string)
    ensures IsStripped(r) && !Contains(r, "|")
    ensures exists n :: 0 <= n <= |t| && r == Strip(t[..n]) && (n == |t| || t[n] == '|')
                        && forall j :: 0 <= j < n ==> t[j] != '|'
    ensures !Contains(t, "|") ==> r == Strip(t)
  {
    var head := SplitOn(t, "|")[0];
    HeadBeforeBar(t);
    Strip(head)
  }

  /** The first part of a split on '|' is the prefix before the first '|'. */
  lemma HeadBeforeBar(t: string)
    ensures !Contains(Strip(SplitOn(t, "|")[0]), "|")
    ensures exists n :: 0 <= n <= |t| && SplitOn(t, "|")[0] == t[..n] && (n == |t| || t[n] == '|')
                        && forall j :: 0 <= j < n ==> t[j] != '|'
    ensures !Contains(t, "|") ==> SplitOn(t, "|")[0] == t
  {
    var head := SplitOn(t, "|")[0];
    if Contains(Strip(head), "|") {
      StripContains(head, "|");
    }
    var n := match IndexOf(t, "|") case Some(i) => i case None => |t|;
    assert head == t[..n];
    forall j | 0 <= j < n ensures t[j] != '|' {
      if t[j] == '|' { BarAt(t, j); }
    }
    if n < |t| {
      BarAt(t, n);
    }
  }

  lemma BarAt(t: string, j: nat)
    requires j < |t|
    ensures OccursAt(t, "|", j) <==> t[j] == '|'
  {
    assert t[j..j + 1] == [t[j]];
  }

  /** `adapter_linkedin`'s outcome: the title is the part of `og:title`
      before its first '|', set only when there is an `og:title`. */
  predicate LinkedInFilled(page: Page, out: map<string, string>) {
    AdapterKeys(out) && "company" !in out && "location" !in out
    && ("title" in out <==> ParseOpenGraph(page).0 != "")
    && ("title" in out ==> out["title"] == TitleBeforeBar(ParseOpenGraph(page).0))
  }

  method AdapterLinkedIn(page: Page) returns (out: map<string, string>)
    ensures LinkedInFilled(page, out)
  {
    out := map[];
    var (t, _) := ParseOpenGraph(page);
    if t != "" {
      out := out["title" := Strip(SplitOn(t, "|")[0])];
    }
  }

  /** The stripped parts that are not blank, in order. */
  function NonBlankParts(ps: seq<string>): (r: seq<string>)
    ensures |r| <= |ps|
    ensures forall k :: 0 <= k < |r| ==> r[k] != "" && IsStripped(r[k])
    ensures r == [] <==> forall j :: 0 <= j < |ps| ==> Strip(ps[j]) == ""
  {
    if ps == [] then []
    else
      var rest := NonBlankParts(ps[1..]);
      if Strip(ps[0]) != "" then [Strip(ps[0])] + rest else rest
  }

  /** Every part stripped. */
  function StripAll(ps: seq<string>): (qs: seq<string>)
    ensures |qs| == |ps| && forall j :: 0 <= j < |ps| ==> qs[j] == Strip(ps[j])
  {
    seq(|ps|, j requires 0 <= j < |ps| => Strip(ps[j]))
  }

  /** `r` is picked from `qs` at the increasing positions `idx`, and every
      non-empty element of `qs` is picked. */
  predicate Picks(qs: seq<string>, r: seq<string>, idx: seq<nat>) {
    && |idx| == |r|
    && (forall k :: 0 <= k < |idx| ==> idx[k] < |qs| && r[k] == qs[idx[k]])
    && (forall k, l :: 0 <= k < l < |idx| ==> idx[k] < idx[l])
    && (forall j :: 0 <= j < |qs| && qs[j] != "" ==> j in idx)
  }

  function Shift(idx: seq<nat>): (r: seq<nat>)
    ensures |r| == |idx| && forall k :: 0 <= k < |idx| ==> r[k] == idx[k] + 1
  {
    seq(|idx|, k requires 0 <= k < |idx| => idx[k] + 1)
  }

  /** An element in front moves every position one place on. */
  lemma PicksShifted(q: string, qs: seq<string>, r: seq<string>, idx: seq<nat>)
    requires Picks(qs, r, idx)
    ensures forall k :: 0 <= k < |idx| ==> Shift(idx)[k] < |qs| + 1 && r[k] == ([q] + qs)[Shift(idx)[k]]
    ensures forall k, l :: 0 <= k < l < |idx| ==> Shift(idx)[k] < Shift(idx)[l]
    ensures forall j :: 1 <= j < |qs| + 1 && ([q] + qs)[j] != "" ==> j in Shift(idx)
  {
    var all := [q] + qs;
    var sh := Shift(idx);
    forall j | 1 <= j < |all| && all[j] != "" ensures j in sh {
      assert all[j] == qs[j - 1];
      var k :| 0 <= k < |idx| && idx[k] == j - 1;
      assert sh[k] == j;
    }
  }

  /** An empty element in front is dropped. */
  lemma PicksSkip(qs: seq<string>, r: seq<string>, idx: seq<nat>)
    requires Picks(qs, r, idx)
    ensures Picks([""] + qs, r, Shift(idx))
  {
    PicksShifted("", qs, r, idx);
  }

  /** A non-empty element in front is picked first. */
  lemma PicksKeep(q: string, qs: seq<string>, r: seq<string>, idx: seq<nat>)
    requires Picks(qs, r, idx) && q != ""
    ensures Picks([q] + qs, [q] + r, [0] + Shift(idx))
  {
    PicksShifted(q, qs, r, idx);
    KeepPositions(q, qs, r, Shift(idx));
    KeepIncreasing(Shift(idx));
    KeepComplete(q, qs, Shift(idx));
  }

  lemma KeepPositions(q: string, qs: seq<string>, r: seq<string>, sh: seq<nat>)
    requires |sh| == |r| && forall k :: 0 <= k < |sh| ==> sh[k] < |qs| + 1 && r[k] == ([q] + qs)[sh[k]]
    ensures forall k :: 0 <= k < |sh| + 1 ==> ([0] + sh)[k] < |qs| + 1 && ([q] + r)[k] == ([q] + qs)[([0] + sh)[k]]
  {
    forall k | 0 < k < |sh| + 1 ensures ([0] + sh)[k] == sh[k - 1] && ([q] + r)[k] == r[k - 1] {
    }
  }

  lemma KeepIncreasing(sh: seq<nat>)
    requires (forall k :: 0 <= k < |sh| ==> sh[k] > 0) && forall k, l :: 0 <= k < l < |sh| ==> sh[k] < sh[l]
    ensures forall k, l :: 0 <= k < l < |sh| + 1 ==> ([0] + sh)[k] < ([0] + sh)[l]
  {
    forall k, l | 0 <= k < l < |sh| + 1 ensures ([0] + sh)[k] < ([0] + sh)[l] {
      assert ([0] + sh)[l] == sh[l - 1];
      if k > 0 { assert ([0] + sh)[k] == sh[k - 1]; }
    }
  }

  lemma KeepComplete(q: string, qs: seq<string>, sh: seq<nat>)
    requires forall j :: 1 <= j < |qs| + 1 && ([q] + qs)[j] != "" ==> j in sh
    ensures forall j :: 0 <= j < |qs| + 1 && ([q] + qs)[j] != "" ==> j in [0] + sh
  {
    forall j | 1 <= j < |qs| + 1 && ([q] + qs)[j] != "" ensures j in [0] + sh {
      assert j in sh;
    }
  }

  /** The non-blank parts are the stripped parts at increasing positions
      `idx`, and every part whose strip is not blank is among them: the
      blank parts are dropped and the others keep their order. */
  lemma {:induction false} NonBlankPartsOrder(ps: seq<string>) returns (idx: seq<nat>)
    ensures Picks(StripAll(ps), NonBlankParts(ps), idx)
  {
    if ps == [] {
      idx := [];
    } else {
      var tail := NonBlankPartsOrder(ps[1..]);
      var q := Strip(ps[0]);
      assert StripAll(ps) == [q] + StripAll(ps[1..]);
      if q != "" {
        PicksKeep(q, StripAll(ps[1..]), NonBlankParts(ps[1..]), tail);
        idx := [0] + Shift(tail);
      } else {
        PicksSkip(StripAll(ps[1..]), NonBlankParts(ps[1..]), tail);
        idx := Shift(tail);
      }
    }
  }

  /** The non-blank parts of `og:title` split on " - ". The first part is
      never blank, since the stripped title starts with a visible
      character. */
  function GenericParts(page: Page): (r: seq<string>)
    ensures forall k :: 0 <= k < |r| ==> r[k] != "" && IsStripped(r[k]) && !Contains(r[k], " - ")
    ensures ParseOpenGraph(page).0 == "" ==> r == []
    ensures ParseOpenGraph(page).0 != "" ==> r == NonBlankParts(SplitOn(ParseOpenGraph(page).0, " - "))
    ensures ParseOpenGraph(page).0 != "" ==> r != [] && r[0] == Strip(SplitOn(ParseOpenGraph(page).0, " - ")[0])
  {
    var t := ParseOpenGraph(page).0;
    if t == "" then []
    else
      var ps := SplitOn(t, " - ");
      NonBlankPartsAvoid(ps, " - ");
      FirstPartVisible(t);
      NonBlankParts(ps)
  }

  /** Stripping and dropping parts brings no occurrence of `sep` back. */
  lemma NonBlankPartsAvoid(ps: seq<string>, sep: string)
    requires forall j :: 0 <= j < |ps| ==> !Contains(ps[j], sep)
    ensures forall k :: 0 <= k < |NonBlankParts(ps)| ==> !Contains(NonBlankParts(ps)[k], sep)
  {
    var r := NonBlankParts(ps);
    var idx := NonBlankPartsOrder(ps);
    forall k | 0 <= k < |r| ensures !Contains(r[k], sep) {
      assert r[k] == StripAll(ps)[idx[k]] == Strip(ps[idx[k]]);
      if Contains(r[k], sep) {
        StripContains(ps[idx[k]], sep);
      }
    }
  }

  /** On a stripped, non-empty title, the part before the first " - " has
      a visible first character. */
  lemma FirstPartVisible(t: string)
    requires t != "" && IsStripped(t)
    ensures Strip(SplitOn(t, " - ")[0]) != ""
  {
    var p := SplitOn(t, " - ")[0];
    match IndexOf(t, " - ")
    case None =>
    case Some(i) =>
      assert p == t[..i];
      if i == 0 {
        assert false;
      }
      assert p[0] == t[0];
      assert LeadingSpaces(p) == 0;
  }

  /** The map the generic adapter fills from the non-blank parts of
      `og:title`: the first part is the title and the second the company;
      without parts, the `<title>` element gives the title. */
  predicate PartsFilled(parts: seq<string>, titleTag: Option<string>, out: map<string, string>) {
    AdapterKeys(out) && "location" !in out
    && ("company" in out <==> |parts| > 1)
    && ("company" in out ==> out["company"] == parts[1])
    && ("title" in out <==> parts != [] || titleTag.Some?)
    && (parts != [] ==> out["title"] == parts[0])
    && (parts == [] && titleTag.Some? ==> out["title"] == titleTag.value)
  }

  /** `adapter_generic`'s outcome, from `og:title` split on " - ". */
  predicate GenericFilled(page: Page, out: map<string, string>) {
    PartsFilled(GenericParts(page), page.titleTag, out)
  }

  /** The steps of `adapter_generic` after the split: title and company
      from the parts, then the `<title>` fallback when no title was set. */
  method FillGeneric(parts: seq<string>, titleTag: Option<string>) returns (out: map<string, string>)
    requires forall k :: 0 <= k < |parts| ==> parts[k] != ""
    ensures PartsFilled(parts, titleTag, out)
  {
    out := map[];
    if parts != [] {
      out := out["title" := parts[0]];
      if |parts| > 1 {
        out := out["company" := parts[1]];
      }
    }
    if !("title" in out && out["title"] != "") {
      if titleTag.Some? {
        out := out["title" := titleTag.value];
      }
    }
  }

  method AdapterGeneric(page: Page) returns (out: map<string, string>)
    ensures GenericFilled(page, out)
  {
    var (t, _) := ParseOpenGraph(page);
    var parts: seq<string> := [];
    if t != "" {
      parts := NonBlankParts(SplitOn(t, " - "));
    }
    assert parts == GenericParts(page);
    out := FillGeneric(parts, page.titleTag);
  }

  /** What the adapter `a` makes of the page. */
  predicate AdapterFilled(a: Adapter, page: Page, out: map<string, string>) {
    match a
    case Workday => WorkdayFilled(page, out)
    case Greenhouse => GreenhouseFilled(page, out)
    case Lever => LeverFilled(page, out)
    case LinkedIn => LinkedInFilled(page, out)
    case Generic => GenericFilled(page, out)
  }

  /** Runs the adapter `a`. Only Greenhouse and the generic adapter can
      name a company, and LinkedIn and the generic adapter never give a
      location. */
  method RunAdapter(a: Adapter, page: Page) returns (out: map<string, string>)
    ensures AdapterFilled(a, page, out)
    ensures AdapterKeys(out)
    ensures a == Workday || a == Lever || a == LinkedIn ==> "company" !in out
    ensures a == LinkedIn || a == Generic ==> "location" !in out
  {
    match a
    case Workday => out := AdapterWorkday(page);
    case Greenhouse => out := AdapterGreenhouse(page);
    case Lever => out := AdapterLever(page);
    case LinkedIn => out := AdapterLinkedIn(page);
    case Generic => out := AdapterGeneric(page);
  }
}

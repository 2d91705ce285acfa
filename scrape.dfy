/** What `scrape` does with a fetched page: run the adapter chosen from the
    URL's domain, default the title from `og:title`, decide the company
    between the adapter's guess and the resolver, record the resolver's
    answer under a diagnostic key, and clean the whitespace of every
    value. */
module Scrape {
  import opened Text
  import opened Inputs
  import opened Company
  import opened Adapters

  /** The diagnostic key holding the resolver's answer. */
  const ResolvedKey: string := "__resolved_company"

  /** The adapter `scrape` runs: the table's choice for the domain, or the
      generic adapter when the table has none. */
  function AdapterFor(domain: string): (a: Adapter)
    ensures ChooseAdapter(domain).Some? ==> a == ChooseAdapter(domain).value
    ensures (forall j :: 0 <= j < |AdapterTable| ==> !Contains(domain, AdapterTable[j].0)) ==> a == Generic
  {
    match ChooseAdapter(domain)
    case Some(a) => a
    case None => Generic
  }

  /** The title before cleaning: the adapter's when it set one (even an
      empty one), else the part of `og:title` before its first '|'. */
  function TitleDefault(adapterOut: map<string, string>, ogTitle: string): (r: string)
    ensures "title" in adapterOut ==> r == adapterOut["title"]
    ensures "title" !in adapterOut && ogTitle != "" ==> r == TitleBeforeBar(ogTitle)
    ensures "title" !in adapterOut && ogTitle == "" ==> r == ""
  {
    if "title" in adapterOut then adapterOut["title"]
    else if ogTitle != "" then TitleBeforeBar(ogTitle)
    else ""
  }

  /** A defaulted title is stripped and holds no '|'; it is the whole
      `og:title` when that has no '|'. */
  lemma TitleDefaultShape(adapterOut: map<string, string>, ogTitle: string)
    requires "title" !in adapterOut
    ensures IsStripped(TitleDefault(adapterOut, ogTitle)) && !Contains(TitleDefault(adapterOut, ogTitle), "|")
    ensures IsStripped(ogTitle) && !Contains(ogTitle, "|") ==> TitleDefault(adapterOut, ogTitle) == ogTitle
  {
  }

  /** The company before cleaning, from the adapter's company (or "")
      and the resolver's answer: the adapter's guess, stripped, is kept
      unless it is empty or a job board's name; then the resolver's answer
      is used. A board name from the adapter never survives. */
  function ChosenCompany(guessed: string, resolved: string): (r: string)
    ensures Strip(guessed) != "" && Lower(Strip(guessed)) !in GenericSites ==> r == Strip(guessed)
    ensures Strip(guessed) == "" || Lower(Strip(guessed)) in GenericSites ==> r == resolved
    ensures r == resolved || (r != "" && IsStripped(r) && Lower(r) !in GenericSites)
  {
    var guess := Strip(guessed);
    if guess == "" || Lower(guess) in GenericSites then resolved else guess
  }

  /** The map `scrape` returns, given the adapter's map, the stripped
      `og:title` and the resolver's answer: the adapter's keys plus the
      title, the company and the diagnostic key, every value cleaned. */
  predicate PostProcessed(adapterOut: map<string, string>, ogTitle: string, resolved: string, out: map<string, string>) {
    && out.Keys == adapterOut.Keys + {"title", "company", ResolvedKey}
    && out["title"] == Clean(TitleDefault(adapterOut, ogTitle))
    && out["company"] == Clean(ChosenCompany(GetOr(adapterOut, "company"), resolved))
    && out[ResolvedKey] == Clean(resolved)
    && ("location" in adapterOut ==> out["location"] == Clean(adapterOut["location"]))
  }

  /** The cleaning loop: every value is replaced by its cleaned form, one
      key at a time; the keys stay the same. */
  method CleanValues(m: map<string, string>) returns (r: map<string, string>)
    ensures r.Keys == m.Keys
    ensures forall k :: k in m ==> r[k] == Clean(m[k])
    ensures forall k :: k in r ==> IsClean(r[k])
  {
    r := m;
    var todo := m.Keys;
    while todo != {}
      invariant todo <= m.Keys
      invariant r.Keys == m.Keys
      invariant forall k :: k in todo ==> r[k] == m[k]
      invariant forall k :: k in m && k !in todo ==> r[k] == Clean(m[k])
      decreases todo
    {
      var k :| k in todo;
      r := r[k := Clean(r[k])];
      todo := todo - {k};
    }
  }

  /** The map before the cleaning loop: the title defaulted, the company
      decided, the diagnostic key added, everything else as the adapter
      left it. */
  predicate Prepared(adapterOut: map<string, string>, ogTitle: string, resolved: string, pre: map<string, string>) {
    && pre.Keys == adapterOut.Keys + {"title", "company", ResolvedKey}
    && pre["title"] == TitleDefault(adapterOut, ogTitle)
    && pre["company"] == ChosenCompany(GetOr(adapterOut, "company"), resolved)
    && pre[ResolvedKey] == resolved
    && ("location" in adapterOut ==> pre["location"] == adapterOut["location"])
  }

  /** Cleaning every value of the prepared map gives the post-processed
      one. */
  lemma CleanPrepared(adapterOut: map<string, string>, ogTitle: string, resolved: string, pre: map<string, string>, out: map<string, string>)
    requires Prepared(adapterOut, ogTitle, resolved, pre)
    requires out.Keys == pre.Keys && forall k :: k in pre ==> out[k] == Clean(pre[k])
    ensures PostProcessed(adapterOut, ogTitle, resolved, out)
  {
  }

  /** The steps of `scrape` between the adapter and the cleaning loop:
      `setdefault` of the title, the company decision, the diagnostic
      key. */
  method Prepare(adapterOut: map<string, string>, ogTitle: string, resolved: string) returns (out: map<string, string>)
    ensures Prepared(adapterOut, ogTitle, resolved, out)
  {
    var title := TitleDefault(adapterOut, ogTitle);
    var company := ChosenCompany(GetOr(adapterOut, "company"), resolved);
    out := adapterOut["title" := title]["company" := company][ResolvedKey := resolved];
  }

  /** The steps of `scrape` after the adapter has run. */
  method PostProcess(adapterOut: map<string, string>, ogTitle: string, resolved: string) returns (out: map<string, string>)
    ensures PostProcessed(adapterOut, ogTitle, resolved, out)
    ensures forall k :: k in out ==> IsClean(out[k])
  {
    var pre := Prepare(adapterOut, ogTitle, resolved);
    out := CleanValues(pre);
    CleanPrepared(adapterOut, ogTitle, resolved, pre, out);
  }

  /** What `scrape` returns for a fetched page: the adapter for the domain
      fills a map, which is post-processed with the page's `og:title` and
      the company resolver's answer. */
  ghost predicate Scraped(url: Url, page: Page, cfg: Config, out: map<string, string>) {
    exists adapterOut :: AdapterFilled(AdapterFor(ExtractDomain(url)), page, adapterOut)
                         && PostProcessed(adapterOut, ParseOpenGraph(page).0, ResolveCompany(url, page, cfg), out)
  }

  method Scrape(url: Url, page: Page, cfg: Config) returns (out: map<string, string>)
    ensures Scraped(url, page, cfg, out)
    ensures {"title", "company", ResolvedKey} <= out.Keys <= {"title", "company", "location", ResolvedKey}
    ensures forall k :: k in out ==> IsClean(out[k])
  {
    var domain := ExtractDomain(url);
    var chosen := ChooseAdapter(domain);
    var adapterOut;
    if chosen.Some? {
      adapterOut := RunAdapter(chosen.value, page);
    } else {
      adapterOut := RunAdapter(Generic, page);
    }
    assert AdapterFilled(AdapterFor(domain), page, adapterOut);
    var (ogTitle, _) := ParseOpenGraph(page);
    var resolved := ResolveCompany(url, page, cfg);
    out := PostProcess(adapterOut, ogTitle, resolved);
    AdapterKeysAfter(adapterOut, ogTitle, resolved, out);
  }

  /** The keys an adapter fills, plus the three `scrape` adds. */
  lemma AdapterKeysAfter(adapterOut: map<string, string>, ogTitle: string, resolved: string, out: map<string, string>)
    requires AdapterKeys(adapterOut) && PostProcessed(adapterOut, ogTitle, resolved, out)
    ensures {"title", "company", ResolvedKey} <= out.Keys <= {"title", "company", "location", ResolvedKey}
  {
    assert adapterOut.Keys <= {"title", "company", "location"};
  }

  /** The company is empty only when the resolver's answer is empty too, so
      a caller's fallback to the diagnostic key never finds anything new. */
  lemma {:induction false} EmptyCompanyMeansNothingResolved(adapterOut: map<string, string>, ogTitle: string, resolved: string, out: map<string, string>)
    requires PostProcessed(adapterOut, ogTitle, resolved, out)
    requires out["company"] == ""
    ensures out[ResolvedKey] == ""
  {
    var c := ChosenCompany(GetOr(adapterOut, "company"), resolved);
    if c != resolved {
      CleanKeepsVisible(c);
    }
  }

  /** On Workday, Lever and LinkedIn domains the company is always the
      resolver's: those adapters never name one. */
  lemma CompanyFromResolverOn(a: Adapter, page: Page, adapterOut: map<string, string>, ogTitle: string, resolved: string, out: map<string, string>)
    requires a == Workday || a == Lever || a == LinkedIn
    requires AdapterFilled(a, page, adapterOut)
    requires PostProcessed(adapterOut, ogTitle, resolved, out)
    ensures out["company"] == Clean(resolved) == out[ResolvedKey]
  {
  }
}

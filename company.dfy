/** Where the company name comes from: the JSON-LD job posting, the
    `og:site_name` tag (unless it names a job board), the board or tenant
    in the URL, and the chain that tries them in turn. */
module Company {
  import opened Text
  import opened Lookup
  import opened Inputs
  import opened Names
  import opened Patterns

  /** Site names that belong to job boards rather than employers. */
  const GenericSites: set<string> := {"workday", "linkedin", "greenhouse", "lever"}

  /** `parse_opengraph`: the stripped `og:title` and `og:site_name`. */
  function ParseOpenGraph(page: Page): (r: (string, string))
    ensures IsStripped(r.0) && IsStripped(r.1)
    ensures r.0 == Strip(page.ogTitle) && r.1 == Strip(page.ogSiteName)
    ensures IsStripped(page.ogTitle) ==> r.0 == page.ogTitle
    ensures IsStripped(page.ogSiteName) ==> r.1 == page.ogSiteName
  {
    (Strip(page.ogTitle), Strip(page.ogSiteName))
  }

  /** `extract_domain`: the registered domain and the public suffix,
      whichever are non-empty, joined by a dot. */
  function ExtractDomain(url: Url): (r: string)
    ensures r == "" <==> url.domainLabel == "" && url.suffix == ""
    ensures url.domainLabel != "" && url.suffix != "" ==> r == url.domainLabel + "." + url.suffix
    ensures url.domainLabel == "" || url.suffix == "" ==> r == url.domainLabel + url.suffix
  {
    var parts := (if url.domainLabel == "" then [] else [url.domainLabel]) + (if url.suffix == "" then [] else [url.suffix]);
    assert url.domainLabel != "" && url.suffix != "" ==>
             parts[1..] == [url.suffix] && JoinWith(parts, ".") == parts[0] + "." + JoinWith([url.suffix], ".");
    JoinWith(parts, ".")
  }

  /** A JSON-LD object that is a job posting, whose hiring organisation
      (under either spelling, the camel-case one first unless it is falsy)
      is an object with a non-empty name: that name. */
  function PostingName(c: LdCandidate): (r: Option<string>)
    ensures r.Some? ==> r.value != [] && c.LdObject? && c.atType.Some? && Lower(c.atType.value) == "jobposting"
    ensures (c.LdObject? && c.atType.Some? && Lower(c.atType.value) == "jobposting"
             && c.camelOrg.OrgObject? && c.camelOrg.name != "") ==> r == Some(c.camelOrg.name)
    ensures (c.LdObject? && c.atType.Some? && Lower(c.atType.value) == "jobposting"
             && c.camelOrg.OrgFalsy? && c.lowerOrg.OrgObject? && c.lowerOrg.name != "") ==> r == Some(c.lowerOrg.name)
    ensures c.LdObject? && (c.camelOrg.OrgNotObject? || (c.camelOrg.OrgObject? && c.camelOrg.name == "")) ==> r.None?
    ensures c.LdObject? && c.camelOrg.OrgFalsy? && !(c.lowerOrg.OrgObject? && c.lowerOrg.name != "") ==> r.None?
  {
    match c
    case NotObject => None
    case LdObject(atType, camelOrg, lowerOrg) =>
      if atType.Some? && Lower(atType.value) == "jobposting" then
        var org := if camelOrg.OrgFalsy? then lowerOrg else camelOrg;
        if org.OrgObject? && org.name != "" then Some(org.name) else None
      else None
  }

  function FirstPostingFrom(cands: seq<LdCandidate>, i: nat): (r: Option<nat>)
    requires i <= |cands|
    ensures r.Some? ==> i <= r.value < |cands| && PostingName(cands[r.value]).Some?
    ensures r.Some? ==> forall j :: i <= j < r.value ==> PostingName(cands[j]).None?
    ensures r.None? ==> forall j :: i <= j < |cands| ==> PostingName(cands[j]).None?
    decreases |cands| - i
  {
    if i == |cands| then None
    else if PostingName(cands[i]).Some? then Some(i)
    else FirstPostingFrom(cands, i + 1)
  }

  /** `company_from_jsonld`: the stripped organisation name of the first
      job posting (in document order) that names one; "" when none does.
      A name made only of whitespace gives "". */
  function CompanyFromJsonLd(cands: seq<LdCandidate>): (r: string)
    ensures IsStripped(r)
    ensures (forall j :: 0 <= j < |cands| ==> PostingName(cands[j]).None?) ==> r == ""
    ensures r != "" ==> exists i :: 0 <= i < |cands| && PostingName(cands[i]).Some? && r == Strip(PostingName(cands[i]).value)
                                    && forall j :: 0 <= j < i ==> PostingName(cands[j]).None?
    ensures forall i :: (0 <= i < |cands| && PostingName(cands[i]).Some?
                         && forall j :: 0 <= j < i ==> PostingName(cands[j]).None?) ==> r == Strip(PostingName(cands[i]).value)
  {
    match FirstPostingFrom(cands, 0)
    case None => ""
    case Some(i) => Strip(PostingName(cands[i]).value)
  }

  /** `company_from_meta`: the stripped `og:site_name`, unless it is, in
      lower case, the name of a job board. */
  function CompanyFromMeta(page: Page): (r: string)
    ensures Lower(r) !in GenericSites
    ensures r == "" || r == Strip(page.ogSiteName)
    ensures Lower(Strip(page.ogSiteName)) !in GenericSites ==> r == Strip(page.ogSiteName)
  {
    var name := Strip(page.ogSiteName);
    if Lower(name) !in GenericSites then name else ""
  }

  /** The host-to-company map's entry for the URL's host, or "". */
  function MappedCompany(url: Url, cfg: Config): string {
    GetOr(cfg.companyMap, url.hostname)
  }

  /** The candidates `resolve_company` tries, in order. */
  function CompanySources(url: Url, page: Page, cfg: Config): seq<string> {
    [ MappedCompany(url, cfg),
      CompanyFromJsonLd(page.jsonLd),
      CompanyFromMeta(page),
      CompanyFromUrlPattern(url.text),
      Capitalize(url.domainLabel) ]
  }

  /** `resolve_company`: the configured name for the host, else the JSON-LD
      organisation, else the site name, else the name in the URL, else the
      capitalised domain label. Each source is tried only when every
      earlier one gave "". */
  function ResolveCompany(url: Url, page: Page, cfg: Config): (r: string)
    ensures r == FirstNonEmpty(CompanySources(url, page, cfg))
    ensures MappedCompany(url, cfg) != "" ==> r == MappedCompany(url, cfg)
    ensures r == "" <==> forall k :: 0 <= k < 5 ==> CompanySources(url, page, cfg)[k] == ""
  {
    var mapped := MappedCompany(url, cfg);
    var fromLd := CompanyFromJsonLd(page.jsonLd);
    var fromMeta := CompanyFromMeta(page);
    var fromUrl := CompanyFromUrlPattern(url.text);
    var fromDomain := Capitalize(url.domainLabel);
    FirstOfFive(mapped, fromLd, fromMeta, fromUrl, fromDomain);
    if mapped != "" then mapped
    else if fromLd != "" then fromLd
    else if fromMeta != "" then fromMeta
    else if fromUrl != "" then fromUrl
    else if url.domainLabel != "" then fromDomain
    else ""
  }

  /** The fallback chain over five sources, unrolled. */
  lemma FirstOfFive(a: string, b: string, c: string, d: string, e: string)
    ensures FirstNonEmpty([a, b, c, d, e]) ==
              if a != "" then a else if b != "" then b else if c != "" then c else if d != "" then d else e
  {
    assert [a, b, c, d, e][1..] == [b, c, d, e];
    assert [b, c, d, e][1..] == [c, d, e];
    assert [c, d, e][1..] == [d, e];
    assert [d, e][1..] == [e];
    assert [e][1..] == [];
    assert FirstNonEmpty([e]) == e;
    assert FirstNonEmpty([d, e]) == if d != "" then d else e;
    assert FirstNonEmpty([c, d, e]) == if c != "" then c else FirstNonEmpty([d, e]);
    assert FirstNonEmpty([b, c, d, e]) == if b != "" then b else FirstNonEmpty([c, d, e]);
  }
}

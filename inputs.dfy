/** What the pipeline starts from, once the network, the HTML parser, the
    JSON decoder, the public-suffix lookup and the YAML loader have done
    their part: the parts of the job URL, the facts read off the fetched
    page, and the configuration. */
module Inputs {
  import opened Text

  /** A job URL together with what `urlparse` and `tldextract` make of it. */
  datatype Url = Url(
    text: string,         // the URL as given
    hostname: string,     // `urlparse(url).hostname or ""`
    domainLabel: string,  // `tldextract.extract(url).domain`
    suffix: string        // `tldextract.extract(url).suffix`
  )

  /** A `hiringOrganization` entry of a JSON-LD object. */
  datatype OrgValue =
    | OrgFalsy                // missing, or a falsy JSON value: null, false, 0, "", [], {}
    | OrgNotObject            // a truthy value that is not an object
    | OrgObject(name: string) // a non-empty object; `name` is "" when its name is missing or falsy

  /** One candidate from a JSON-LD script: the decoded value itself, or each
      element when it is a list. */
  datatype LdCandidate =
    | NotObject
    | LdObject(
        atType: Option<string>, // `@type` when it is a string
        camelOrg: OrgValue,     // `hiringOrganization`
        lowerOrg: OrgValue      // `hiringorganization`
      )

  /** The facts the scraper reads from a fetched page. A `content` attribute
      that is missing or empty is "". Element texts are already taken with
      surrounding whitespace stripped. */
  datatype Page = Page(
    ogTitle: string,                  // `og:title` content
    ogSiteName: string,               // `og:site_name` content
    twitterDescription: string,       // `twitter:description` content
    ogDescription: string,            // `og:description` content
    firstH1: Option<string>,          // the first `h1`
    titleTag: Option<string>,         // the `<title>` element
    greenhouseCompany: Option<string>,  // first company-name element
    greenhouseLocation: Option<string>, // first `.location` / `.location-and-id`
    leverHeader: Option<string>,      // first posting headline or `h1`
    leverLocation: Option<string>,    // first `.location`
    jsonLd: seq<LdCandidate>          // JSON-LD candidates in document order
  )

  /** The configuration file: host-to-company map, industry vocabulary,
      keyword rules and aliases (kept in file order), and defaults. */
  datatype Config = Config(
    companyMap: map<string, string>,
    industryAllowed: seq<string>,
    industryRules: map<string, seq<string>>,
    industryAliases: seq<(string, string)>,
    defaults: map<string, string>
  )

  /** `d.get(key, "")`. */
  function GetOr(m: map<string, string>, key: string): (r: string)
    ensures key in m ==> r == m[key]
    ensures key !in m ==> r == ""
  {
    if key in m then m[key] else ""
  }
}

/** The `add` command's record assembly: each column of the new sheet row
    is the command-line value when one was given, else what was scraped or
    resolved, else a configured default, else a computed guess, in the
    order of the sheet's header. */
module Row {
  import opened Text
  import opened Lookup
  import opened Inputs
  import opened Patterns
  import opened Period
  import opened Industry
  import opened Company
  import opened Adapters
  import opened Scrape

  /** The options of `add`. An option that was not given is "": the code
      treats a missing option and an empty one alike. */
  datatype Options = Options(
    source: string,
    status: string,
    industry: string,
    period: string,
    company: string,
    title: string,
    location: string,
    notes: string,
    contactPerson: string,
    contactEmail: string,
    contactPhone: string,
    nextFollowup: string,
    interviewDates: string,
    resumeVersion: string,
    coverLetterVersion: string,
    offerReceived: string,
    offerDetails: string,
    decisionMade: string
  )

  /** The company column: the option, else the scraped company, else the
      resolver's answer, stripped. */
  function RowCompany(opts: Options, meta: map<string, string>): (r: string)
    ensures IsStripped(r)
    ensures opts.company != "" ==> r == Strip(opts.company)
    ensures opts.company == "" && GetOr(meta, "company") != "" ==> r == Strip(GetOr(meta, "company"))
    ensures opts.company == "" && GetOr(meta, "company") == "" ==> r == Strip(GetOr(meta, ResolvedKey))
    ensures r != "" ==> opts.company != "" || GetOr(meta, "company") != "" || GetOr(meta, ResolvedKey) != ""
  {
    Strip(if opts.company != "" then opts.company
          else if GetOr(meta, "company") != "" then GetOr(meta, "company")
          else GetOr(meta, ResolvedKey))
  }

  /** The title column: the option, else the scraped title, stripped. */
  function RowTitle(opts: Options, meta: map<string, string>): (r: string)
    ensures IsStripped(r)
    ensures opts.title != "" ==> r == Strip(opts.title)
    ensures opts.title == "" ==> r == Strip(GetOr(meta, "title"))
  {
    Strip(if opts.title != "" then opts.title else GetOr(meta, "title"))
  }

  /** The industry column: the option normalised when that gives a label,
      else the classifier on the row's title and company and the URL. */
  function RowIndustry(opts: Options, title: string, company: string, url: string, cfg: Config): (r: string)
    ensures Strip(Lower(opts.industry)) != "" && FirstKey(cfg.industryAllowed, SameFolded, Strip(Lower(opts.industry))).Some? ==>
              r in cfg.industryAllowed && Lower(r) == Strip(Lower(opts.industry))
    ensures opts.industry == "" ==> r == ClassifyIndustry(title, company, url, cfg)
    ensures NormalizeIndustry(opts.industry, cfg.industryAllowed, cfg.industryAliases) != "" ==>
              r == NormalizeIndustry(opts.industry, cfg.industryAllowed, cfg.industryAliases)
    ensures NormalizeIndustry(opts.industry, cfg.industryAllowed, cfg.industryAliases) == "" ==>
              r == ClassifyIndustry(title, company, url, cfg)
    ensures AliasesAllowed(cfg) ==> r == "" || r in cfg.industryAllowed
  {
    var given := NormalizeIndustry(opts.industry, cfg.industryAllowed, cfg.industryAliases);
    if given != "" then given else ClassifyIndustry(title, company, url, cfg)
  }

  /** The period column: the option capitalised, else what the detector
      finds in the scraped title, the URL and the notes, else the season
      of the current month. Never empty. */
  function RowPeriod(opts: Options, rawTitle: string, url: string, month: int): (r: string)
    requires 1 <= month <= 12
    ensures r != ""
    ensures opts.period != "" ==> r == Capitalize(opts.period)
    ensures opts.period == "" ==> IsPeriod(r)
    ensures opts.period == "" && DetectPeriodFromText([rawTitle, url, opts.notes]) != "" ==>
              r == DetectPeriodFromText([rawTitle, url, opts.notes])
    ensures opts.period == "" && DetectPeriodFromText([rawTitle, url, opts.notes]) == "" ==>
              r == MonthToSeason(month)
  {
    if opts.period != "" then Capitalize(opts.period)
    else
      var found := DetectPeriodFromText([rawTitle, url, opts.notes]);
      if found != "" then found else GuessPeriod(month)
  }

  /** `args.x or cfg["defaults"].get(key, "")` for the source and status
      columns. */
  function OptionOrDefault(given: string, cfg: Config, key: string): (r: string)
    ensures given != "" ==> r == given
    ensures given == "" ==> r == GetOr(cfg.defaults, key)
  {
    if given != "" then given else GetOr(cfg.defaults, key)
  }

  /** The values of one sheet row, one per column of `Headers`. */
  datatype Record = Record(
    aid: string, date: string, company: string, industry: string, title: string,
    period: string, link: string, contactPerson: string, contactEmail: string,
    contactPhone: string, source: string, status: string, nextFollowup: string,
    interviewDates: string, notes: string, resumeVersion: string,
    coverLetterVersion: string, offerReceived: string, offerDetails: string,
    decisionMade: string
  )

  /** The sheet's columns, one per header name. */
  datatype Header =
    | Aid | DateApplied | CompanyName | IndustrySector | PositionTitle
    | RecruitingPeriod | ApplicationLink | ContactPerson | ContactEmail
    | ContactPhone | SourceChannel | ApplicationStatus | NextFollowup
    | InterviewDates | NotesObservations | ResumeVersion | CoverLetterVersion
    | OfferReceived | OfferDetails | DecisionMade

  /** `FIELDS`: the columns in the order of the sheet's header row, each
      headed by its `HeaderName`. */
  const Headers: seq<Header> := [
    Aid, DateApplied, CompanyName, IndustrySector, PositionTitle,
    RecruitingPeriod, ApplicationLink, ContactPerson, ContactEmail,
    ContactPhone, SourceChannel, ApplicationStatus, NextFollowup,
    InterviewDates, NotesObservations, ResumeVersion, CoverLetterVersion,
    OfferReceived, OfferDetails, DecisionMade
  ]

  /** The name the sheet's header gives a column. */
  function HeaderName(h: Header): string {
    match h
    case Aid => "AID"
    case DateApplied => "Date"
    case CompanyName => "Company Name"
    case IndustrySector => "Industry / Sector"
    case PositionTitle => "Position Title"
    case RecruitingPeriod => "Period"
    case ApplicationLink => "Application Link"
    case ContactPerson => "Contact Person"
    case ContactEmail => "Contact Email"
    case ContactPhone => "Contact Phone"
    case SourceChannel => "Source (Job Board / Referral / Career Fair)"
    case ApplicationStatus => "Application Status"
    case NextFollowup => "Next Follow-up Date"
    case InterviewDates => "Interview Dates"
    case NotesObservations => "Notes / Observations"
    case ResumeVersion => "Resume Version Used"
    case CoverLetterVersion => "Cover Letter Version Used"
    case OfferReceived => "Offer Received (Y/N)"
    case OfferDetails => "Offer Details"
    case DecisionMade => "Decision Made (Y/N)"
  }

  /** Every column is in `Headers`. */
  lemma HeadersComplete(h: Header)
    ensures h in Headers
  {
  }

  /** No column is in `Headers` twice. */
  lemma HeadersDistinct()
    ensures forall i, j :: 0 <= i < j < |Headers| ==> Headers[i] != Headers[j]
  {
  }

  /** Distinct columns have distinct header names, so pairing the header
      names with a row's cells gives one entry per column. */
  lemma HeaderNamesDistinct(h: Header, g: Header)
    requires h != g
    ensures HeaderName(h) != HeaderName(g)
  {
  }

  /** The value a record holds in a column. */
  function Column(r: Record, h: Header): string {
    match h
    case Aid => r.aid
    case DateApplied => r.date
    case CompanyName => r.company
    case IndustrySector => r.industry
    case PositionTitle => r.title
    case RecruitingPeriod => r.period
    case ApplicationLink => r.link
    case ContactPerson => r.contactPerson
    case ContactEmail => r.contactEmail
    case ContactPhone => r.contactPhone
    case SourceChannel => r.source
    case ApplicationStatus => r.status
    case NextFollowup => r.nextFollowup
    case InterviewDates => r.interviewDates
    case NotesObservations => r.notes
    case ResumeVersion => r.resumeVersion
    case CoverLetterVersion => r.coverLetterVersion
    case OfferReceived => r.offerReceived
    case OfferDetails => r.offerDetails
    case DecisionMade => r.decisionMade
  }

  /** The record's values in the order of the header row: the `i`-th cell
      is the record's value in the column `Headers[i]`. */
  function Cells(r: Record): (cells: seq<string>)
    ensures |cells| == |Headers|
    ensures forall i :: 0 <= i < |Headers| ==> cells[i] == Column(r, Headers[i])
  {
    [ r.aid, r.date, r.company, r.industry, r.title, r.period, r.link,
      r.contactPerson, r.contactEmail, r.contactPhone, r.source, r.status,
      r.nextFollowup, r.interviewDates, r.notes, r.resumeVersion,
      r.coverLetterVersion, r.offerReceived, r.offerDetails, r.decisionMade ]
  }

  /** The record `add` appends, from the URL, the options, the scraped
      metadata (empty when the scrape failed), the configuration, the
      formatted current time and the current month. */
  function RecordOf(url: string, opts: Options, meta: map<string, string>, cfg: Config, dateApplied: string, month: int): (r: Record)
    requires 1 <= month <= 12
    ensures r.link == url && r.date == dateApplied && r.notes == opts.notes
    ensures r.aid == FindIdFromUrl(url)
    ensures r.company == RowCompany(opts, meta) && r.title == RowTitle(opts, meta)
    ensures r.industry == RowIndustry(opts, r.title, r.company, url, cfg)
    ensures r.period == RowPeriod(opts, GetOr(meta, "title"), url, month)
    ensures r.source == OptionOrDefault(opts.source, cfg, "source") && r.status == OptionOrDefault(opts.status, cfg, "status")
    ensures r.contactPerson == opts.contactPerson && r.contactEmail == opts.contactEmail && r.contactPhone == opts.contactPhone
    ensures r.nextFollowup == opts.nextFollowup && r.interviewDates == opts.interviewDates
    ensures r.resumeVersion == opts.resumeVersion && r.coverLetterVersion == opts.coverLetterVersion
    ensures r.offerReceived == opts.offerReceived && r.offerDetails == opts.offerDetails && r.decisionMade == opts.decisionMade
  {
    var company := RowCompany(opts, meta);
    var title := RowTitle(opts, meta);
    Record(
      FindIdFromUrl(url), dateApplied, company,
      RowIndustry(opts, title, company, url, cfg), title,
      RowPeriod(opts, GetOr(meta, "title"), url, month), url,
      opts.contactPerson, opts.contactEmail, opts.contactPhone,
      OptionOrDefault(opts.source, cfg, "source"), OptionOrDefault(opts.status, cfg, "status"),
      opts.nextFollowup, opts.interviewDates, opts.notes,
      opts.resumeVersion, opts.coverLetterVersion,
      opts.offerReceived, opts.offerDetails, opts.decisionMade)
  }

  /** Builds the row: each column's fallback chain is evaluated in the
      order `add` evaluates it, the industry and the period after the
      company and the title they depend on. */
  method AssembleRow(url: string, opts: Options, meta: map<string, string>, cfg: Config, dateApplied: string, month: int)
    returns (row: seq<string>)
    requires 1 <= month <= 12
    ensures |row| == |Headers|
    ensures row == Cells(RecordOf(url, opts, meta, cfg, dateApplied, month))
  {
    var company := RowCompany(opts, meta);
    var title := RowTitle(opts, meta);
    var industry := RowIndustry(opts, title, company, url, cfg);
    var period := RowPeriod(opts, GetOr(meta, "title"), url, month);
    var aid := FindIdFromUrl(url);
    var source := OptionOrDefault(opts.source, cfg, "source");
    var status := OptionOrDefault(opts.status, cfg, "status");
    row := [
      aid, dateApplied, company, industry, title, period, url,
      opts.contactPerson, opts.contactEmail, opts.contactPhone,
      source, status,
      opts.nextFollowup, opts.interviewDates, opts.notes,
      opts.resumeVersion, opts.coverLetterVersion,
      opts.offerReceived, opts.offerDetails, opts.decisionMade
    ];
  }

  /** The period column is never empty, and without an option it is one of
      the four seasons. */
  lemma PeriodColumn(url: string, opts: Options, meta: map<string, string>, cfg: Config, dateApplied: string, month: int)
    requires 1 <= month <= 12
    ensures var r := RecordOf(url, opts, meta, cfg, dateApplied, month);
            r.period != "" && (opts.period == "" ==> IsPeriod(r.period))
  {
  }

  /** The industry column stays inside the configured vocabulary when the
      aliases do. */
  lemma IndustryColumn(url: string, opts: Options, meta: map<string, string>, cfg: Config, dateApplied: string, month: int)
    requires 1 <= month <= 12 && AliasesAllowed(cfg)
    ensures var r := RecordOf(url, opts, meta, cfg, dateApplied, month);
            r.industry == "" || r.industry in cfg.industryAllowed
  {
  }

  /** The AID column is a requisition id, a number, a long slug, or "". */
  lemma IdColumn(url: string, opts: Options, meta: map<string, string>, cfg: Config, dateApplied: string, month: int)
    requires 1 <= month <= 12
    ensures var r := RecordOf(url, opts, meta, cfg, dateApplied, month);
            r.aid == "" || IsRequisitionId(r.aid) || (r.aid != [] && ClassWord(r.aid, Digit))
            || (|r.aid| >= 8 && ClassWord(r.aid, SlugChar))
  {
  }

  /** After a failed scrape only the options decide the company and the
      title, and the period comes from the URL and the notes alone. */
  lemma FailedScrapeColumns(url: string, opts: Options, cfg: Config, dateApplied: string, month: int)
    requires 1 <= month <= 12
    ensures var r := RecordOf(url, opts, map[], cfg, dateApplied, month);
            r.company == Strip(opts.company) && r.title == Strip(opts.title)
            && r.period == RowPeriod(opts, "", url, month)
  {
  }

  /** On a scraped page the resolver's answer never fills the company column
      when the scraped company is empty: both are empty then. */
  lemma {:induction false} ResolvedFallbackRedundant(url: Url, page: Page, cfg: Config, meta: map<string, string>, opts: Options)
    requires Scraped(url, page, cfg, meta)
    ensures RowCompany(opts, meta) == Strip(if opts.company != "" then opts.company else meta["company"])
  {
    var adapterOut :| AdapterFilled(AdapterFor(ExtractDomain(url)), page, adapterOut)
                      && PostProcessed(adapterOut, ParseOpenGraph(page).0, ResolveCompany(url, page, cfg), meta);
    if meta["company"] == "" {
      EmptyCompanyMeansNothingResolved(adapterOut, ParseOpenGraph(page).0, ResolveCompany(url, page, cfg), meta);
    }
  }

  /** `add` up to the append: a page that could not be fetched gives no
      metadata, and the row is assembled either way. */
  method AddJob(url: Url, opts: Options, fetched: Option<Page>, cfg: Config, dateApplied: string, month: int)
    returns (row: seq<string>)
    requires 1 <= month <= 12
    ensures |row| == |Headers|
    ensures fetched.None? ==> row == Cells(RecordOf(url.text, opts, map[], cfg, dateApplied, month))
    ensures fetched.Some? ==> exists meta :: Scraped(url, fetched.value, cfg, meta)
                                             && row == Cells(RecordOf(url.text, opts, meta, cfg, dateApplied, month))
  {
    var meta: map<string, string> := map[];
    if fetched.Some? {
      meta := Scrape.Scrape(url, fetched.value, cfg);
    }
    row := AssembleRow(url.text, opts, meta, cfg, dateApplied, month);
  }
}

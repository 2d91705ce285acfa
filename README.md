# Job-posting metadata and tracking-row model

A Dafny model of the metadata pipeline of the `add` command of the job
tracker (`app.py`): from a job URL and the facts already parsed out of the
posting's page, it picks a site adapter, fills title, company and location,
resolves the employer through a chain of sources, cleans every value, and
assembles the 20-column row appended to the tracking sheet, with each
column's fallback chain (command-line option, scraped value, resolved or
configured default, computed guess).

Modules, one per part of `app.py`:

- `Text`: the string primitives the code leans on: `lower`, `capitalize`,
  `strip`, `split`, `split(sep)`, `" ".join`, substring tests, and the
  `re.sub(r"\s+", " ", v).strip()` cleaning.
- `Names`: `slug_to_name`.
- `Lookup`: the ordered "first key that passes a test" searches, the
  `a or b or ...` chain.
- `Inputs`: the URL parts, the parsed page and the configuration, which are
  given to the model as values.
- `Patterns`: the regular expressions as explicit scanners (a leftmost
  search over a per-position matcher that follows the engine's
  backtracking where it changes the capture), `find_id_from_url`,
  `company_from_url_pattern`.
- `Period`: `month_to_season`, `guess_period`, `detect_period_from_text`.
- `Industry`: `choose_first_match`, `normalize_industry`,
  `classify_industry`, `infer_industry`.
- `Company`: `parse_opengraph`, `extract_domain`, `company_from_jsonld`,
  `company_from_meta`, `resolve_company`.
- `Adapters`: the five adapters (methods that fill a map step by step,
  each proved against a predicate describing its outcome), `ADAPTERS` and
  `choose_adapter`.
- `Scrape`: the part of `scrape` after the page is fetched: the adapter
  run, the title default from `og:title`, the company decision, the
  diagnostic key `__resolved_company`, and the cleaning loop over every
  value.
- `Row`: the row-building part of `main`.

Notable consequences proved about the code as written:

- The resolver fallback in `main` (`args.company or raw_company or
  resolved_company`) never contributes anything on a scraped page: when
  the scraped company is empty, the resolver's answer is empty too
  (`Row.ResolvedFallbackRedundant`).
- On Workday, Lever and LinkedIn pages the company is always the resolver's
  (`Scrape.CompanyFromResolverOn`).
- `main` computes a location from the option and the scraped value, but no
  column of the row holds it. The model keeps the `location` option and the
  scraped location, and the row ignores them too.

## Model

| member | source | states |
|---|---|---|
| Text.Strip | app.py:471 | `str.strip()`: the result has no whitespace at either end, is the slice of the input just after its leading whitespace, everything after that slice is whitespace, and a stripped input is returned unchanged |
| Text.StripUnique | app.py:471 | whitespace before `x`, whitespace from `y` on and visible characters at both ends of `s[x..y]` determine `strip(s) == s[x..y]` |
| Text.StripSpaceCons | app.py:482 | a leading space does not change what `strip` returns |
| Text.StripWordCons | app.py:482 | stripping a word, a space and a text that starts visibly strips only the end of that text |
| Text.SplitOn | app.py:407 | `str.split(sep)`: at least one part; no part contains the separator; one part exactly when the separator does not occur, and otherwise the first part ends at its leftmost occurrence |
| Text.SplitOnLeftmost | app.py:407 | every part but the last ends at the leftmost occurrence of the separator in the rest of the text |
| Text.SplitOnJoin | app.py:407 | joining the parts of `split(sep)` with `sep` gives the input back |
| Text.SplitWs | app.py:306 | `str.split()`: every part is a non-empty run of non-whitespace |
| Text.SplitWsGaps | app.py:306 | the text is its `split()` words, in order, interleaved with all-whitespace gaps, the inner gaps non-empty, so the words are the maximal non-whitespace runs |
| Text.SplitWsSkip | app.py:306 | leading whitespace does not change `split()` |
| Text.Clean | app.py:482 | `re.sub(r"\s+", " ", v).strip()`: no whitespace at the ends, only single plain spaces inside, and a value already in that form is unchanged |
| Text.CleanIdempotent | app.py:479-482 | cleaning a cleaned value changes nothing |
| Text.CleanKeepsVisible | app.py:482 | a value whose first character is not whitespace does not clean to "" |
| Text.CleanJoinsWords | app.py:482 | `re.sub(r"\s+", " ", v).strip()` equals `" ".join(v.split())` |
| Text.ReplaceRunsWord | app.py:482 | the characters of a leading word pass through the run replacement unchanged |
| Names.SlugToName | app.py:304-306 | only ASCII letters, digits and single inner spaces, every word capitalised (upper-case first letter, lower-case rest), and equal ignoring case to the slug with every non-alphanumeric run made one space and the ends trimmed |
| Names.SpacedIsWellSpaced | app.py:305 | replacing non-alphanumeric runs by one space and stripping leaves only letters, digits and single inner spaces |
| Names.SplitJoinWellSpaced | app.py:305-306 | on such a string, `" ".join(s.split())` is the string itself |
| Names.SplitWellSpacedAlnum | app.py:305-306 | on such a string every word of `split()` is alphanumeric |
| Names.JoinCapitalizedShape | app.py:306 | joining capitalised alphanumeric words with spaces gives a well-spaced, title-cased name, non-empty when there is a word |
| Names.LowerJoinCapitalized | app.py:306 | capitalising the words changes the joined name only in letter case |
| Lookup.FirstKey | app.py:245-253 | the index of the first key that passes the test, with no earlier key passing; none exactly when no key passes |
| Lookup.FirstValue | app.py:427-431 | the value of the first passing pair; none exactly when no key passes |
| Lookup.FirstValueAt | app.py:427-431 | the pair at the first passing index gives the answer |
| Lookup.FirstNonEmpty | app.py:497-520 | an `a or b or ...` chain over strings: "" exactly when all are "", otherwise the first non-empty one |
| Patterns.Search | app.py:285 | `re.search`: a match exists exactly when the pattern matches at some position; the capture is the one at the leftmost matching position, and has the pattern's group shape |
| Patterns.SearchFrom | app.py:285 | the first position at or after the start where the pattern matches, with no match before it |
| Patterns.RequisitionAt | app.py:285 | a Workday requisition match starts either with '_' or '-' followed by 'R' or 'r', or at a word boundary on 'R' or 'r', and captures at least three digits |
| Patterns.DigitRunIsWhole | app.py:285 | the captured digits are the whole digit run: backtracking cannot find a shorter terminated run |
| Patterns.JobsNumberAt | app.py:289 | a `/jobs/<digits>` match starts with `/jobs/` and captures one or more digits |
| Patterns.JobsSlugFrom | app.py:293 | a match through the alternatives from the given one on starts with one of those prefixes, ignoring case, and captures at least eight slug characters |
| Patterns.JobsSlugAt | app.py:293 | a match starts with `/jobs/`, `/job/` or `/postings/`, ignoring case, and captures at least eight slug characters |
| Patterns.BoardAt | app.py:336-339 | a Greenhouse or Lever board match starts with the board host and captures a non-empty segment without '/' |
| Patterns.TenantAfter | app.py:342 | the tenant is the non-empty run of slug characters at the given position, followed by `.wd` |
| Patterns.WorkdayTenantAt | app.py:342 | a Workday tenant match starts with `https://` or `http://` and captures a non-empty run of slug characters |
| Patterns.LocationAt | app.py:396 | a match starts with `location:`, ignoring case, and captures a non-empty run without '.' or '\|' |
| Patterns.FindIdFromUrl | app.py:283-296 | the requisition pattern wins and gives "R" and three or more digits; else the `/jobs/` number; else the slug; "" exactly when no pattern matches |
| Patterns.CompanyFromUrlPattern | app.py:335-345 | the Greenhouse board, else the Lever board, else the Workday tenant, turned into a name by `slug_to_name`; "" when none matches; always well-spaced and title-cased |
| Period.MonthToSeason | app.py:129-136 | months 1-4 are "Spring", 5-8 "Summer", 9-12 "Fall", anything else ""; never "Winter" |
| Period.GuessPeriod | app.py:274-275 | the season `month_to_season` gives the current month: never empty and never "Winter" |
| Period.FirstSeasonFrom | app.py:141-145 | the first season of the table with a keyword in the text, none before it |
| Period.MonthGuess | app.py:161-170 | the month stage yields only "", "Spring", "Summer" or "Fall" |
| Period.DetectPeriodFromText | app.py:139-171 | the result is "" or one of the four seasons |
| Period.SeasonNames | app.py:118-123 | capitalising the table's season keys gives "Spring", "Summer", "Fall", "Winter" in that order |
| Period.KeywordWins | app.py:139-145 | the first season (in table order) with a keyword in the text decides, whatever month tokens occur |
| Period.NoKeywordMonthStage | app.py:147-171 | without a keyword the month stage decides; it never gives "Winter", and gives "" exactly when no month abbreviation occurs |
| Period.MonthGuessEmpty | app.py:161-171 | the month stage gives "" exactly when no month abbreviation occurs |
| Period.MonthBuckets | app.py:161-170 | without a keyword: a summer month gives "Summer", else a spring month "Spring", else a fall month "Fall", else jan/feb "Spring" |
| Industry.FirstLabelFrom | app.py:233-237 | the first allowed label, in list order, with a keyword in the lower-cased text |
| Industry.ChooseFirstMatch | app.py:231-238 | the earliest allowed label (in list order) with a keyword in the lower-cased text is the result; "" when no label has one |
| Industry.NormalizeIndustry | app.py:241-254 | "" for empty input; on the lower-cased stripped input, the first allowed label equal ignoring case (in its canonical spelling), else the target of the first alias equal to it, else the target of the first alias it contains, else "" |
| Industry.ExactLabelBeforeAlias | app.py:245-248 | the first allowed label equal ignoring case to the input wins before any alias is looked at |
| Industry.ClassifyIndustry | app.py:257-266 | the keyword rules' label when they find one; only otherwise the normalisation of title and company |
| Industry.ClassifyWithinAllowed | app.py:257-266 | with aliases that point at allowed labels, the result is "" or allowed |
| Industry.InferIndustry | app.py:487-494 | "" for empty text; otherwise the label of the first key contained in the lower-cased text, "" when none is |
| Company.ParseOpenGraph | app.py:350-356 | the pair is `og:title` and `og:site_name`, each passed through `strip` |
| Company.ExtractDomain | app.py:278-280 | the domain label and the suffix, each only when non-empty, joined by a dot; "" exactly when both are empty |
| Company.PostingName | app.py:319-322 | a job-posting object gives the name of `hiringOrganization` when that is an object with a non-empty name; when it is falsy, that of `hiringorganization`; anything else gives none |
| Company.FirstPostingFrom | app.py:310-322 | the first candidate, in document order, that names a hiring organisation |
| Company.CompanyFromJsonLd | app.py:309-323 | the stripped name of the first candidate, in document order, that names a hiring organisation; "" when none does |
| Company.CompanyFromMeta | app.py:326-332 | never a job board's name (ignoring case); otherwise the stripped site name |
| Company.ResolveCompany | app.py:497-520 | the first non-empty of host map, JSON-LD, site name, URL pattern and capitalised domain label; the host map wins whenever it has an entry; "" exactly when all five are "" |
| Company.FirstOfFive | app.py:497-520 | the five-source chain equals its unrolled `if` cascade |
| Adapters.ChooseAdapter | app.py:427-444 | the adapter of the first `ADAPTERS` key contained in the domain; none exactly when no key is contained |
| Adapters.WorkdayDomainFirst | app.py:435 | a domain containing `myworkdayjobs.com` always selects the Workday adapter |
| Adapters.AdapterGreenhouse | app.py:359-370 | title, company and location are set exactly when their elements exist, to their text, and nothing else |
| Adapters.AdapterLever | app.py:373-381 | title and location are set exactly when their elements exist; no company |
| Adapters.DescriptionLocation | app.py:394-398 | a location exactly when the description is non-empty and `Location:` matches it after its whitespace runs are made single spaces; the location is the stripped capture, with no '.' or '\|' |
| Adapters.WorkdayLocation | app.py:388-399 | the `twitter:description` location whenever there is one, otherwise the `og:description` one; none exactly when neither gives one |
| Adapters.AdapterWorkday | app.py:384-400 | the title from the first `h1`; the location from the first description that gives one, the loop stopping there; no company |
| Adapters.TitleBeforeBar | app.py:407 | the stripped text before the first '\|' (the whole text when there is none), with no '\|' in it |
| Adapters.HeadBeforeBar | app.py:407 | the first part of `split("\|")` is the prefix up to the first '\|' |
| Adapters.AdapterLinkedIn | app.py:403-408 | a title, from the `og:title` before its first '\|', exactly when `og:title` is non-empty; nothing else |
| Adapters.NonBlankParts | app.py:415 | no more parts than given, each non-empty and stripped; empty exactly when every part strips to "" (their order is `NonBlankPartsOrder`) |
| Adapters.NonBlankPartsOrder | app.py:415 | the kept parts are the stripped parts at strictly increasing positions, and every part that does not strip to "" is kept |
| Adapters.NonBlankPartsAvoid | app.py:415 | stripping and dropping parts brings no separator back |
| Adapters.GenericParts | app.py:412-415 | no parts without `og:title`; otherwise the non-blank stripped parts of `og:title` split on " - ", never empty, the first being the stripped text before the first " - ", none containing " - " |
| Adapters.FirstPartVisible | app.py:414-416 | a non-empty stripped `og:title` has a non-blank first part |
| Adapters.FillGeneric | app.py:416-423 | first part as title and second as company; the `<title>` text when no non-empty title was set; no location |
| Adapters.AdapterGeneric | app.py:411-424 | the generic outcome for the page: the parts of its `og:title` filled in as above |
| Adapters.RunAdapter | app.py:461 | the chosen adapter's outcome; only title, company and location keys; no company from Workday, Lever or LinkedIn; no location from LinkedIn or the generic adapter |
| Scrape.AdapterFor | app.py:460-461 | the table's adapter for the domain, and the generic one when no key matches |
| Scrape.TitleDefault | app.py:463-465 | an adapter title (even "") is kept; otherwise the stripped part of `og:title` before its first '\|', or "" without `og:title` |
| Scrape.TitleDefaultShape | app.py:463-465 | a defaulted title is stripped and has no '\|'; it is `og:title` itself when that has no '\|' |
| Scrape.ChosenCompany | app.py:471-475 | the stripped guess when it is non-empty and not a job board's name (ignoring case); otherwise the resolver's answer; a board name never survives |
| Scrape.Prepare | app.py:463-477 | before cleaning: the adapter's keys plus title, company and diagnostic key, with the defaulted title, the decided company and the resolver's answer; location untouched |
| Scrape.CleanValues | app.py:479-482 | the same keys, each value replaced by its cleaned form, so every value is clean |
| Scrape.CleanPrepared | app.py:479-482 | cleaning the prepared map gives the post-processed map |
| Scrape.PostProcess | app.py:463-482 | the adapter's map post-processed: keys, title, company, diagnostic key and location as described, every value clean |
| Scrape.Scrape | app.py:458-484 | some outcome of the domain's adapter post-processed with the page's `og:title` and the resolver's answer; keys between {title, company, diagnostic} and those plus location; every value clean |
| Scrape.AdapterKeysAfter | app.py:461-477 | after post-processing the keys are title, company, the diagnostic key and possibly location |
| Scrape.EmptyCompanyMeansNothingResolved | app.py:471-477 | when the cleaned company is "", the cleaned resolver answer is "" too |
| Scrape.CompanyFromResolverOn | app.py:471-477 | on Workday, Lever and LinkedIn pages the company equals the diagnostic key |
| Row.RowCompany | app.py:604-608 | stripped; the option wins; else the scraped company; else the diagnostic resolver's answer; a non-empty result comes from one of the three |
| Row.RowTitle | app.py:603-609 | stripped; the option, else the scraped title |
| Row.RowIndustry | app.py:615-622 | the normalised option whenever it is non-empty; otherwise the classifier on title, company and URL; with allowed aliases, "" or allowed |
| Row.RowPeriod | app.py:625-629 | never ""; the option capitalised; else the detector's season; else the month's season |
| Row.OptionOrDefault | app.py:633-634 | the option, else the configured default (or "") |
| Row.Cells | app.py:636-657 | one value per column of `FIELDS`, the `i`-th being the record's value in the `i`-th column |
| Row.HeadersComplete | app.py:95-116 | every column is among the 20 of `FIELDS` |
| Row.HeadersDistinct | app.py:95-116 | no column appears twice in `FIELDS` |
| Row.HeaderNamesDistinct | app.py:95-116 | distinct columns have distinct header names, so the header row zipped with the cells has no missing or extra keys |
| Row.RecordOf | app.py:603-657 | every column: AID from the URL, the date, company and title by their chains, industry from the option or the classifier on that title and company, period by its chain, link, source and status with their defaults, and every other column the option as given |
| Row.AssembleRow | app.py:636-657 | 20 values, equal to the record's cells in `FIELDS` order |
| Row.PeriodColumn | app.py:625-629 | the period column is never empty, and is a season without the option |
| Row.IndustryColumn | app.py:615-622 | with allowed aliases the industry column is "" or an allowed label |
| Row.IdColumn | app.py:631 | the AID column is "", a requisition id, a number or a long slug |
| Row.FailedScrapeColumns | app.py:596-609 | after a failed scrape, company and title come from the options alone and the period from the URL and notes |
| Row.ResolvedFallbackRedundant | app.py:603-608 | on a scraped page the company column is the option, else the scraped company; the resolver fallback adds nothing |
| Row.AddJob | app.py:596-657 | a 20-value row; for a failed fetch, the record of empty metadata; otherwise the record of some map that the scrape can return |

## Left out

- Network I/O (`requests.get`, `raise_for_status`) is left out. The fetched page is an input (`Option<Page>`), and a failed fetch is `None`, which `main` turns into empty metadata.
- HTML and JSON parsing are left out: BeautifulSoup's `find`/`select_one`/`get_text` and `json.loads`. The page is a record of the strings those lookups return: first `h1`, `<title>`, the `og:`/`twitter:` meta contents, the Greenhouse/Lever selector hits, and the JSON-LD candidate objects in document order. Each selector's text is taken as already stripped.
- `tldextract` and `urlparse` are left out. The URL's registered-domain label, public suffix and hostname are parameters.
- Configuration and sheet I/O are left out: `load_config`, `load_industry_map`, `open_sheet`, `_ensure_header`, `append_row`. The configuration is an immutable parameter that `scrape` also sees, where the code re-reads it from disk. `load_list`'s `str(x)` conversion is not modelled; labels are strings.
- The clock and the time zone are left out (`now_str`, `_safe_format_now`, `pytz`). The formatted date and the current month are parameters.
- The `argparse` wiring and the printing are left out. Options arrive as strings, "" for an option that was not given.
- GUI.py is not part of this model.
- Case folding, `\w`, `\d` and `capitalize` are modelled for ASCII only. Whitespace is the exact `str.isspace` set.
- Text.Clean is applied to every value, since all values are strings in the model. The `isinstance(v, str)` check in the cleaning loop is therefore always true.
- Company.CompanyFromJsonLd: organisation names are strings. A non-string truthy name, on which the code's `strip()` would raise, is not modelled.
- Scrape.CleanValues visits keys in an arbitrary order. The result does not depend on it.
- Scrape.PostProcess states only the location among the adapter's other keys, because adapters never produce any key besides title, company and location (`Adapters.RunAdapter`).
- Row.IndustryColumn and Industry.ClassifyWithinAllowed assume every alias points at an allowed label. The code does not check this for the configuration.
- Row.AssembleRow: the location that `main` computes is not modelled as a row value, because no column holds it.

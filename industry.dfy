/** Industry classification: keyword rules scanned in the order of the
    allowed labels, then normalisation of free text through exact labels,
    exact aliases and contained aliases. */
module Industry {
  import opened Text
  import opened Lookup
  import opened Inputs

  /** Some keyword of the list occurs, ignoring case, in the lower-cased
      text. */
  predicate AnyKeyword(kws: seq<string>, lt: string) {
    exists k :: 0 <= k < |kws| && Contains(lt, Lower(kws[k]))
  }

  /** The rules give the label a keyword found in the text (a label with no
      rules has none). */
  predicate LabelHits(rules: map<string, seq<string>>, name: string, lt: string) {
    name in rules && AnyKeyword(rules[name], lt)
  }

  function FirstLabelFrom(allowed: seq<string>, rules: map<string, seq<string>>, lt: string, i: nat): (r: Option<nat>)
    requires i <= |allowed|
    ensures r.Some? ==> i <= r.value < |allowed| && LabelHits(rules, allowed[r.value], lt)
    ensures r.Some? ==> forall j :: i <= j < r.value ==> !LabelHits(rules, allowed[j], lt)
    ensures r.None? ==> forall j :: i <= j < |allowed| ==> !LabelHits(rules, allowed[j], lt)
    decreases |allowed| - i
  {
    if i == |allowed| then None
    else if LabelHits(rules, allowed[i], lt) then Some(i)
    else FirstLabelFrom(allowed, rules, lt, i + 1)
  }

  /** `choose_first_match`: the earliest allowed label, in the order of
      `allowed`, one of whose keywords occurs in the text ignoring case;
      "" when there is none. */
  function ChooseFirstMatch(text: string, rules: map<string, seq<string>>, allowed: seq<string>): (r: string)
    ensures r == "" || r in allowed
    ensures r != "" ==> exists i :: 0 <= i < |allowed| && allowed[i] == r && LabelHits(rules, r, Lower(text))
                                    && forall j :: 0 <= j < i ==> !LabelHits(rules, allowed[j], Lower(text))
    ensures (forall j :: 0 <= j < |allowed| ==> !LabelHits(rules, allowed[j], Lower(text))) ==> r == ""
    ensures forall i :: (0 <= i < |allowed| && LabelHits(rules, allowed[i], Lower(text))
                         && forall j :: 0 <= j < i ==> !LabelHits(rules, allowed[j], Lower(text))) ==> r == allowed[i]
  {
    match FirstLabelFrom(allowed, rules, Lower(text), 0)
    case Some(i) => allowed[i]
    case None => ""
  }

  /** `normalize_industry`: "" for empty input; otherwise, on the
      lower-cased and stripped text, the first allowed label equal to it
      ignoring case, else the value of the first alias equal to it, else the
      value of the first alias contained in it, else "". */
  function NormalizeIndustry(raw: string, allowed: seq<string>, aliases: seq<(string, string)>): (r: string)
    ensures raw == "" ==> r == ""
    ensures raw != "" && FirstKey(allowed, SameFolded, Strip(Lower(raw))).Some? ==>
              r in allowed && Lower(r) == Strip(Lower(raw))
    ensures raw != "" && FirstKey(allowed, SameFolded, Strip(Lower(raw))).Some? ==>
              r == allowed[FirstKey(allowed, SameFolded, Strip(Lower(raw))).value]
    ensures (raw != "" && FirstKey(allowed, SameFolded, Strip(Lower(raw))).None?
             && FirstValue(aliases, SameFolded, Strip(Lower(raw))).Some?) ==>
              r == FirstValue(aliases, SameFolded, Strip(Lower(raw))).value
    ensures (raw != "" && FirstKey(allowed, SameFolded, Strip(Lower(raw))).None?
             && FirstValue(aliases, SameFolded, Strip(Lower(raw))).None?
             && FirstValue(aliases, WithinFolded, Strip(Lower(raw))).Some?) ==>
              r == FirstValue(aliases, WithinFolded, Strip(Lower(raw))).value
    ensures (raw != "" && FirstKey(allowed, SameFolded, Strip(Lower(raw))).None?
             && FirstValue(aliases, SameFolded, Strip(Lower(raw))).None?
             && FirstValue(aliases, WithinFolded, Strip(Lower(raw))).None?) ==> r == ""
    ensures r == "" || r in allowed || exists i :: 0 <= i < |aliases| && aliases[i].1 == r
  {
    if raw == "" then ""
    else
      var lt := Strip(Lower(raw));
      match FirstKey(allowed, SameFolded, lt)
      case Some(i) => allowed[i]
      case None =>
        match FirstValue(aliases, SameFolded, lt)
        case Some(v) => v
        case None =>
          match FirstValue(aliases, WithinFolded, lt)
          case Some(v) => v
          case None => ""
  }

  /** An exact (case-insensitive) allowed label is returned in its canonical
      spelling before any alias is looked at, even an alias whose key is the
      same text. */
  lemma ExactLabelBeforeAlias(raw: string, allowed: seq<string>, aliases: seq<(string, string)>, i: nat)
    requires raw != "" && i < |allowed| && Lower(allowed[i]) == Strip(Lower(raw))
    requires forall j :: 0 <= j < i ==> Lower(allowed[j]) != Strip(Lower(raw))
    ensures NormalizeIndustry(raw, allowed, aliases) == allowed[i]
  {
    assert Passes(SameFolded, allowed[i], Strip(Lower(raw)));
  }

  /** `classify_industry`: the keyword rules on title, company and URL;
      only when they find nothing, the normalisation of title and company. */
  function ClassifyIndustry(title: string, company: string, url: string, cfg: Config): (r: string)
    ensures ChooseFirstMatch(JoinWith([title, company, url], " "), cfg.industryRules, cfg.industryAllowed) != "" ==>
              r == ChooseFirstMatch(JoinWith([title, company, url], " "), cfg.industryRules, cfg.industryAllowed)
    ensures ChooseFirstMatch(JoinWith([title, company, url], " "), cfg.industryRules, cfg.industryAllowed) == "" ==>
              r == NormalizeIndustry(Strip(JoinWith([title, company], " ")), cfg.industryAllowed, cfg.industryAliases)
  {
    var hit := ChooseFirstMatch(JoinWith([title, company, url], " "), cfg.industryRules, cfg.industryAllowed);
    if hit != "" then hit
    else NormalizeIndustry(Strip(JoinWith([title, company], " ")), cfg.industryAllowed, cfg.industryAliases)
  }

  /** Every alias maps onto an allowed label (or onto ""). */
  predicate AliasesAllowed(cfg: Config) {
    forall i :: 0 <= i < |cfg.industryAliases| ==>
      cfg.industryAliases[i].1 == "" || cfg.industryAliases[i].1 in cfg.industryAllowed
  }

  /** The classifier stays inside the allowed vocabulary as long as the
      configured aliases do. */
  lemma ClassifyWithinAllowed(title: string, company: string, url: string, cfg: Config)
    requires AliasesAllowed(cfg)
    ensures var r := ClassifyIndustry(title, company, url, cfg); r == "" || r in cfg.industryAllowed
  {
  }

  /** `infer_industry`: "" for empty text, otherwise the label of the first
      key (in map order) that occurs in the lower-cased text. */
  function InferIndustry(industryMap: seq<(string, string)>, text: string): (r: string)
    ensures text == "" ==> r == ""
    ensures text != "" && FirstValue(industryMap, Within, Lower(text)).Some? ==>
              r == FirstValue(industryMap, Within, Lower(text)).value
    ensures (text == "" || forall j :: 0 <= j < |industryMap| ==> !Contains(Lower(text), industryMap[j].0)) ==> r == ""
  {
    if text == "" then ""
    else
      match FirstValue(industryMap, Within, Lower(text))
      case Some(v) => v
      case None => ""
  }
}

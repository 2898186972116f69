/**
 * Turning job-search API records into postings: the employment-type and
 * experience-level vocabularies, the title-keyword industry classifier,
 * salary defaults, and the search query the fetch sends.
 */
module JobImport {
  import opened Wrappers
  import opened Text
  import opened Jobs

  /** The fields of an API record the import reads; any of them may be missing. */
  datatype ApiRecord = ApiRecord(
    jobId: Option<string>,
    employerName: Option<string>,
    title: Option<string>,
    city: Option<string>,
    country: Option<string>,
    description: Option<string>,
    salaryText: Option<string>,
    requiredSkills: Option<string>,
    employmentType: Option<string>,
    experienceMonths: Option<int>,
    minSalary: Option<int>,
    maxSalary: Option<int>,
    applyLink: Option<string>)

  /** The display job type for an API employment code; unknown or missing codes are full-time. */
  function EmploymentType(code: Option<string>): (display: string)
    ensures display in JobTypeIds && display != All && display != "Freelance"
    ensures display == "Part-time" <==> code == Some("PARTTIME")
    ensures display == "Contract" <==> code == Some("CONTRACT")
    ensures display == "Internship" <==> code == Some("INTERNSHIP")
  {
    if code == Some("FULLTIME") then "Full-time"
    else if code == Some("PARTTIME") then "Part-time"
    else if code == Some("CONTRACT") then "Contract"
    else if code == Some("INTERNSHIP") then "Internship"
    else "Full-time"
  }

  /**
   * The experience level for the required months: exactly 12, 24 or 36 is
   * mid-level, more than 36 senior, and everything else, including a missing
   * value and counts such as 6 or 30, entry-level.
   */
  function ExperienceLevel(months: Option<int>): (level: string)
    ensures level in ExperienceLevelIds && level != All
    ensures level == "Mid-level" <==> months in {Some(12), Some(24), Some(36)}
    ensures level == "Senior-level" <==> months.Some? && months.value > 36
  {
    match months
    case None => "Entry-level"
    case Some(m) =>
      if m == 0 then "Entry-level"
      else if m == 12 || m == 24 || m == 36 then "Mid-level"
      else if m > 36 then "Senior-level"
      else "Entry-level"
  }

  /** The buckets are not ordered ranges: 24 months is mid-level, but 30 and 6 fall back to entry-level. */
  lemma ExperienceLevelGap()
    ensures ExperienceLevel(Some(24)) == "Mid-level"
    ensures ExperienceLevel(Some(30)) == "Entry-level"
    ensures ExperienceLevel(Some(6)) == "Entry-level"
  {
  }

  // ---- Industry from the job title ----

  /** One branch of the classifier: the industry and the keywords that select it. */
  datatype IndustryRule = IndustryRule(industry: string, keywords: seq<string>)

  /** The classifier's branches in the order they are tried. */
  const IndustryRules: seq<IndustryRule> := [
    IndustryRule("technology", ["software", "developer", "engineer", "tech", "it "]),
    IndustryRule("education", ["teacher", "tutor", "professor"]),
    IndustryRule("healthcare", ["doctor", "nurse", "health"]),
    IndustryRule("manufacturing", ["manufacturing", "production"]),
    IndustryRule("automotive", ["car", "vehicle", "automotive"]),
    IndustryRule("analytics", ["data", "analyst", "analytics"]),
    IndustryRule("construction", ["construction", "civil"]),
    IndustryRule("marketing", ["marketing", "brand", "sales"]),
    IndustryRule("design", ["design", "ux", "ui"])]

  /** The industry when no keyword occurs. */
  const DefaultIndustry: string := "technology"

  predicate MentionsAny(text: string, keywords: seq<string>)
  {
    exists k :: 0 <= k < |keywords| && Contains(text, keywords[k])
  }

  /** The industry of the first rule with a keyword in `text`, else `fallback`. */
  function FirstMatch(text: string, rules: seq<IndustryRule>, fallback: string): string
  {
    if rules == [] then fallback
    else if MentionsAny(text, rules[0].keywords) then rules[0].industry
    else FirstMatch(text, rules[1..], fallback)
  }

  /** First-match semantics: the chosen rule matches and no earlier one does. */
  lemma {:induction false} FirstMatchRule(text: string, rules: seq<IndustryRule>, fallback: string) returns (k: nat)
    ensures k <= |rules|
    ensures forall j :: 0 <= j < k ==> !MentionsAny(text, rules[j].keywords)
    ensures k < |rules| ==>
      MentionsAny(text, rules[k].keywords) && FirstMatch(text, rules, fallback) == rules[k].industry
    ensures k == |rules| ==> FirstMatch(text, rules, fallback) == fallback
  {
    if rules == [] {
      k := 0;
    } else if MentionsAny(text, rules[0].keywords) {
      k := 0;
    } else {
      var k' := FirstMatchRule(text, rules[1..], fallback);
      k := k' + 1;
    }
  }

  /** `matchIndustry(title)`: the first industry whose keywords occur in the lower-cased title. */
  function MatchIndustry(title: string): (industry: string)
    ensures industry in IndustryIds && industry != All
  {
    ClassifyLowered(ToLower(title))
  }

  /** The keyword tests of `matchIndustry`, on the already lower-cased title. */
  function ClassifyLowered(t: string): (industry: string)
    ensures industry in IndustryIds && industry != All
  {
    if Contains(t, "software") || Contains(t, "developer") || Contains(t, "engineer") ||
       Contains(t, "tech") || Contains(t, "it ") then "technology"
    else if Contains(t, "teacher") || Contains(t, "tutor") || Contains(t, "professor") then "education"
    else if Contains(t, "doctor") || Contains(t, "nurse") || Contains(t, "health") then "healthcare"
    else if Contains(t, "manufacturing") || Contains(t, "production") then "manufacturing"
    else if Contains(t, "car") || Contains(t, "vehicle") || Contains(t, "automotive") then "automotive"
    else if Contains(t, "data") || Contains(t, "analyst") || Contains(t, "analytics") then "analytics"
    else if Contains(t, "construction") || Contains(t, "civil") then "construction"
    else if Contains(t, "marketing") || Contains(t, "brand") || Contains(t, "sales") then "marketing"
    else if Contains(t, "design") || Contains(t, "ux") || Contains(t, "ui") then "design"
    else "technology"
  }

  lemma MentionsThree(text: string, a: string, b: string, c: string)
    ensures MentionsAny(text, [a, b, c]) <==> Contains(text, a) || Contains(text, b) || Contains(text, c)
  {
    var kws := [a, b, c];
    if Contains(text, a) { assert Contains(text, kws[0]); }
    if Contains(text, b) { assert Contains(text, kws[1]); }
    if Contains(text, c) { assert Contains(text, kws[2]); }
  }

  lemma MentionsTwo(text: string, a: string, b: string)
    ensures MentionsAny(text, [a, b]) <==> Contains(text, a) || Contains(text, b)
  {
    var kws := [a, b];
    if Contains(text, a) { assert Contains(text, kws[0]); }
    if Contains(text, b) { assert Contains(text, kws[1]); }
  }

  lemma MentionsFive(text: string, a: string, b: string, c: string, d: string, e: string)
    ensures MentionsAny(text, [a, b, c, d, e]) <==>
      Contains(text, a) || Contains(text, b) || Contains(text, c) || Contains(text, d) || Contains(text, e)
  {
    var kws := [a, b, c, d, e];
    if Contains(text, a) { assert Contains(text, kws[0]); }
    if Contains(text, b) { assert Contains(text, kws[1]); }
    if Contains(text, c) { assert Contains(text, kws[2]); }
    if Contains(text, d) { assert Contains(text, kws[3]); }
    if Contains(text, e) { assert Contains(text, kws[4]); }
  }

  /** One step of the first-match search, at rule `k`. */
  lemma FirstMatchAt(text: string, rules: seq<IndustryRule>, fallback: string, k: nat)
    requires k < |rules|
    ensures FirstMatch(text, rules[k..], fallback) ==
      if MentionsAny(text, rules[k].keywords) then rules[k].industry
      else FirstMatch(text, rules[k + 1..], fallback)
  {
    assert rules[k..][0] == rules[k] && rules[k..][1..] == rules[k + 1..];
  }

  /** The if-else chain of `matchIndustry` is the first-match rule over the keyword table. */
  lemma MatchIndustryIsFirstMatch(title: string)
    ensures MatchIndustry(title) == FirstMatch(ToLower(title), IndustryRules, DefaultIndustry)
  {
    ClassifyIsFirstMatch(ToLower(title));
  }

  lemma ClassifyIsFirstMatch(t: string)
    ensures ClassifyLowered(t) == FirstMatch(t, IndustryRules, DefaultIndustry)
  {
    var rules := IndustryRules;
    assert rules[0..] == rules;
    assert rules[9..] == [];
    FirstMatchAt(t, rules, DefaultIndustry, 0);
    FirstMatchAt(t, rules, DefaultIndustry, 1);
    FirstMatchAt(t, rules, DefaultIndustry, 2);
    FirstMatchAt(t, rules, DefaultIndustry, 3);
    FirstMatchAt(t, rules, DefaultIndustry, 4);
    FirstMatchAt(t, rules, DefaultIndustry, 5);
    FirstMatchAt(t, rules, DefaultIndustry, 6);
    FirstMatchAt(t, rules, DefaultIndustry, 7);
    FirstMatchAt(t, rules, DefaultIndustry, 8);
    RuleTests(t);
  }

  /** Each rule's keyword test is the disjunction `matchIndustry` writes out. */
  lemma RuleTests(t: string)
    ensures MentionsAny(t, IndustryRules[0].keywords) <==>
      Contains(t, "software") || Contains(t, "developer") || Contains(t, "engineer") ||
      Contains(t, "tech") || Contains(t, "it ")
    ensures MentionsAny(t, IndustryRules[1].keywords) <==>
      Contains(t, "teacher") || Contains(t, "tutor") || Contains(t, "professor")
    ensures MentionsAny(t, IndustryRules[2].keywords) <==>
      Contains(t, "doctor") || Contains(t, "nurse") || Contains(t, "health")
    ensures MentionsAny(t, IndustryRules[3].keywords) <==>
      Contains(t, "manufacturing") || Contains(t, "production")
    ensures MentionsAny(t, IndustryRules[4].keywords) <==>
      Contains(t, "car") || Contains(t, "vehicle") || Contains(t, "automotive")
    ensures MentionsAny(t, IndustryRules[5].keywords) <==>
      Contains(t, "data") || Contains(t, "analyst") || Contains(t, "analytics")
    ensures MentionsAny(t, IndustryRules[6].keywords) <==>
      Contains(t, "construction") || Contains(t, "civil")
    ensures MentionsAny(t, IndustryRules[7].keywords) <==>
      Contains(t, "marketing") || Contains(t, "brand") || Contains(t, "sales")
    ensures MentionsAny(t, IndustryRules[8].keywords) <==>
      Contains(t, "design") || Contains(t, "ux") || Contains(t, "ui")
  {
    MentionsFive(t, "software", "developer", "engineer", "tech", "it ");
    MentionsThree(t, "teacher", "tutor", "professor");
    MentionsThree(t, "doctor", "nurse", "health");
    MentionsTwo(t, "manufacturing", "production");
    MentionsThree(t, "car", "vehicle", "automotive");
    MentionsThree(t, "data", "analyst", "analytics");
    MentionsTwo(t, "construction", "civil");
    MentionsThree(t, "marketing", "brand", "sales");
    MentionsThree(t, "design", "ux", "ui");
  }

  // ---- Salary, description, skills ----

  /** The salary range of an imported posting: a missing or zero maximum becomes minimum + 500000. */
  function SalaryRangeOf(minSalary: Option<int>, maxSalary: Option<int>): (r: SalaryRange)
    ensures r.min == minSalary.GetOr(0)
    ensures maxSalary.GetOr(0) != 0 ==> r.max == maxSalary.value
    ensures maxSalary.GetOr(0) == 0 ==> r.max == r.min + 500000
  {
    var min := if minSalary.Some? && minSalary.value != 0 then minSalary.value else 0;
    var max := if maxSalary.Some? && maxSalary.value != 0 then maxSalary.value else 0;
    SalaryRange(min, if max != 0 then max else min + 500000)
  }

  /** With no maximum given, a non-negative minimum yields a range the default salary filter keeps when the minimum is within it. */
  lemma DefaultMaxKeptByInitialFilter(job: Job, minSalary: Option<int>)
    requires job.salaryRange == Some(SalaryRangeOf(minSalary, None))
    requires 0 <= minSalary.GetOr(0) <= InitialFilters.salaryHigh
    ensures SalaryOverlaps(InitialFilters, job)
    ensures job.salaryRange.value.min < job.salaryRange.value.max
  {
  }

  const NoDescription: string := "No description available"

  /** `s.slice(0, 200)`. */
  function FirstChars(s: string): (r: string)
    ensures |r| <= 200 && |r| <= |s| && r == s[..|r|]
    ensures |s| <= 200 ==> r == s
    ensures |r| == if |s| <= 200 then |s| else 200
  {
    if |s| <= 200 then s else s[..200]
  }

  /**
   * The description as the import computes it: the optional chain yields
   * `undefined` for a missing description, and `undefined + '...'` is the
   * non-empty string "undefined...", so the fallback is never chosen.
   */
  function DescriptionAsWritten(description: Option<string>): (r: string)
    ensures description.None? ==> r == "undefined..."
    ensures description.Some? ==> r == FirstChars(description.value) + "..."
  {
    var head := if description.Some? then FirstChars(description.value) else "undefined";
    OrElse(Some(head + "..."), NoDescription)
  }

  /** The as-written description never falls back; a missing one shows "undefined...". */
  lemma DescriptionFallbackUnreachable(description: Option<string>)
    ensures DescriptionAsWritten(description) != NoDescription
    ensures DescriptionAsWritten(None) == "undefined..."
  {
    var r := DescriptionAsWritten(description);
    assert r[|r| - 1] == '.';
    assert NoDescription[|NoDescription| - 1] == 'e';
  }

  /** The description as evidently intended: the first 200 characters and "...", or the fallback when missing or empty. */
  function Description(description: Option<string>): (r: string)
    ensures r == NoDescription <==> description.None? || description.value == ""
    ensures description.Some? && description.value != "" ==>
      && |r| == (if |description.value| <= 200 then |description.value| else 200) + 3
      && r[|r| - 3..] == "..."
      && r[..|r| - 3] == description.value[..|r| - 3]
  {
    if description.Some? && description.value != "" then
      var r := FirstChars(description.value) + "...";
      assert r[|r| - 1] == '.' && NoDescription[|NoDescription| - 1] == 'e';
      r
    else NoDescription
  }

  /** `skills?.split(',').map(s => s.trim()) || []`. */
  function Skills(requiredSkills: Option<string>): (skills: seq<string>)
    ensures requiredSkills.None? ==> skills == []
    ensures requiredSkills.Some? ==> |skills| == |Split(requiredSkills.value, ',')|
    ensures requiredSkills.Some? ==>
      forall k :: 0 <= k < |skills| ==> skills[k] == Trim(Split(requiredSkills.value, ',')[k])
    ensures forall k :: 0 <= k < |skills| ==> ',' !in skills[k]
    ensures forall k :: 0 <= k < |skills| && skills[k] != "" ==>
      !IsWhitespace(skills[k][0]) && !IsWhitespace(skills[k][|skills[k]| - 1])
  {
    match requiredSkills
    case None => []
    case Some(text) =>
      var parts := Split(text, ',');
      var skills := seq(|parts|, k requires 0 <= k < |parts| => Trim(parts[k]));
      assert forall k :: 0 <= k < |parts| && skills[k] != "" ==>
        !IsWhitespace(skills[k][0]) && !IsWhitespace(skills[k][|skills[k]| - 1]) by {
        forall k | 0 <= k < |parts| && skills[k] != "" {
          TrimmedHasNoBlankEnds(parts[k]);
        }
      }
      skills
  }

  /** The posting built from an API record; `id` stands for the id the import generates at random. */
  function ImportJob(item: ApiRecord, id: int): (job: Job)
    ensures job.id == id
    ensures job.title != "" && job.company != "" && job.location != "" && job.salary != ""
    ensures job.industry in IndustryIds && job.industry != All
    ensures job.jobType.Some? && job.jobType.value in JobTypeIds && job.jobType.value != All
    ensures job.experienceLevel.Some? && job.experienceLevel.value in ExperienceLevelIds
    ensures job.experienceLevel.value != All
    ensures job.salaryRange == Some(SalaryRangeOf(item.minSalary, item.maxSalary))
    ensures job.title == OrElse(item.title, "Unknown Position")
    ensures job.company == OrElse(item.employerName, "Unknown Company")
    ensures job.location == OrElse(item.city, OrElse(item.country, "India"))
    ensures job.salary == OrElse(item.salaryText, "Not specified")
    ensures job.description == Description(item.description)
    ensures job.skills == Skills(item.requiredSkills)
    ensures job.industry == MatchIndustry(OrElse(item.title, ""))
    ensures job.jobType == Some(EmploymentType(item.employmentType))
    ensures job.experienceLevel == Some(ExperienceLevel(item.experienceMonths))
  {
    Job(
      id := id,
      title := OrElse(item.title, "Unknown Position"),
      company := OrElse(item.employerName, "Unknown Company"),
      location := OrElse(item.city, OrElse(item.country, "India")),
      description := Description(item.description),
      salary := OrElse(item.salaryText, "Not specified"),
      skills := Skills(item.requiredSkills),
      industry := MatchIndustry(OrElse(item.title, "")),
      url := Some(OrElse(item.applyLink, "https://example.com/jobs/" + item.jobId.GetOr("undefined"))),
      jobType := Some(EmploymentType(item.employmentType)),
      experienceLevel := Some(ExperienceLevel(item.experienceMonths)),
      salaryRange := Some(SalaryRangeOf(item.minSalary, item.maxSalary)))
  }

  /** `response.data.data.map(...)`: every record imported, in order, with its generated id. */
  function Imported(records: seq<ApiRecord>, ids: seq<int>): (postings: seq<Job>)
    requires |ids| == |records|
    ensures |postings| == |records|
    ensures forall k :: 0 <= k < |records| ==> postings[k] == ImportJob(records[k], ids[k])
    ensures forall k :: 0 <= k < |postings| ==>
      && postings[k].salaryRange.Some?
      && postings[k].industry in IndustryIds && postings[k].industry != All
      && postings[k].jobType.Some? && postings[k].experienceLevel.Some?
  {
    seq(|records|, k requires 0 <= k < |records| => ImportJob(records[k], ids[k]))
  }

  /** A fetch whose API call answered: the seed jobs followed by the imported records. */
  method ReceiveRecords(page: JobExplorer, records: seq<ApiRecord>, ids: seq<int>)
    requires |ids| == |records|
    modifies page`jobs
    ensures page.jobs == page.seed + Imported(records, ids)
    ensures forall k :: |page.seed| <= k < |page.jobs| ==>
      page.jobs[k].salaryRange.Some? && page.jobs[k].industry != All
  {
    var postings := Imported(records, ids);
    page.ReceiveJobs(Received(postings), []);
  }

  // ---- The search query ----

  /** The search parameters: free text and an optional location. */
  datatype SearchParams = SearchParams(query: string, location: Option<string>)

  /** The page's search parameters, which nothing on the page ever changes. */
  const InitialSearch: SearchParams := SearchParams("", None)

  /** The query text the fetch sends: "[terms ]jobs in <location or India>". */
  method BuildQuery(params: SearchParams) returns (query: string)
    ensures params.query == "" ==> query == "jobs in " + OrElse(params.location, "India")
    ensures params.query != "" ==> query == params.query + " jobs in " + OrElse(params.location, "India")
    ensures params == InitialSearch ==> query == "jobs in India"
  {
    query := "jobs in";
    if params.query != "" {
      query := params.query + " jobs in";
    }
    if params.location.Some? && params.location.value != "" {
      query := query + " " + params.location.value;
    } else {
      query := query + " India";
    }
  }
}

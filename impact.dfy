/** `calculateEnvironmentalImpact` without its I/O: the outcomes of the
    page-size probe and of the green-hosting check are inputs, and the
    report is assembled from them, from AI detection and from the CO2
    formula, or replaced by a fixed estimate when the URL cannot be parsed. */
module Impact {
  import opened Wrappers
  import opened Strings
  import opened Emissions
  import opened Scoring
  import opened Formatting
  import opened Detection

  // ---------------------------------------------------------------------
  // Page size

  /** Schemes of browser-internal pages, which cannot be fetched. */
  const SpecialPrefixes: seq<string> := ["chrome://", "chrome-extension://", "moz-extension://", "about:"]

  /** `isSpecialUrl`: the URL starts with one of the special schemes; the
      four prefix tests are exactly a test against the scheme table. */
  predicate IsSpecialUrl(url: string): (special: bool)
    ensures special <==> exists p :: p in SpecialPrefixes && p <= url
  {
    assert forall p :: p in SpecialPrefixes <==>
      p == SpecialPrefixes[0] || p == SpecialPrefixes[1] || p == SpecialPrefixes[2] || p == SpecialPrefixes[3];
    assert SpecialPrefixes[0] in SpecialPrefixes && SpecialPrefixes[1] in SpecialPrefixes;
    assert SpecialPrefixes[2] in SpecialPrefixes && SpecialPrefixes[3] in SpecialPrefixes;
    "chrome://" <= url || "chrome-extension://" <= url || "moz-extension://" <= url || "about:" <= url
  }

  /** What the HEAD request with its timeout came back with: an error or
      timeout, a response without a usable `content-length`, or one whose
      header parsed to a byte count. */
  datatype SizeProbe = ProbeFailed | NoContentLength | ContentLength(bytes: nat)

  /** `getPageSize`: 1 MB for special pages whatever the probe says, the
      header's value when there is one, 2 MB otherwise. */
  function GetPageSize(url: string, probe: SizeProbe): (size: nat)
    ensures IsSpecialUrl(url) ==> size == SpecialPageSize
    ensures !IsSpecialUrl(url) && probe.ContentLength? ==> size == probe.bytes
    ensures !IsSpecialUrl(url) && !probe.ContentLength? ==> size == DefaultPageSize
  {
    if IsSpecialUrl(url) then SpecialPageSize
    else match probe
      case ContentLength(bytes) => bytes
      case _ => DefaultPageSize
  }

  /** A special page never depends on the probe. */
  lemma SpecialPageIgnoresProbe(url: string, p: SizeProbe, q: SizeProbe)
    requires IsSpecialUrl(url)
    ensures GetPageSize(url, p) == GetPageSize(url, q) == SpecialPageSize
  {
  }

  lemma SpecialUrls()
    ensures IsSpecialUrl("chrome://settings")
    ensures IsSpecialUrl("about:blank")
  {
    var settings: string, blank: string := "chrome://settings", "about:blank";
    assert settings[..9] == "chrome://";
    assert blank[..6] == "about:";
  }

  // ---------------------------------------------------------------------
  // Green hosting

  /** What the green-hosting request came back with: an error or timeout, a
      response that is not ok, or a JSON body whose `green` field may be
      missing. */
  datatype GreenCheck = RequestFailed | NotOk(status: int) | Answered(green: Option<bool>)

  /** `checkGreenHosting`: green only on an explicit `true`; every failure
      counts as not green. */
  function CheckGreenHosting(check: GreenCheck): (green: bool)
    ensures green <==> check == Answered(Some(true))
  {
    match check
    case Answered(Some(g)) => g
    case _ => false
  }

  // ---------------------------------------------------------------------
  // Report

  /** The report, without its timestamp. `isGreen` is None in the fallback
      report, where the source stores `null`. */
  datatype Report = Report(
    success: bool,
    score: int,
    letterGrade: string,
    rating: string,
    color: string,
    co2Grams: real,
    co2Display: Display,
    baseCO2: real,
    baseCO2Display: Display,
    baseScore: int,
    aiDetected: bool,
    aiType: AIType,
    aiModel: Option<string>,
    aiCO2: real,
    aiCO2Display: Display,
    multiplier: real,
    pageSize: int,
    pageSizeDisplay: Display,
    isGreen: Option<bool>,
    domain: string,
    url: string,
    error: Option<string>)

  /** The report's figures: CO2 follows from the page size and hosting, the
      AI share is total minus base, and both scores come from their CO2
      figures. */
  predicate Figures(r: Report)
  {
    var green := r.isGreen == Some(true);
    && r.baseCO2 == CalculateCO2(r.pageSize, green)
    && r.co2Grams == r.baseCO2 * r.multiplier
    && r.aiCO2 == r.co2Grams - r.baseCO2
    && r.baseScore == CalculateGreenScore(r.baseCO2, green)
    && r.score == CalculateGreenScore(r.co2Grams, green)
    && r.multiplier >= 1.0
  }

  /** The report's presentation: grade, rating and colour come from the total
      score, the AI fields agree with each other, the displays denote the
      numbers they show, and estimates are marked. */
  predicate Presentation(r: Report)
  {
    && r.letterGrade == LetterGrade(r.score)
    && r.rating == ScoreRating(r.score)
    && r.color == ScoreColor(r.score)
    && (r.multiplier == 1.0 <==> !r.aiDetected)
    && (r.aiType == NoAI <==> !r.aiDetected)
    && (r.aiModel.Some? ==> r.aiDetected)
    && IsMass(r.co2Display.quantity) && GramsOf(r.co2Display.quantity) == r.co2Grams
    && IsMass(r.baseCO2Display.quantity) && GramsOf(r.baseCO2Display.quantity) == r.baseCO2
    && IsMass(r.aiCO2Display.quantity) && GramsOf(r.aiCO2Display.quantity) == r.aiCO2
    && IsSize(r.pageSizeDisplay.quantity) && BytesOf(r.pageSizeDisplay.quantity) == r.pageSize as real
    && r.co2Display.approximate == r.baseCO2Display.approximate == r.pageSizeDisplay.approximate == !r.success
    && !r.aiCO2Display.approximate
    && (r.success <==> r.error.None?)
  }

  /** What holds of every report. */
  predicate Consistent(r: Report)
  {
    Figures(r) && Presentation(r)
  }

  /** Scaling a non-negative base by a multiplier of at least 1 adds a
      non-negative share and never improves the score. */
  lemma Surcharge(base: real, multiplier: real, isGreen: bool)
    requires base >= 0.0 && multiplier >= 1.0
    ensures base * multiplier - base >= 0.0
    ensures CalculateGreenScore(base * multiplier, isGreen) <= CalculateGreenScore(base, isGreen)
  {
    assert base * multiplier - base == base * (multiplier - 1.0);
    assert base * (multiplier - 1.0) >= 0.0;
    ScoreNonIncreasing(base, base * multiplier, isGreen);
  }

  /** In a report whose figures agree, for a real page, AI adds CO2 and never improves
      the score. */
  lemma AiNeverHelps(r: Report)
    requires Figures(r) && r.pageSize >= 0
    ensures r.aiCO2 >= 0.0
    ensures r.co2Grams >= r.baseCO2
    ensures r.score <= r.baseScore
  {
    Surcharge(r.baseCO2, r.multiplier, r.isGreen == Some(true));
  }

  /** The report built when the URL cannot be parsed: a 2 MB page on
      ordinary hosting, no AI, hosting unknown, domain "unknown". */
  function FallbackReport(url: string, message: string): (r: Report)
    ensures Consistent(r)
    ensures !r.success && r.error == Some(message) && r.url == url
    ensures r.pageSize == DefaultPageSize && r.isGreen == None && r.domain == "unknown"
    ensures r.multiplier == 1.0 && r.aiCO2 == 0.0 && !r.aiDetected && r.aiType == NoAI && r.aiModel == None
    ensures r.co2Grams == r.baseCO2 == 6.228
    ensures r.score == r.baseScore == 60
    ensures r.letterGrade == "C" && r.rating == "Fair" && r.color == "#fbc02d"
    ensures r.co2Display == r.baseCO2Display == Display(true, FormatCO2(r.co2Grams))
    ensures r.pageSizeDisplay == Display(true, FormatPageSize(r.pageSize))
    ensures r.aiCO2Display == Display(false, Quantity(0.0, Grams))
  {
    var size := DefaultPageSize;
    var co2 := CalculateCO2(size, false);
    var score := CalculateGreenScore(co2, false);
    Report(
      success := false,
      score := score,
      letterGrade := LetterGrade(score),
      rating := ScoreRating(score),
      color := ScoreColor(score),
      co2Grams := co2,
      co2Display := Display(true, FormatCO2(co2)),
      baseCO2 := co2,
      baseCO2Display := Display(true, FormatCO2(co2)),
      baseScore := score,
      aiDetected := false,
      aiType := NoAI,
      aiModel := None,
      aiCO2 := 0.0,
      aiCO2Display := Display(false, Quantity(0.0, Grams)),
      multiplier := 1.0,
      pageSize := size,
      pageSizeDisplay := Display(true, FormatPageSize(size)),
      isGreen := None,
      domain := "unknown",
      url := url,
      error := Some(message))
  }

  /** An AI analysis as `DetectAIUsage` guarantees it. */
  predicate WellFormedAnalysis(a: AIAnalysis)
  {
    && a.multiplier >= 1.0
    && (a.multiplier == 1.0 <==> !a.aiDetected)
    && (a.aiType == NoAI <==> !a.aiDetected)
    && (a.aiModel.Some? ==> a.aiDetected)
  }

  /** The success report around already computed figures: the labels and
      displays are derived from them and the AI fields copied. */
  function AssembleSuccess(
    url: string, domain: string, pageSize: nat, isGreen: bool, ai: AIAnalysis,
    baseCO2: real, totalCO2: real, aiCO2: real, baseScore: int, totalScore: int): (r: Report)
    requires WellFormedAnalysis(ai)
    ensures Presentation(r)
    ensures r.success && r.url == url && r.domain == domain
    ensures r.pageSize == pageSize && r.isGreen == Some(isGreen)
    ensures r.aiDetected == ai.aiDetected && r.aiType == ai.aiType
    ensures r.aiModel == ai.aiModel && r.multiplier == ai.multiplier
    ensures r.baseCO2 == baseCO2 && r.co2Grams == totalCO2 && r.aiCO2 == aiCO2
    ensures r.baseScore == baseScore && r.score == totalScore
    ensures r.co2Display == Display(false, FormatCO2(r.co2Grams))
    ensures r.baseCO2Display == Display(false, FormatCO2(r.baseCO2))
    ensures r.aiCO2Display == Display(false, FormatCO2(r.aiCO2))
    ensures r.pageSizeDisplay == Display(false, FormatPageSize(r.pageSize))
  {
    Report(
      success := true,
      score := totalScore,
      letterGrade := LetterGrade(totalScore),
      rating := ScoreRating(totalScore),
      color := ScoreColor(totalScore),
      co2Grams := totalCO2,
      co2Display := Display(false, FormatCO2(totalCO2)),
      baseCO2 := baseCO2,
      baseCO2Display := Display(false, FormatCO2(baseCO2)),
      baseScore := baseScore,
      aiDetected := ai.aiDetected,
      aiType := ai.aiType,
      aiModel := ai.aiModel,
      aiCO2 := aiCO2,
      aiCO2Display := Display(false, FormatCO2(aiCO2)),
      multiplier := ai.multiplier,
      pageSize := pageSize,
      pageSizeDisplay := Display(false, FormatPageSize(pageSize)),
      isGreen := Some(isGreen),
      domain := domain,
      url := url,
      error := None)
  }

  /** The success branch: base CO2 from size and hosting, total CO2 scaled
      by the AI multiplier, and both scored. */
  function SuccessReport(url: string, domain: string, pageSize: nat, isGreen: bool, ai: AIAnalysis): (r: Report)
    requires WellFormedAnalysis(ai)
    ensures Figures(r) && Presentation(r)
    ensures r.success && r.url == url && r.domain == domain
    ensures r.pageSize == pageSize && r.isGreen == Some(isGreen)
    ensures r.aiDetected == ai.aiDetected && r.aiType == ai.aiType
    ensures r.aiModel == ai.aiModel && r.multiplier == ai.multiplier
    ensures r.co2Display == Display(false, FormatCO2(r.co2Grams))
    ensures r.baseCO2Display == Display(false, FormatCO2(r.baseCO2))
    ensures r.aiCO2Display == Display(false, FormatCO2(r.aiCO2))
    ensures r.pageSizeDisplay == Display(false, FormatPageSize(r.pageSize))
  {
    var baseCO2 := CalculateCO2(pageSize, isGreen);
    var totalCO2 := baseCO2 * ai.multiplier;
    AssembleSuccess(url, domain, pageSize, isGreen, ai, baseCO2, totalCO2, totalCO2 - baseCO2,
                    CalculateGreenScore(baseCO2, isGreen), CalculateGreenScore(totalCO2, isGreen))
  }

  /** `calculateEnvironmentalImpact(url, pageContent)`. `hostname` is the
      outcome of parsing the URL (its host name, or the parser's error
      message); `probe` and `check` are the outcomes of the two requests. */
  function CalculateEnvironmentalImpact(
    url: string, hostname: Result<string, string>, pageContent: string,
    probe: SizeProbe, check: GreenCheck): (r: Report)
    ensures Consistent(r)
    ensures r.success <==> hostname.Success?
    ensures r.url == url
    ensures hostname.Failure? ==> r == FallbackReport(url, hostname.error)
    ensures hostname.Success? ==>
              && r.pageSize == GetPageSize(url, probe)
              && r.isGreen == Some(CheckGreenHosting(check))
              && r.domain == StripWww(hostname.value)
    ensures hostname.Success? ==>
              var a := DetectAIUsage(hostname.value, pageContent);
              r.aiDetected == a.aiDetected && r.aiType == a.aiType
              && r.aiModel == a.aiModel && r.multiplier == a.multiplier
    ensures hostname.Success? ==>
              && r.co2Display == Display(false, FormatCO2(r.co2Grams))
              && r.baseCO2Display == Display(false, FormatCO2(r.baseCO2))
              && r.aiCO2Display == Display(false, FormatCO2(r.aiCO2))
              && r.pageSizeDisplay == Display(false, FormatPageSize(r.pageSize))
    ensures r.aiCO2 >= 0.0 && r.score <= r.baseScore
  {
    match hostname
    case Failure(message) => FallbackReport(url, message)
    case Success(host) =>
      var domain := StripWww(host);
      var pageSize := GetPageSize(url, probe);
      var isGreen := CheckGreenHosting(check);
      var ai := DetectAIUsage(host, pageContent);
      var r := SuccessReport(url, domain, pageSize, isGreen, ai);
      AiNeverHelps(r);
      r
  }

  /** Without AI the report's total is its base: nothing is added. */
  lemma NoAiNoSurcharge(url: string, hostname: string, pageContent: string, probe: SizeProbe, check: GreenCheck)
    requires !DetectAIUsage(hostname, pageContent).aiDetected
    ensures var r := CalculateEnvironmentalImpact(url, Success(hostname), pageContent, probe, check);
            r.co2Grams == r.baseCO2 && r.aiCO2 == 0.0 && r.score == r.baseScore
  {
  }

  /** A page of unknown size on ordinary hosting: 6.228 g, score 60, "C",
      "Fair", yellow. */
  lemma DefaultPageScenario(url: string, hostname: string, pageContent: string, check: GreenCheck)
    requires !IsSpecialUrl(url)
    requires !DetectAIUsage(hostname, pageContent).aiDetected
    requires !CheckGreenHosting(check)
    ensures var r := CalculateEnvironmentalImpact(url, Success(hostname), pageContent, ProbeFailed, check);
            r.co2Grams == 6.228 && r.score == 60 && r.letterGrade == "C"
            && r.rating == "Fair" && r.color == "#fbc02d"
  {
  }

  /** chatgpt.com on a page of unknown size on ordinary hosting: 3.5 times
      6.228 g is 21.798 g, of which 15.57 g is attributed to AI, and the score
      drops from 60 to 20, an "F". */
  lemma ChatGptScenario(url: string, pageContent: string, check: GreenCheck)
    requires !IsSpecialUrl(url)
    requires !CheckGreenHosting(check)
    ensures var r := CalculateEnvironmentalImpact(url, Success("chatgpt.com"), pageContent, ProbeFailed, check);
            && r.aiDetected && r.aiModel == Some("GPT-4") && r.multiplier == 3.5
            && r.baseCO2 == 6.228 && r.co2Grams == 21.798 && r.aiCO2 == 15.57
            && r.baseScore == 60 && r.score == 20 && r.letterGrade == "F"
  {
    ChatGptHost(pageContent);
  }
}

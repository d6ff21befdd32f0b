/** AI-usage detection: which AI service, if any, a page's host name and
    text point to, and by how much that multiplies the page's footprint. */
module Detection {
  import opened Wrappers
  import opened Strings

  /** Hosts of services whose whole purpose is AI. */
  const PrimaryDomains: seq<string> := [
    "openai.com", "chatgpt.com", "claude.ai", "anthropic.com",
    "gemini.google.com", "bard.google.com", "cohere.ai",
    "huggingface.co", "replicate.com", "stability.ai",
    "midjourney.com", "runwayml.com", "character.ai",
    "perplexity.ai", "you.com", "poe.com", "jasper.ai",
    "copy.ai", "writesonic.com"
  ]

  /** Hosts that offer AI features next to other content. */
  const PartialDomains: seq<string> := ["notion.so", "github.com", "stackoverflow.com", "reddit.com"]

  /** Words whose presence in the page text suggests AI features in use. */
  const AiKeywords: seq<string> := [
    "gpt", "chatgpt", "claude", "gemini", "bard", "llama",
    "artificial intelligence", "machine learning", "neural network",
    "deep learning", "transformer", "language model", "ai model",
    "openai", "anthropic", "cohere", "hugging face",
    "ai-powered", "ai assistant", "chatbot", "ai chat", "generative ai",
    "large language model", "llm", "copilot", "ai code"
  ]

  /** More than this many keywords must occur for AI features to count. */
  const KeywordThreshold: nat := 3

  // ---------------------------------------------------------------------
  // Domain matching

  /** A host and a listed domain match when either contains the other, so
      subdomains and shortened host names both match; a host matches its own
      entry, and an empty host or entry matches anything. */
  predicate Matches(host: string, domain: string): (m: bool)
    ensures host == domain ==> m
    ensures host == [] || domain == [] ==> m
  {
    Contains(host, domain) || Contains(domain, host)
  }

  /** `ds[i]` is the first entry of `ds` that matches `host`. */
  ghost predicate FirstMatchAt(ds: seq<string>, host: string, i: int)
  {
    0 <= i < |ds| && Matches(host, ds[i]) && forall j :: 0 <= j < i ==> !Matches(host, ds[j])
  }

  /** `ds.find(d => host.includes(d) || d.includes(host))`. */
  function FindFirst(ds: seq<string>, host: string): (r: Option<string>)
    ensures r.None? <==> forall d :: d in ds ==> !Matches(host, d)
    ensures r.Some? ==> exists i :: FirstMatchAt(ds, host, i) && ds[i] == r.value
  {
    if ds == [] then None
    else if Matches(host, ds[0]) then
      assert FirstMatchAt(ds, host, 0);
      Some(ds[0])
    else
      var r := FindFirst(ds[1..], host);
      assert forall d :: d in ds ==> d == ds[0] || d in ds[1..];
      assert forall i :: FirstMatchAt(ds[1..], host, i) ==> FirstMatchAt(ds, host, i + 1);
      r
  }

  /** The first matching entry is the one found. */
  lemma FindFirstAt(ds: seq<string>, host: string, i: int)
    requires FirstMatchAt(ds, host, i)
    ensures FindFirst(ds, host) == Some(ds[i])
  {
    assert ds[i] in ds;
    var r := FindFirst(ds, host);
    assert r.Some?;
    var k :| FirstMatchAt(ds, host, k) && ds[k] == r.value;
    assert !(k < i) && !(i < k);
  }

  /** Neither string contains the other, shown by a character of each that
      the other lacks. */
  lemma NoMatch(host: string, domain: string, inDomain: char, inHost: char)
    requires inDomain in domain && inDomain !in host
    requires inHost in host && inHost !in domain
    ensures !Matches(host, domain)
  {
    MissingChar(host, domain, inDomain);
    MissingChar(domain, host, inHost);
  }

  // ---------------------------------------------------------------------
  // Keywords

  /** `keywords.filter(k => text.includes(k.toLowerCase()))`. */
  function KeywordsIn(keywords: seq<string>, text: string): (found: seq<string>)
    ensures |found| <= |keywords|
    ensures forall k :: k in found <==> k in keywords && Contains(text, ToLower(k))
  {
    if keywords == [] then []
    else
      var rest := KeywordsIn(keywords[1..], text);
      assert forall k :: k in keywords <==> k == keywords[0] || k in keywords[1..];
      if Contains(text, ToLower(keywords[0])) then [keywords[0]] + rest else rest
  }

  /** Number of listed keywords occurring in the page text, ignoring case. */
  function KeywordCount(pageContent: string): (count: nat)
    ensures count <= |AiKeywords|
  {
    |KeywordsIn(AiKeywords, ToLower(pageContent))|
  }

  predicate NoDuplicates(s: seq<string>)
  {
    forall i, j :: 0 <= i < j < |s| ==> s[i] != s[j]
  }

  /** The 26 keywords are pairwise different: equal-length entries differ in
      their second or their second-to-last character. */
  lemma KeywordsAreDistinct()
    ensures NoDuplicates(AiKeywords)
  {
    var ks := AiKeywords;
    forall i, j | 0 <= i < j < |ks|
      ensures ks[i] != ks[j]
    {
      if |ks[i]| == |ks[j]| {
        assert ks[i][1] != ks[j][1] || ks[i][|ks[i]| - 2] != ks[j][|ks[j]| - 2];
      }
    }
  }

  lemma {:induction false} FilterKeepsDistinct(keywords: seq<string>, text: string)
    requires NoDuplicates(keywords)
    ensures NoDuplicates(KeywordsIn(keywords, text))
  {
    if keywords != [] {
      var rest := keywords[1..];
      assert NoDuplicates(rest) by {
        forall i, j | 0 <= i < j < |rest| ensures rest[i] != rest[j] {
          assert rest[i] == keywords[i + 1] && rest[j] == keywords[j + 1];
        }
      }
      FilterKeepsDistinct(rest, text);
      assert keywords[0] !in rest by {
        forall i | 0 <= i < |rest| ensures rest[i] != keywords[0] {
          assert rest[i] == keywords[i + 1];
        }
      }
      var found := KeywordsIn(rest, text);
      if Contains(text, ToLower(keywords[0])) {
        var all := [keywords[0]] + found;
        forall i, j | 0 <= i < j < |all| ensures all[i] != all[j] {
          if i == 0 {
            assert all[j] == found[j - 1] && all[j] in found;
          } else {
            assert all[i] == found[i - 1] && all[j] == found[j - 1];
          }
        }
      }
    }
  }

  lemma {:induction false} DistinctCardinality(s: seq<string>)
    requires NoDuplicates(s)
    ensures |set k | k in s| == |s|
  {
    if s != [] {
      var rest := s[1..];
      assert NoDuplicates(rest) by {
        forall i, j | 0 <= i < j < |rest| ensures rest[i] != rest[j] {
          assert rest[i] == s[i + 1] && rest[j] == s[j + 1];
        }
      }
      DistinctCardinality(rest);
      assert s[0] !in rest by {
        forall i | 0 <= i < |rest| ensures rest[i] != s[0] {
          assert rest[i] == s[i + 1];
        }
      }
      assert (set k | k in s) == {s[0]} + (set k | k in rest);
    }
  }

  /** For a keyword list without repeats, the filter's length is the number
      of DISTINCT listed keywords found in the text. */
  lemma FilterCountIsDistinct(keywords: seq<string>, text: string)
    requires NoDuplicates(keywords)
    ensures |KeywordsIn(keywords, text)|
         == |set k | k in keywords && Contains(text, ToLower(k))|
  {
    var found := KeywordsIn(keywords, text);
    FilterKeepsDistinct(keywords, text);
    DistinctCardinality(found);
    assert (set k | k in found) == (set k | k in keywords && Contains(text, ToLower(k)));
  }

  /** The list has no repeats, so the count is the number of distinct listed
      keywords found in the lower-cased page text. */
  lemma KeywordCountIsDistinct(pageContent: string)
    ensures KeywordCount(pageContent)
         == |set k | k in AiKeywords && Contains(ToLower(pageContent), ToLower(k))|
  {
    KeywordsAreDistinct();
    FilterCountIsDistinct(AiKeywords, ToLower(pageContent));
  }

  /** Letter case in the page text does not change the count. */
  lemma KeywordCountIgnoresCase(pageContent: string)
    ensures KeywordCount(ToLower(pageContent)) == KeywordCount(pageContent)
  {
    ToLowerIdempotent(pageContent);
  }

  // ---------------------------------------------------------------------
  // Classification

  datatype AIType = NoAI | PrimaryAIService | AIFeatures
  {
    /** The tag the source reports for each kind of detection. */
    function Tag(): string
    {
      match this
      case NoAI => "none"
      case PrimaryAIService => "primary_ai_service"
      case AIFeatures => "ai_features"
    }
  }

  /** A guessed model (or none) with the impact multiplier it implies. */
  datatype Inference = Inference(model: Option<string>, multiplier: real)

  /** What `detectAIUsage` returns; `domain` is the matched list entry. */
  datatype AIAnalysis = AIAnalysis(
    aiDetected: bool,
    aiType: AIType,
    aiModel: Option<string>,
    multiplier: real,
    domain: Option<string>)

  /** One step of an inference chain: if any hint occurs in the matched
      domain, the model and multiplier it names are chosen. */
  datatype Rule = Rule(hints: seq<string>, model: string, multiplier: real)

  predicate Fires(rule: Rule, domain: string)
  {
    exists h :: h in rule.hints && Contains(domain, h)
  }

  /** The first firing rule decides; with none firing, `fallback` stands. */
  function ApplyRules(rules: seq<Rule>, domain: string, fallback: Inference): (inf: Inference)
    ensures (forall i :: 0 <= i < |rules| ==> !Fires(rules[i], domain)) ==> inf == fallback
    ensures forall i :: 0 <= i < |rules| && Fires(rules[i], domain)
                     && (forall j :: 0 <= j < i ==> !Fires(rules[j], domain))
                     ==> inf == Inference(Some(rules[i].model), rules[i].multiplier)
  {
    if rules == [] then fallback
    else if Fires(rules[0], domain) then Inference(Some(rules[0].model), rules[0].multiplier)
    else
      var inf := ApplyRules(rules[1..], domain, fallback);
      assert forall i :: 1 <= i < |rules| ==> rules[i] == rules[1..][i - 1];
      inf
  }

  /** The primary-service chain, in the source's order. */
  const PrimaryRules: seq<Rule> := [
    Rule(["chatgpt", "openai"], "GPT-4", 3.5),
    Rule(["claude", "anthropic"], "Claude", 3.0),
    Rule(["gemini", "bard"], "Gemini", 3.2)
  ]

  /** A primary AI service with no recognised model still triples the impact. */
  const PrimaryDefault: Inference := Inference(None, 3.0)

  /** Model inference for a matched primary domain: GPT-4, then Claude, then
      Gemini, then no model at 3.0x. */
  function InferPrimary(matched: string): (inf: Inference)
    ensures inf.multiplier == 3.0 || inf.multiplier == 3.2 || inf.multiplier == 3.5
  {
    if Contains(matched, "chatgpt") || Contains(matched, "openai") then
      Inference(Some("GPT-4"), 3.5)
    else if Contains(matched, "claude") || Contains(matched, "anthropic") then
      Inference(Some("Claude"), 3.0)
    else if Contains(matched, "gemini") || Contains(matched, "bard") then
      Inference(Some("Gemini"), 3.2)
    else
      PrimaryDefault
  }

  /** The nested checks of `InferPrimary` are the ordered rule table. */
  lemma InferPrimaryFollowsRules(matched: string)
    ensures InferPrimary(matched) == ApplyRules(PrimaryRules, matched, PrimaryDefault)
  {
    var r0, r1, r2 := PrimaryRules[0], PrimaryRules[1], PrimaryRules[2];
    assert Fires(r0, matched) <==> Contains(matched, "chatgpt") || Contains(matched, "openai");
    assert Fires(r1, matched) <==> Contains(matched, "claude") || Contains(matched, "anthropic");
    assert Fires(r2, matched) <==> Contains(matched, "gemini") || Contains(matched, "bard");
  }

  /** Model inference for a matched partial domain with enough keywords:
      GitHub with "copilot" in the text beats Notion, any other site keeps
      the 1.5 multiplier without a model. */
  function InferFeatures(matched: string, lowerContent: string): (inf: Inference)
    ensures inf.multiplier == 1.5 || inf.multiplier == 1.6 || inf.multiplier == 1.8
    ensures inf.model in {None, Some("GitHub Copilot"), Some("Notion AI")}
    ensures inf.model.None? <==> inf.multiplier == 1.5
    ensures inf.model == Some("GitHub Copilot") ==> inf.multiplier == 1.8
    ensures inf.model == Some("Notion AI") ==> inf.multiplier == 1.6
    ensures inf.model == Some("GitHub Copilot")
        <==> Contains(matched, "github.com") && Contains(lowerContent, "copilot")
    ensures inf.model == Some("Notion AI")
        <==> !(Contains(matched, "github.com") && Contains(lowerContent, "copilot"))
             && Contains(matched, "notion.so")
  {
    if Contains(matched, "github.com") && Contains(lowerContent, "copilot") then
      Inference(Some("GitHub Copilot"), 1.8)
    else if Contains(matched, "notion.so") then
      Inference(Some("Notion AI"), 1.6)
    else
      Inference(None, 1.5)
  }

  /** The other partial domains, stackoverflow.com and reddit.com, name no
      model and keep the 1.5 multiplier, whatever the text. */
  lemma OtherPartialSites(lowerContent: string)
    ensures InferFeatures("stackoverflow.com", lowerContent) == Inference(None, 1.5)
    ensures InferFeatures("reddit.com", lowerContent) == Inference(None, 1.5)
  {
    MissingChar("stackoverflow.com", "github.com", 'g');
    MissingChar("stackoverflow.com", "notion.so", 'i');
    MissingChar("reddit.com", "github.com", 'g');
    MissingChar("reddit.com", "notion.so", 'n');
  }

  /** Some primary AI domain matches the host. */
  predicate PrimaryHit(domain: string)
  {
    exists d :: d in PrimaryDomains && Matches(domain, d)
  }

  /** Some partial AI domain matches the host. */
  predicate PartialHit(domain: string)
  {
    exists d :: d in PartialDomains && Matches(domain, d)
  }

  /** `detectAIUsage` on the URL's host name (before the `www.` strip) and
      the page text. A primary match decides alone; otherwise a partial match
      needs more than three keywords in the text. */
  function DetectAIUsage(hostname: string, pageContent: string): (r: AIAnalysis)
    ensures r.multiplier == 1.0 <==> !r.aiDetected
    ensures r.aiDetected ==> r.multiplier in {1.5, 1.6, 1.8, 3.0, 3.2, 3.5}
    ensures r.multiplier >= 1.0
    ensures r.aiModel.Some? ==> r.aiDetected
    ensures r.aiType == NoAI <==> !r.aiDetected
    ensures r.aiType == PrimaryAIService <==> PrimaryHit(StripWww(hostname))
    ensures r.aiType == AIFeatures
        <==> !PrimaryHit(StripWww(hostname)) && PartialHit(StripWww(hostname))
             && KeywordCount(pageContent) > KeywordThreshold
    ensures r.aiType == PrimaryAIService ==> r.domain.Some? && r.domain.value in PrimaryDomains
    ensures r.aiType != PrimaryAIService ==>
              (r.domain.Some? <==> PartialHit(StripWww(hostname)))
              && (r.domain.Some? ==> r.domain.value in PartialDomains)
    ensures r.aiType != PrimaryAIService ==> r.domain == FindFirst(PartialDomains, StripWww(hostname))
    ensures r.aiType == AIFeatures ==>
              r.domain.Some?
              && Inference(r.aiModel, r.multiplier) == InferFeatures(r.domain.value, ToLower(pageContent))
  {
    var domain := StripWww(hostname);
    var matched := FindFirst(PrimaryDomains, domain);
    var matchedPartial := FindFirst(PartialDomains, domain);
    if matched.Some? then
      var inf := InferPrimary(matched.value);
      AIAnalysis(true, PrimaryAIService, inf.model, inf.multiplier, matched)
    else if matchedPartial.Some? && KeywordCount(pageContent) > KeywordThreshold then
      var inf := InferFeatures(matchedPartial.value, ToLower(pageContent));
      AIAnalysis(true, AIFeatures, inf.model, inf.multiplier, matchedPartial)
    else
      AIAnalysis(false, NoAI, None, 1.0, matchedPartial)
  }

  // ---------------------------------------------------------------------
  // Precedence

  /** The first primary domain in list order that matches wins, whatever the
      page text, and its model comes from the primary chain. */
  lemma FirstPrimaryWins(hostname: string, pageContent: string, i: int)
    requires FirstMatchAt(PrimaryDomains, StripWww(hostname), i)
    ensures DetectAIUsage(hostname, pageContent).aiType == PrimaryAIService
    ensures DetectAIUsage(hostname, pageContent).domain == Some(PrimaryDomains[i])
    ensures Inference(DetectAIUsage(hostname, pageContent).aiModel, DetectAIUsage(hostname, pageContent).multiplier)
         == InferPrimary(PrimaryDomains[i])
  {
    FindFirstAt(PrimaryDomains, StripWww(hostname), i);
  }

  /** Once a primary domain matches, the page text plays no part. */
  lemma PrimaryIgnoresContent(hostname: string, content1: string, content2: string)
    requires PrimaryHit(StripWww(hostname))
    ensures DetectAIUsage(hostname, content1) == DetectAIUsage(hostname, content2)
  {
  }

  /** Three keywords are not enough: without a primary match the result is
      "nothing detected", still carrying the partial match as its domain. */
  lemma ThresholdIsStrict(hostname: string, pageContent: string)
    requires !PrimaryHit(StripWww(hostname))
    requires KeywordCount(pageContent) <= KeywordThreshold
    ensures DetectAIUsage(hostname, pageContent)
         == AIAnalysis(false, NoAI, None, 1.0, FindFirst(PartialDomains, StripWww(hostname)))
  {
  }

  /** The `aiType` strings reported: "none" exactly when nothing is
      detected, "primary_ai_service" exactly on a primary match, and
      "ai_features" exactly for a detection without one. */
  lemma ReportedTags(hostname: string, pageContent: string)
    ensures var r := DetectAIUsage(hostname, pageContent);
            && (r.aiType.Tag() == "none" <==> !r.aiDetected)
            && (r.aiType.Tag() == "primary_ai_service" <==> PrimaryHit(StripWww(hostname)))
            && (r.aiType.Tag() == "ai_features" <==> r.aiDetected && !PrimaryHit(StripWww(hostname)))
  {
  }

  // ---------------------------------------------------------------------
  // Partial domains

  /** Without a primary match, GitHub with enough keywords and "copilot" in
      the text is GitHub Copilot at 1.8x: the Copilot check comes before the
      Notion one. */
  lemma GithubCopilot(hostname: string, pageContent: string)
    requires !PrimaryHit(StripWww(hostname))
    requires FindFirst(PartialDomains, StripWww(hostname)) == Some("github.com")
    requires KeywordCount(pageContent) > KeywordThreshold
    requires Contains(ToLower(pageContent), "copilot")
    ensures DetectAIUsage(hostname, pageContent)
         == AIAnalysis(true, AIFeatures, Some("GitHub Copilot"), 1.8, Some("github.com"))
  {
    ContainsSelf("github.com");
  }

  /** Without a primary match, Notion with enough keywords is Notion AI at
      1.6x, whatever else the text mentions. */
  lemma NotionAi(hostname: string, pageContent: string)
    requires !PrimaryHit(StripWww(hostname))
    requires FindFirst(PartialDomains, StripWww(hostname)) == Some("notion.so")
    requires KeywordCount(pageContent) > KeywordThreshold
    ensures DetectAIUsage(hostname, pageContent)
         == AIAnalysis(true, AIFeatures, Some("Notion AI"), 1.6, Some("notion.so"))
  {
    ContainsSelf("notion.so");
    MissingChar("notion.so", "github.com", 'g');
  }

  /** A host misses every entry of `ds` when, for each entry, some character
      of the entry is missing from the host and some character of the host is
      missing from the entry. */
  lemma MissAll(host: string, ds: seq<string>, inDomain: seq<char>, inHost: seq<char>)
    requires |inDomain| == |ds| && |inHost| == |ds|
    requires forall i :: 0 <= i < |ds| ==> inDomain[i] in ds[i] && inDomain[i] !in host
    requires forall i :: 0 <= i < |ds| ==> inHost[i] in host && inHost[i] !in ds[i]
    ensures forall d :: d in ds ==> !Matches(host, d)
  {
    forall i | 0 <= i < |ds|
      ensures !Matches(host, ds[i])
    {
      NoMatch(host, ds[i], inDomain[i], inHost[i]);
    }
  }

  // The 19 primary domains are checked against github.com in four literal
  // chunks, each an instance of `MissAll`, so that every proof stays small.

  /** github.com matches none of primary domains 1 to 5. */
  lemma GithubMissesChunk1()
    ensures forall d :: d in ["openai.com", "chatgpt.com", "claude.ai", "anthropic.com", "gemini.google.com"] ==> !Matches("github.com", d)
  {
    MissAll("github.com", ["openai.com", "chatgpt.com", "claude.ai", "anthropic.com", "gemini.google.com"], "palae", "guggh");
  }

  /** github.com matches none of primary domains 6 to 10. */
  lemma GithubMissesChunk2()
    ensures forall d :: d in ["bard.google.com", "cohere.ai", "huggingface.co", "replicate.com", "stability.ai"] ==> !Matches("github.com", d)
  {
    MissAll("github.com", ["bard.google.com", "cohere.ai", "huggingface.co", "replicate.com", "stability.ai"], "aenrs", "hgbgg");
  }

  /** github.com matches none of primary domains 11 to 15. */
  lemma GithubMissesChunk3()
    ensures forall d :: d in ["midjourney.com", "runwayml.com", "character.ai", "perplexity.ai", "you.com"] ==> !Matches("github.com", d)
  {
    MissAll("github.com", ["midjourney.com", "runwayml.com", "character.ai", "perplexity.ai", "you.com"], "drapy", "ggggg");
  }

  /** github.com matches none of primary domains 16 to 19. */
  lemma GithubMissesChunk4()
    ensures forall d :: d in ["poe.com", "jasper.ai", "copy.ai", "writesonic.com"] ==> !Matches("github.com", d)
  {
    MissAll("github.com", ["poe.com", "jasper.ai", "copy.ai", "writesonic.com"], "pjpw", "gggg");
  }

  /** github.com matches none of the 19 primary domains. */
  lemma GithubIsNotPrimary()
    ensures !PrimaryHit("github.com")
  {
    GithubMissesChunk1();
    GithubMissesChunk2();
    GithubMissesChunk3();
    GithubMissesChunk4();
  }

  /** github.com is the second partial domain and the first to match. */
  lemma GithubIsFirstPartial()
    ensures FindFirst(PartialDomains, "github.com") == Some("github.com")
  {
    var host: string := "github.com";
    assert !Matches(host, PartialDomains[0]) by { NoMatch(host, "notion.so", 'n', 'g'); }
    assert FirstMatchAt(PartialDomains, host, 1);
    FindFirstAt(PartialDomains, host, 1);
  }

  /** On github.com, more than three keywords and "copilot" in the text make
      GitHub Copilot at 1.8x. */
  lemma GithubCopilotHost(pageContent: string)
    requires KeywordCount(pageContent) > KeywordThreshold
    requires Contains(ToLower(pageContent), "copilot")
    ensures DetectAIUsage("github.com", pageContent)
         == AIAnalysis(true, AIFeatures, Some("GitHub Copilot"), 1.8, Some("github.com"))
  {
    var host: string := "github.com";
    assert StripWww(host) == host by { assert host[0] != WwwPrefix[0]; }
    GithubIsNotPrimary();
    GithubIsFirstPartial();
    GithubCopilot(host, pageContent);
  }

  // ---------------------------------------------------------------------
  // Scenarios

  /** Every string contains the empty string, so an empty host name matches
      the first entry, openai.com. */
  lemma EmptyHostIsOpenAI(pageContent: string)
    ensures DetectAIUsage("", pageContent)
         == AIAnalysis(true, PrimaryAIService, Some("GPT-4"), 3.5, Some("openai.com"))
  {
    var host := StripWww("");
    assert host == [];
    ContainsEmpty("openai.com");
    assert Matches(host, PrimaryDomains[0]);
    assert FirstMatchAt(PrimaryDomains, host, 0);
    FirstPrimaryWins("", pageContent, 0);
    OpenAiDomainsAreGpt4();
  }

  /** Both OpenAI domains name GPT-4 at 3.5x. */
  lemma OpenAiDomainsAreGpt4()
    ensures InferPrimary("openai.com") == Inference(Some("GPT-4"), 3.5)
    ensures InferPrimary("chatgpt.com") == Inference(Some("GPT-4"), 3.5)
  {
    var openai: string, chatgpt: string := "openai.com", "chatgpt.com";
    assert openai[..6] == "openai";
    ContainsAt(openai, "openai", 0);
    assert chatgpt[..7] == "chatgpt";
    ContainsAt(chatgpt, "chatgpt", 0);
  }

  /** A subdomain matches its service: api.openai.com is GPT-4. */
  lemma SubdomainHost(pageContent: string)
    ensures DetectAIUsage("api.openai.com", pageContent)
         == AIAnalysis(true, PrimaryAIService, Some("GPT-4"), 3.5, Some("openai.com"))
  {
    var host: string := "api.openai.com";
    assert !(WwwPrefix <= host) by { assert host[0] != WwwPrefix[0]; }
    var d: string := "openai.com";
    assert host[4..14] == d;
    ContainsAt(host, d, 4);
    assert FirstMatchAt(PrimaryDomains, host, 0);
    FirstPrimaryWins(host, pageContent, 0);
    OpenAiDomainsAreGpt4();
  }

  lemma ChatGptIsSecondEntry()
    ensures FirstMatchAt(PrimaryDomains, "chatgpt.com", 1)
  {
    var host: string := "chatgpt.com";
    assert !Matches(host, PrimaryDomains[0]) by {
      NoMatch(host, "openai.com", 'e', 'h');
    }
    assert Matches(host, PrimaryDomains[1]) by {
      ContainsSelf(host);
    }
  }

  /** chatgpt.com, with or without `www.`, is GPT-4 at 3.5x. */
  lemma ChatGptHost(pageContent: string)
    ensures DetectAIUsage("chatgpt.com", pageContent)
         == AIAnalysis(true, PrimaryAIService, Some("GPT-4"), 3.5, Some("chatgpt.com"))
    ensures DetectAIUsage("www.chatgpt.com", pageContent)
         == DetectAIUsage("chatgpt.com", pageContent)
  {
    var host: string := "chatgpt.com";
    assert !(WwwPrefix <= host) by { assert host[0] != WwwPrefix[0]; }
    var full: string := "www.chatgpt.com";
    assert full[..4] == WwwPrefix && full[4..] == host;
    assert StripWww(full) == host;
    ChatGptIsSecondEntry();
    OpenAiDomainsAreGpt4();
    FirstPrimaryWins(host, pageContent, 1);
  }
}

# GreenScore calculator, modelled in Dafny

GreenScore is a browser extension. It estimates the carbon footprint of a web
page and grades it. Its calculator object, `GreenCalculator`, does the work:
- turns a page size into grams of CO2, halved for green hosting;
- maps grams to a 0-100 score and the score to a colour, rating, letter grade and emoji;
- picks display units;
- detects whether the site is an AI service, or a site with AI features, and scales the footprint by a multiplier;
- assembles a report, or a fixed estimate when the URL cannot be parsed.

The content script colours its badge from a 0-5 rating.

The model is functional, like the source, which builds values and has no
state of its own. The two network requests and URL parsing are replaced by
their outcomes, passed in as data:
- `SizeProbe` for the HEAD request;
- `GreenCheck` for the green-hosting request;
- a `Result` holding the host name or the parser's error.

Modules:
- `Strings`: `includes`, `startsWith`, ASCII `toLowerCase`, and stripping a leading `www.`.
- `Emissions`: the constants and the CO2 formula.
- `Scoring`: the score ladder and the four six-tier presentations.
- `Formatting`: the unit choice of the display strings.
- `Detection`: AI detection.
- `Impact`: page size, green hosting and the report.
- `Badge`: the content script's badge colour.

Facts about the source that the model keeps:
- `AI_PATTERNS` is a static table of three lists: 19 primary AI domains, 4 partial AI domains and 26 keywords. There is no per-domain multiplier mapping, remote pattern set or cache.
- Multipliers come from fixed checks.
  - A primary service is GPT-4 at 3.5 (the matched domain contains "chatgpt" or "openai"), Claude at 3.0, Gemini at 3.2, and otherwise 3.0 without a model.
  - A site with AI features is GitHub Copilot at 1.8 (the matched domain contains "github.com" and the page text contains "copilot"), Notion AI at 1.6 (the matched domain contains "notion.so"), and otherwise 1.5 without a model.
- The fallback report's `isGreen` is `null` (here `None`), not `false`.
- No water figure is computed.
- Scores take only the values 20, 30, …, 100.
- "More than three keywords" counts listed keyword entries that occur in the text. Overlapping entries such as "gpt" and "chatgpt" both count. The 26 entries are pairwise different, so this is the number of distinct listed keywords found.

## Model

| member | source | states |
|---|---|---|
| Emissions.CalculateCO2 | extension/green-calculator.js:6-22 | grams are bytes × 0.000003114 on ordinary hosting and bytes × 0.000001557 on green hosting; never negative for a real size; positive for a non-empty page |
| Emissions.GreenHalves | extension/green-calculator.js:16-22 | green hosting exactly halves the estimate and is strictly cheaper for a non-empty page |
| Emissions.Additive | extension/green-calculator.js:16-22 | the estimate for a + b bytes is the sum of the estimates |
| Emissions.MonotoneInBytes | extension/green-calculator.js:16-22 | a larger page never costs less |
| Emissions.DefaultSizes | extension/green-calculator.js:6-22 | the 2 MB default page costs 6.228 g, or 3.114 g when green; the 1 MB special page costs 3.114 g |
| Scoring.CalculateGreenScore | extension/green-calculator.js:25-39 | the score is one of 20..100 in steps of 10: {20,40,60,70,80,90} without green hosting, {30,50,70,80,90,100} with it; under 1 g scores at least 90; 20 g or more scores at most 30 |
| Scoring.GreenBonus | extension/green-calculator.js:35-36 | the green score is min(100, plain score + 10) and strictly above the plain score |
| Scoring.ScoreNonIncreasing | extension/green-calculator.js:25-39 | more CO2 never gives a higher score |
| Scoring.BucketEdges | extension/green-calculator.js:28-33 | the bucket bounds 1, 2, 5, 10, 20 are strict: a value on a bound falls in the worse bucket, and a value just below it in the better one |
| Scoring.ScoreBands | extension/green-calculator.js:28-33 | without green hosting, 90, 80, 70, 60, 40 and 20 are earned exactly below 1 g, in [1, 2), [2, 5), [5, 10), [10, 20) and from 20 g up |
| Scoring.Tier | extension/green-calculator.js:42-49 | the tier is the first of the floors 90/80/70/60/40 the score reaches (5 when none): every earlier floor is missed |
| Scoring.TierMonotone | extension/green-calculator.js:42-49 | a higher score never lands in a worse tier |
| Scoring.ScoreColor | extension/green-calculator.js:42-49 | the colour is the score tier's entry in the six-colour table, dark green to red |
| Scoring.ScoreRating | extension/green-calculator.js:52-59 | the rating is the tier's entry in Excellent … Very Poor |
| Scoring.LetterGrade | extension/green-calculator.js:62-69 | the grade is the tier's entry in A+, A, B, C, D, F |
| Scoring.ScoreEmoji | extension/green-calculator.js:385-392 | the emoji is the tier's entry in the six-emoji table |
| Scoring.ColorIdentifiesTier | extension/green-calculator.js:42-49 | two scores share a colour if and only if they share a tier |
| Scoring.RatingIdentifiesTier | extension/green-calculator.js:52-59 | two scores share a rating if and only if they share a tier |
| Scoring.GradeIdentifiesTier | extension/green-calculator.js:62-69 | two scores share a letter grade if and only if they share a tier |
| Scoring.EmojiIdentifiesTier | extension/green-calculator.js:385-392 | two scores share an emoji if and only if they share a tier |
| Scoring.Score85 | extension/green-calculator.js:42-69 | 85 is light green, "Very Good", "A" and the seedling emoji |
| Formatting.FormatCO2 | extension/green-calculator.js:72-76 | milligrams if and only if below 1 g, grams otherwise; the display denotes exactly the given mass |
| Formatting.FormatPageSize | extension/green-calculator.js:79-83 | megabytes if and only if strictly above 1,000,000 bytes, kilobytes otherwise; the display denotes exactly the given size |
| Formatting.OneMegabyteShowsAsKilobytes | extension/green-calculator.js:80-82 | exactly 1,000,000 bytes shows as 1000 KB; one byte more switches to MB |
| Strings.Contains | extension/green-calculator.js:188 | `includes`: a string never contains a longer one, and contains each of its prefixes (the empty string and itself among them) |
| Strings.ToLower | extension/green-calculator.js:216-217 | same length, every upper-case letter A-Z replaced by its lower-case partner (code point + 32), every other character kept, no upper-case letter left |
| Strings.ToLowerIdempotent | extension/green-calculator.js:216-217 | lower-casing twice is lower-casing once |
| Strings.StripWww | extension/green-calculator.js:180 | a leading `www.` is removed and restoring it gives back the host; any other host is unchanged; never longer |
| Strings.StripWwwOnce | extension/green-calculator.js:180 | only one leading `www.` is removed: stripping `www.` + h gives h, even when h itself starts with `www.` |
| Strings.MissingChar | extension/green-calculator.js:187-189 | a character of the needle absent from the haystack rules out `includes` |
| Impact.IsSpecialUrl | extension/green-calculator.js:86-91 | a URL is special if and only if it starts with one of chrome://, chrome-extension://, moz-extension://, about: |
| Impact.SpecialUrls | extension/green-calculator.js:86-91 | chrome://settings and about:blank are special |
| Impact.GetPageSize | extension/green-calculator.js:133-153 | special pages are 1 MB whatever the probe; otherwise the header's byte count when one is present, and 2 MB on failure, timeout or a missing header |
| Impact.SpecialPageIgnoresProbe | extension/green-calculator.js:135-137 | a special page's size does not depend on the probe |
| Impact.CheckGreenHosting | extension/green-calculator.js:104-130 | green if and only if the service answered ok with `green: true`; errors, timeouts, non-ok statuses and a missing field all count as not green |
| Detection.Matches | extension/green-calculator.js:187-189 | the two-way `includes` test: a host matches its own entry, and an empty host or entry matches anything |
| Detection.FindFirst | extension/green-calculator.js:187-189 | None if and only if no entry matches the host; otherwise the entry returned is the first one that matches |
| Detection.FindFirstAt | extension/green-calculator.js:187-189 | when entry i is the first match, it is the one found |
| Detection.NoMatch | extension/green-calculator.js:187-189 | a character of each string that the other lacks shows that neither contains the other |
| Detection.KeywordsIn | extension/green-calculator.js:216-218 | the filter keeps exactly the listed keywords whose lower-cased form occurs in the text, and is no longer than the list |
| Detection.KeywordsAreDistinct | extension/green-calculator.js:168-175 | the 26 listed keywords are pairwise different |
| Detection.KeywordCount | extension/green-calculator.js:216-218 | the count of listed keywords found in the lower-cased page text is at most 26 |
| Detection.KeywordCountIsDistinct | extension/green-calculator.js:216-218 | the count equals the number of distinct listed keywords whose lower-cased form occurs in the lower-cased page text |
| Detection.FilterCountIsDistinct | extension/green-calculator.js:216-218 | for a list without repeats, the count equals the number of distinct listed keywords in the text |
| Detection.KeywordCountIgnoresCase | extension/green-calculator.js:216-218 | the keyword count does not depend on the letter case of the page text |
| Detection.ApplyRules | extension/green-calculator.js:197-206 | the first rule whose hint occurs in the domain decides model and multiplier; with none firing, the fallback stands |
| Detection.InferPrimary | extension/green-calculator.js:194-206 | a primary service's multiplier is 3.0, 3.2 or 3.5 |
| Detection.InferPrimaryFollowsRules | extension/green-calculator.js:194-206 | the nested checks are the ordered table GPT-4 (chatgpt/openai, 3.5), Claude (claude/anthropic, 3.0), Gemini (gemini/bard, 3.2), default no model at 3.0 |
| Detection.InferFeatures | extension/green-calculator.js:223-231 | the model is GitHub Copilot, Notion AI or none; GitHub Copilot (always at 1.8) if and only if the domain has github.com and the text has "copilot"; otherwise Notion AI (always at 1.6) if and only if the domain has notion.so; no model if and only if the multiplier is 1.5 |
| Detection.OtherPartialSites | extension/green-calculator.js:223-231 | stackoverflow.com and reddit.com name no model and stay at 1.5, whatever the text |
| Detection.DetectAIUsage | extension/green-calculator.js:179-242 | multiplier 1.0 if and only if nothing is detected, else one of 1.5/1.6/1.8/3.0/3.2/3.5; a model only when detected; primary type if and only if a primary domain matches; AI features if and only if there is no primary match, a partial match and more than 3 keywords; a detected AI-features result has the model and multiplier `InferFeatures` gives for the first partial match and the lower-cased text; without a primary match the reported domain is the first partial match, or none |
| Detection.FirstPrimaryWins | extension/green-calculator.js:187-206 | the first matching primary entry in list order is reported, and its model comes from the primary chain, whatever the page text |
| Detection.PrimaryIgnoresContent | extension/green-calculator.js:191-214 | once a primary domain matches, the page text plays no part |
| Detection.ThresholdIsStrict | extension/green-calculator.js:214-233 | with no primary match and at most 3 keywords nothing is detected (multiplier 1.0), but the partial match is still reported as the domain |
| Detection.ReportedTags | extension/green-calculator.js:183-222 | the reported `aiType` string is "none" if and only if nothing is detected, "primary_ai_service" if and only if a primary domain matches, and "ai_features" if and only if something is detected without a primary match |
| Detection.GithubCopilot | extension/green-calculator.js:225-227 | github.com with enough keywords and "copilot" in the text is GitHub Copilot at 1.8 |
| Detection.NotionAi | extension/green-calculator.js:228-230 | notion.so with enough keywords is Notion AI at 1.6 |
| Detection.MissAll | extension/green-calculator.js:187-189 | a host whose characters show, entry by entry, that neither string contains the other matches no entry of the list |
| Detection.GithubIsNotPrimary | extension/green-calculator.js:157-189 | github.com matches none of the 19 primary domains |
| Detection.GithubIsFirstPartial | extension/green-calculator.js:165-212 | github.com's first partial match is github.com (it misses notion.so) |
| Detection.GithubCopilotHost | extension/green-calculator.js:179-242 | github.com with more than 3 keywords and "copilot" in the text is AI features, GitHub Copilot at 1.8, domain github.com |
| Detection.EmptyHostIsOpenAI | extension/green-calculator.js:187-189 | an empty host name matches the first entry, openai.com (every string includes ""), so it is GPT-4 at 3.5 |
| Detection.OpenAiDomainsAreGpt4 | extension/green-calculator.js:197-199 | openai.com and chatgpt.com both infer GPT-4 at 3.5 |
| Detection.SubdomainHost | extension/green-calculator.js:187-199 | api.openai.com matches openai.com and is GPT-4 at 3.5 |
| Detection.ChatGptIsSecondEntry | extension/green-calculator.js:157-158 | chatgpt.com's first match is the second entry, chatgpt.com |
| Detection.ChatGptHost | extension/green-calculator.js:180-199 | chatgpt.com, with or without www., is a primary service, GPT-4 at 3.5 |
| Impact.Surcharge | extension/green-calculator.js:262-267 | a multiplier of at least 1 adds a non-negative AI share and never raises the score |
| Impact.AiNeverHelps | extension/green-calculator.js:259-267 | in a report whose figures agree (CO2 from size, hosting and multiplier; scores from CO2), AI CO2 is non-negative, the total is at least the base, and the score is at most the base score |
| Impact.FallbackReport | extension/green-calculator.js:303-332 | consistent; unsuccessful with the error message; 2 MB, 6.228 g, score 60, C, Fair, yellow; no AI; hosting unknown; domain "unknown"; the CO2, base CO2 and page-size displays are the `formatCO2`/`formatPageSize` displays marked with ~; the AI display is the literal 0 g, in grams and not marked |
| Impact.SuccessReport | extension/green-calculator.js:259-299 | consistent: base CO2 from size and hosting, total scaled by the multiplier, AI share the difference, both scores and the presentations from their figures; each display is `FormatCO2` (or `FormatPageSize`) of its figure, unmarked; AI fields copied from the analysis |
| Impact.CalculateEnvironmentalImpact | extension/green-calculator.js:245-334 | always consistent; success if and only if the URL parses; on failure exactly the fallback report; on success the size is `GetPageSize`, hosting is `CheckGreenHosting`, the domain is the host without www., the AI fields are `DetectAIUsage`, and each display is `FormatCO2` or `FormatPageSize` of its figure; AI never lowers CO2 or raises the score |
| Impact.NoAiNoSurcharge | extension/green-calculator.js:259-267 | without AI the total equals the base, the AI share is 0 and both scores agree |
| Impact.DefaultPageScenario | extension/green-calculator.js:245-299 | an ordinary page of unknown size on ordinary hosting and without AI: 6.228 g, score 60, C, Fair, yellow |
| Impact.ChatGptScenario | extension/green-calculator.js:245-299 | chatgpt.com, unknown size, ordinary hosting: base 6.228 g, total 21.798 g, AI share 15.57 g, score drops from 60 to 20, an F |
| Badge.ClampRating | extension/content.js:11 | a rating is clamped into 0..5: kept when inside, 0 below, 5 above |
| Badge.GetBadgeColor | extension/content.js:2-12 | always one of the six colours; red at or below 0, dark green at or above 5, the rating's own entry in between |
| Badge.ClampMonotone | extension/content.js:11 | a higher rating never selects a redder entry |

## Left out

- Network I/O is not modelled: the HEAD request, the green-hosting request, `withTimeout`, `API_TIMEOUT`, `Promise.all` and console logging. Their outcomes are inputs (`SizeProbe`, `GreenCheck`).
- URL parsing (`new URL(url).hostname`) is an input: a `Result` holding the host name or the parser's error message. The fallback report is built exactly when parsing fails. `DetectAIUsage` takes the parsed host name rather than re-parsing the URL; the source parses the same URL twice with the same outcome.
- Impact.GetPageSize: `parseInt` of the `content-length` header is taken to give a non-negative byte count; NaN and negative header values are not modelled.
- Impact.CheckGreenHosting: the `green` field is modelled as an optional boolean. A truthy non-boolean value, which `data.green || false` would pass through, is not modelled.
- The report's `timestamp` (`Date.now()`) is left out.
- Formatting.FormatCO2 and Formatting.FormatPageSize: `toFixed` rounding is not modelled. A display keeps the exact amount in the chosen unit, and the `~` prefix is a flag.
- Emissions.CalculateCO2: arithmetic is on exact reals, not IEEE doubles. Figures such as 6.228 are exact here and may differ from JavaScript results in the last digits.
- Strings.ToLower: only the ASCII letters A-Z are lower-cased; Unicode case mapping is not modelled.
- Badge.GetBadgeColor: the rating is an integer. A fractional rating, for which the source indexes the array with a non-integer and gets `undefined`, is not modelled.
- Detection.NotionAi takes the partial-domain match as a premise, for any host. The concrete host notion.so is not shown to miss all 19 primary domains: writesonic.com contains every letter of notion.so, so the one-character argument used for github.com does not apply to that entry.
- `generateTooltip` (HTML string building) is not part of this model. Neither are the rest of the content script (DOM manipulation), the popup, and the background worker. The popup's copy of `getScoreEmoji` is the same table as `Scoring.ScoreEmoji`.

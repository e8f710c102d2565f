# Text analyzer: a verified model of the analysis service and the `/analyze` handler

This project models the text analyzer's `TextAnalysisService` and the
validation and error mapping of its `/analyze` endpoint. It proves what the
service promises about its output.

- **Keywords.** RAKE's first ten ranked phrases when RAKE is available and does
  not raise. Otherwise a fallback tokenizer over `text.lower().split()` keeps
  tokens longer than three characters that are not stop words, removes
  duplicates and keeps at most ten. Each branch has a placeholder list, so
  the result is never empty.
- **Sentiment.** The transformers pipeline's label is mapped to
  positive/negative/neutral, with the positive markers tested first. When the
  pipeline raises, a lexicon classifier counts the distinct positive and
  negative words that occur as substrings of the lower-cased text. It answers
  0.8 for the side with more hits and neutral/0.5 on a tie.
- **Moral.** In demo mode, or when the chat call raises, the demo moral is
  used. Text under 20 characters gets a fixed message; longer text gets a
  templated sentence naming one of eight themes. The random choice is an
  explicit `ThemeIndex` argument.
- **Tone transformation.** In demo mode, or when the chat call raises, the
  result is a tone tag from an eight-entry table (default `[Rewritten] `)
  followed by the shortened text. Text of up to 200 characters is kept whole.
  Longer text with no '.' becomes its first 197 characters plus `...`.
  Longer text with two or more '.'s is cut just after the second '.'. Longer
  text with exactly one '.' comes back whole with a second '.' appended.
- **Live prompts.** The moral prompt and the tone prompt each carry an
  instruction followed by the first 1500 characters of the text.
- **Orchestration.** `analyze_text` runs every stage on the original text. It
  transforms only when the tone is present and non-empty, and echoes the tone
  unchanged.
- **Handler.** The blank check runs first, then the length check on the
  untrimmed text (at most 10000 characters). The service is called with the raw
  text. An `HTTPException` passes through unchanged and any other exception
  becomes 500 `Analysis failed: …`.

The external capabilities are parameters of type `string -> Outcome<T>`.
They are RAKE, the transformers pipeline and the OpenAI chat completion. Each
maps the exact text it is handed to what the call returned or raised. This
lets the contracts state which prompt or prefix each capability receives.

Modules: `PyStr` (the Python string operations the code uses), `Outcomes`
(optional values, exceptions, call outcomes), `Models` (`ToneType`),
`Services` (the service), `Api` (the handler).

Behaviours of the code a reader might not expect:

- The lexicon classifier counts distinct lexicon words present, not
  occurrences.
- The fallback keywords go through a Python `set`, so their order is not
  first-seen order.
- The live moral is the stripped chat answer, which may be empty. Only the
  demo moral is always non-empty (`Services.DemoModeAnalysis`).
- With exactly one '.', "shortening" returns the whole text plus a '.'.

## Model

| member | source | states |
|---|---|---|
| PyStr.Lower | text_analyzer/services.py:87 | `lower()` keeps the length and lower-cases each character independently |
| PyStr.Words | text_analyzer/services.py:87 | every token of `split()` is non-empty and contains no whitespace |
| PyStr.WordsSplitAtSpace | text_analyzer/services.py:87 | `split()` cuts at every whitespace character: the tokens of x + c + y, for a whitespace c, are the tokens of x followed by those of y |
| PyStr.WordsOfWord | text_analyzer/services.py:87 | `split()` cuts nowhere else: a non-empty run without whitespace is a single token, so the tokens are the maximal non-whitespace runs |
| PyStr.WordsKeepAllText | text_analyzer/services.py:87 | gluing the tokens of `split()` back together gives exactly the non-whitespace characters of the input |
| PyStr.IsSubstringAt | text_analyzer/services.py:115-116 | the substring test `w in t` holds iff `w` occurs at some position of `t` |
| PyStr.Take | text_analyzer/services.py:81 | a slice `s[:n]` is a prefix of `s` of length min(len(s), n) |
| PyStr.SplitOn | text_analyzer/services.py:218 | no piece of `split('.')` contains a '.' |
| PyStr.SplitOnCount | text_analyzer/services.py:218-219 | `split('.')` yields one piece more than the text has '.'s |
| PyStr.JoinSplitOn | text_analyzer/services.py:218-220 | joining the pieces of `split(d)` with `d` gives back the text |
| PyStr.Strip | text_analyzer/services.py:143 | `strip()` removes a whitespace-only prefix and suffix and leaves no whitespace at either end |
| PyStr.StripEmptyIffBlank | text_analyzer/main.py:37 | `not text.strip()` holds iff the text consists only of whitespace |
| Services.Tokens | text_analyzer/services.py:87 | the tokens of `text.lower().split()`, glued back together, are exactly the non-whitespace characters of the lower-cased text |
| Services.KeepKeywords | text_analyzer/services.py:88-89 | a word is kept iff it is a token, not a stop word and longer than three characters |
| Services.Dedup | text_analyzer/services.py:90 | `list(set(...))` holds each element of its input exactly once and nothing else |
| Services.RakeKeywords | text_analyzer/services.py:81-82 | the RAKE branch returns the first min(n, 10) ranked phrases, or `["meaningful","content","analysis"]` when RAKE ranks none |
| Services.FallbackKeywords | text_analyzer/services.py:86-90 | 1 to 10 results; with no qualifying token exactly `["important","key","concepts"]`; otherwise pairwise distinct qualifying tokens of the lower-cased text, all of them unless ten were taken |
| Services.FallbackHasNoStopWords | text_analyzer/services.py:88-90 | no stop word ever appears in the fallback's result |
| Services.Hits | text_analyzer/services.py:115-116 | the words counted are exactly the lexicon words that occur as a substring of the lower-cased text, each once |
| Services.SimpleSentiment | text_analyzer/services.py:109-123 | positive iff more positive than negative lexicon words occur, negative iff more negative ones occur, neutral iff the counts tie; confidence 0.5 for neutral and 0.8 otherwise |
| Services.OneSidedTextIsDecided | text_analyzer/services.py:115-121 | text with some positive and no negative lexicon word is positive/0.8, and symmetrically for negative |
| Services.MapLabel | text_analyzer/services.py:228-230 | positive iff the label contains POSITIVE or LABEL_1; negative iff it does not but contains NEGATIVE or LABEL_0; neutral otherwise |
| Services.MapLabelKnownLabels | text_analyzer/services.py:228-230 | POSITIVE and LABEL_1 map to positive, NEGATIVE and LABEL_0 to negative, LABEL_2 to neutral |
| Services.AnalyzeSentiment | text_analyzer/services.py:92-107 | the pipeline gets `text[:512]`; its label is mapped and its score passed through; when it raises, the result is the lexicon classifier's |
| Services.DemoMoral | text_analyzer/services.py:148-164 | text under 20 characters yields the fixed too-short message; longer text yields "This story teaches us about " + one catalog theme + ".", never the too-short message |
| Services.ShortDemoMoralIsDeterministic | text_analyzer/services.py:150-151 | on short text the demo moral does not depend on the random draw |
| Services.DemoMoralCoversCatalog | text_analyzer/services.py:153-164 | on long text every themed sentence of the catalog is produced by some draw |
| Services.DemoMoralNonEmpty | text_analyzer/services.py:148-164 | the demo moral is never empty |
| Services.MoralPrompt | text_analyzer/services.py:131 | the moral prompt is the fixed instruction followed by the first min(len, 1500) characters of the text |
| Services.TonePrefix | text_analyzer/services.py:203-214 | the tag is the table entry for a known tone and `[Rewritten] ` otherwise; it always starts with '[' and ends with "] " |
| Services.ToneInstruction | text_analyzer/services.py:172-183 | the instruction is the table entry for a known tone and "Rewrite this text:" otherwise |
| Services.Shorten | text_analyzer/services.py:217-224 | text of at most 200 characters is returned unchanged; longer text always comes back ending in '.' (whichever of the three cases applies) |
| Services.ShortenKeepsShortText | text_analyzer/services.py:217-224 | text of at most 200 characters is not shortened |
| Services.ShortenWithoutDot | text_analyzer/services.py:217-222 | longer text without '.' becomes its first 197 characters plus "...", exactly 200 characters |
| Services.ShortenWithOneDot | text_analyzer/services.py:217-220 | longer text with exactly one '.' becomes the whole text plus "." |
| Services.ShortenWithTwoDots | text_analyzer/services.py:217-220 | longer text with two or more '.'s becomes the prefix of the text that ends at its second '.' |
| Services.DemoTone | text_analyzer/services.py:201-226 | the demo transformation is the tone's tag followed by the shortened text, so it starts with '[' |
| Services.TransformPrompt | text_analyzer/services.py:183-184 | the tone prompt is the tone's instruction, "\n\n", then the first min(len, 1500) characters of the text |
| Models.ToneType.Value | text_analyzer/models.py:5-13 | every tone's value is a non-empty string, so a tone the handler passes on is always truthy |
| Services.TextAnalysisService.constructor | text_analyzer/services.py:12-48 | demo mode iff the key is missing, empty or the placeholder value, or `openai` cannot be imported; RAKE is available iff its imports succeed |
| Services.TextAnalysisService.ExtractKeywords | text_analyzer/services.py:76-90 | RAKE's result when RAKE is available and returns, the fallback otherwise; always 1 to 10 keywords |
| Services.TextAnalysisService.ExtractMoral | text_analyzer/services.py:125-146 | the demo moral in demo mode or when the chat call on the moral prompt raises, the stripped answer otherwise |
| Services.TextAnalysisService.TransformTone | text_analyzer/services.py:166-199 | the demo transformation in demo mode or when the chat call on the tone prompt raises, the stripped answer otherwise |
| Services.TextAnalysisService.AnalyzeText | text_analyzer/services.py:50-74 | keywords, moral and transformation are computed from the original text; tone and confidence come from one sentiment result; the transformed text is absent iff the tone is None or ""; the tone is echoed |
| Services.DemoModeAnalysis | text_analyzer/services.py:125-169 | in demo mode the moral is the non-empty demo moral and a requested transformation is the demo one |
| Services.OnlyMoralDependsOnThemeDraw | text_analyzer/services.py:50-74 | two analyses of one input that differ only in the random draw agree on everything but the moral |
| Api.ToneArgument | text_analyzer/main.py:45 | the service gets the tone's non-empty string value, or None when no tone was given |
| Api.Handle | text_analyzer/main.py:36-53 | blank text gives 400 "Text cannot be empty"; otherwise text over 10000 characters gives 400 "Text too long…"; otherwise the service's result is returned, its `HTTPException` passes unchanged and any other exception gives 500 "Analysis failed: " + message |
| Api.AnalyzeEndpoint | text_analyzer/main.py:43-46 | with the real service the response is a result iff the text is not blank and at most 10000 characters long, that result is the service's analysis of the raw text, and every error is a 400 |
| Api.BlankCheckedBeforeLength | text_analyzer/main.py:37-41 | 10001 spaces are reported as empty, not as too long |
| Api.LengthBoundOnRawText | text_analyzer/main.py:40-41 | 10000 characters reach the service; 10000 characters plus one trailing space are rejected as too long |
| Api.ValidRequestSucceeds | text_analyzer/main.py:43-53 | a valid request with a tone succeeds, carries a transformation and echoes the tone's value |
| Api.ToneTablesCoverApiTones | text_analyzer/models.py:5-13 | every tone the API accepts has its own tag and instruction, so the defaults only serve direct callers of the service |

## Left out

- `Services.FallbackKeywords` fixes first-seen order for `list(set(...))`. Python enumerates a set in an order that depends on string hashing, so the contract makes no claim about order.
- `PyStr.Lower` lower-cases only the ASCII letters A-Z. Python's full Unicode case mapping is not modelled.
- The external calls are opaque outcomes. These are RAKE and its NLTK data downloads, the transformers pipeline and the OpenAI chat completion. The model name, token limits and temperature of the chat calls are not modelled.
- The `async` scheduling and `run_in_executor` are not modelled. The stages run in sequence in the model, as the source awaits them.
- Logging is not modelled.
- Reading `OPENAI_API_KEY` from the environment is an input of the constructor. So are the `openai`, `nltk` and `rake_nltk` imports.
- A non-`ImportError` raised while downloading NLTK data would abort service construction. That path is not modelled.
- Confidences are real constants. The pipeline's score is passed through unchanged, with no floating-point behaviour.
- Pydantic validation is not modelled. That covers building `AnalysisResponse(**result)` and parsing the request's tone into `ToneType` (an unknown tone gets a 422 before the handler runs). The handler receives an already parsed `ToneType`.
- The FastAPI app, CORS, the root and health routes, and the uvicorn startup are HTTP plumbing. They are not part of this model.
- `text_analyzer/__init__.py` and `setup.py` are packaging only. They are not part of this model.
- Exceptions that are not `Exception` subclasses, such as `KeyboardInterrupt`, are not modelled.

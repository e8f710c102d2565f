/** The text-analysis service: keyword extraction, sentiment classification,
    moral extraction and tone transformation, each with its deterministic
    fallback, and the orchestration that assembles one analysis result.
    The external capabilities (RAKE, the transformers sentiment pipeline, the
    OpenAI chat completion) are passed in as functions from the text they are
    given to the outcome of the call. */
module Services {
  import opened PyStr
  import opened Outcomes

  predicate Distinct(s: seq<string>) {
    forall i, j :: 0 <= i < j < |s| ==> s[i] != s[j]
  }

  // ===========================================================================
  // Keyword extraction

  const MaxKeywords: nat := 10

  /** `common_words`, the stop words of the fallback extractor. */
  const CommonWords: set<string> :=
    {"the", "a", "an", "and", "or", "but", "in", "on", "at", "to", "for", "of",
     "with", "by", "is", "are", "was", "were"}

  /** Returned when RAKE ranks no phrase at all. */
  const RakePlaceholder: seq<string> := ["meaningful", "content", "analysis"]

  /** Returned when no token survives the fallback's filters. */
  const FallbackPlaceholder: seq<string> := ["important", "key", "concepts"]

  /** The fallback's filter: not a stop word and longer than three characters. */
  predicate IsKeyword(w: string) {
    w !in CommonWords && |w| > 3
  }

  /** The tokens of `text.lower().split()`. */
  function Tokens(text: string): (r: seq<string>)
    ensures Concat(r) == DropSpace(Lower(text))
  {
    WordsKeepAllText(Lower(text));
    Words(Lower(text))
  }

  /** `[word for word in words if word not in common_words and len(word) > 3]` */
  function KeepKeywords(words: seq<string>): (r: seq<string>)
    ensures forall w :: w in r <==> w in words && IsKeyword(w)
  {
    if words == [] then []
    else
      assert forall w :: w in words <==> w == words[0] || w in words[1..];
      (if IsKeyword(words[0]) then [words[0]] else []) + KeepKeywords(words[1..])
  }

  /** `list(set(s))`: each element of `s` once. Python enumerates a set in an
      order fixed by string hashing; this model uses first-seen order. */
  function Dedup(s: seq<string>): (r: seq<string>)
    ensures Distinct(r)
    ensures forall x :: x in r <==> x in s
  {
    if s == [] then []
    else
      var init := s[..|s| - 1];
      var last := s[|s| - 1];
      assert s == init + [last];
      var p := Dedup(init);
      if last in p then p else p + [last]
  }

  lemma PrefixDistinct(p: seq<string>, s: seq<string>)
    requires p <= s && Distinct(s)
    ensures Distinct(p)
  {
    assert forall i :: 0 <= i < |p| ==> p[i] == s[i];
  }

  /** The RAKE branch: its first ten ranked phrases, or a placeholder when it
      ranks none. */
  function RakeKeywords(phrases: seq<string>): (r: seq<string>)
    ensures 1 <= |r| <= MaxKeywords
    ensures phrases == [] ==> r == RakePlaceholder
    ensures phrases != [] ==> r <= phrases && |r| == Min(|phrases|, MaxKeywords)
  {
    var top := Take(phrases, MaxKeywords);
    if top == [] then RakePlaceholder else top
  }

  /** The fallback branch: at most ten distinct qualifying tokens of the
      lower-cased text, all of them when there are fewer than ten, and a
      placeholder when none qualifies. */
  function FallbackKeywords(text: string): (r: seq<string>)
    ensures 1 <= |r| <= MaxKeywords
    ensures (forall w :: w in Tokens(text) ==> !IsKeyword(w)) ==> r == FallbackPlaceholder
    ensures (exists w :: w in Tokens(text) && IsKeyword(w)) ==>
              && Distinct(r)
              && (forall w :: w in r ==> w in Tokens(text) && IsKeyword(w))
              && (|r| == MaxKeywords || forall w :: w in Tokens(text) && IsKeyword(w) ==> w in r)
  {
    var unique := Dedup(KeepKeywords(Tokens(text)));
    var top := Take(unique, MaxKeywords);
    PrefixDistinct(top, unique);
    if top == [] then FallbackPlaceholder
    else
      assert top[0] in unique;
      assert |unique| <= MaxKeywords ==> top == unique;
      top
  }

  /** No stop word ever reaches the fallback's result. */
  lemma FallbackHasNoStopWords(text: string)
    ensures forall w :: w in FallbackKeywords(text) ==> w !in CommonWords
  {
    if exists w :: w in Tokens(text) && IsKeyword(w) {
    } else {
      assert FallbackKeywords(text) == FallbackPlaceholder;
    }
  }

  // ===========================================================================
  // Sentiment

  datatype Polarity = Positive | Negative | Neutral
  {
    /** The label string reported as `original_tone`. */
    function Name(): string {
      match this
      case Positive => "positive"
      case Negative => "negative"
      case Neutral => "neutral"
    }
  }

  /** A label with the confidence reported for it. */
  datatype SentimentResult = SentimentResult(tone: Polarity, score: real)

  const PositiveWords: set<string> :=
    {"good", "great", "excellent", "amazing", "wonderful", "happy", "love", "nice",
     "beautiful", "perfect", "fantastic"}

  const NegativeWords: set<string> :=
    {"bad", "terrible", "awful", "horrible", "sad", "hate", "angry", "worst",
     "disappointing", "ugly"}

  const DecidedScore: real := 0.8
  const NeutralScore: real := 0.5

  /** The lexicon words that occur somewhere in `t`. */
  function Hits(lexicon: set<string>, t: string): (h: set<string>)
    ensures h <= lexicon
    ensures forall w :: w in h <==> w in lexicon && IsSubstring(w, t)
  {
    set w | w in lexicon && IsSubstring(w, t)
  }

  /** The rule-based classifier: the lexicon with more words present in the
      lower-cased text decides, with confidence 0.8; a tie, including no hit at
      all, is neutral with confidence 0.5. */
  function SimpleSentiment(text: string): (r: SentimentResult)
    ensures var pos := |Hits(PositiveWords, Lower(text))|;
            var neg := |Hits(NegativeWords, Lower(text))|;
            && (r.tone == Positive <==> pos > neg)
            && (r.tone == Negative <==> neg > pos)
            && (r.tone == Neutral <==> pos == neg)
    ensures r.score == (if r.tone == Neutral then NeutralScore else DecidedScore)
  {
    var lower := Lower(text);
    var positiveCount := |Hits(PositiveWords, lower)|;
    var negativeCount := |Hits(NegativeWords, lower)|;
    if positiveCount > negativeCount then SentimentResult(Positive, DecidedScore)
    else if negativeCount > positiveCount then SentimentResult(Negative, DecidedScore)
    else SentimentResult(Neutral, NeutralScore)
  }

  /** Text in which some positive and no negative lexicon word occurs is
      positive with confidence 0.8, and symmetrically for negative. */
  lemma OneSidedTextIsDecided(text: string)
    ensures (exists w :: w in PositiveWords && IsSubstring(w, Lower(text)))
            && (forall w :: w in NegativeWords ==> !IsSubstring(w, Lower(text)))
            ==> SimpleSentiment(text) == SentimentResult(Positive, DecidedScore)
    ensures (exists w :: w in NegativeWords && IsSubstring(w, Lower(text)))
            && (forall w :: w in PositiveWords ==> !IsSubstring(w, Lower(text)))
            ==> SimpleSentiment(text) == SentimentResult(Negative, DecidedScore)
  {
    var lower := Lower(text);
    if exists w :: w in PositiveWords && IsSubstring(w, lower) {
      var w :| w in PositiveWords && IsSubstring(w, lower);
      assert w in Hits(PositiveWords, lower);
    }
    if exists w :: w in NegativeWords && IsSubstring(w, lower) {
      var w :| w in NegativeWords && IsSubstring(w, lower);
      assert w in Hits(NegativeWords, lower);
    }
    if forall w :: w in NegativeWords ==> !IsSubstring(w, lower) {
      assert Hits(NegativeWords, lower) == {};
    }
    if forall w :: w in PositiveWords ==> !IsSubstring(w, lower) {
      assert Hits(PositiveWords, lower) == {};
    }
  }

  /** `_map_sentiment_to_tone`: the positive markers are tested first. */
  function MapLabel(rawLabel: string): (r: Polarity)
    ensures r == Positive <==> IsSubstring("POSITIVE", rawLabel) || IsSubstring("LABEL_1", rawLabel)
    ensures r == Negative <==> !IsSubstring("POSITIVE", rawLabel) && !IsSubstring("LABEL_1", rawLabel)
                               && (IsSubstring("NEGATIVE", rawLabel) || IsSubstring("LABEL_0", rawLabel))
  {
    if IsSubstring("POSITIVE", rawLabel) || IsSubstring("LABEL_1", rawLabel) then Positive
    else if IsSubstring("NEGATIVE", rawLabel) || IsSubstring("LABEL_0", rawLabel) then Negative
    else Neutral
  }

  lemma NotSubstringOfShorter(w: string, t: string)
    requires |t| < |w|
    ensures !IsSubstring(w, t)
  {
    IsSubstringAt(w, t);
  }

  lemma NotSubstringOfSameLength(w: string, t: string)
    requires |t| == |w| && w != t
    ensures !IsSubstring(w, t)
  {
    IsSubstringAt(w, t);
  }

  /** The label sets of the usual sentiment models map as intended. */
  lemma MapLabelKnownLabels()
    ensures MapLabel("POSITIVE") == Positive
    ensures MapLabel("NEGATIVE") == Negative
    ensures MapLabel("LABEL_1") == Positive
    ensures MapLabel("LABEL_0") == Negative
    ensures MapLabel("LABEL_2") == Neutral
  {
    assert IsSubstring("POSITIVE", "POSITIVE");
    assert IsSubstring("LABEL_1", "LABEL_1");
    NotSubstringOfSameLength("POSITIVE", "NEGATIVE");
    assert IsSubstring("NEGATIVE", "NEGATIVE");
    assert !IsSubstring("LABEL_1", "NEGATIVE") by {
      assert "NEGATIVE"[0] != "LABEL_1"[0];
      assert "NEGATIVE"[1..][0] != "LABEL_1"[0];
      NotSubstringOfShorter("LABEL_1", "NEGATIVE"[1..][1..]);
    }
    NotSubstringOfShorter("POSITIVE", "LABEL_0");
    NotSubstringOfSameLength("LABEL_1", "LABEL_0");
    assert IsSubstring("LABEL_0", "LABEL_0");
    NotSubstringOfShorter("POSITIVE", "LABEL_2");
    NotSubstringOfShorter("NEGATIVE", "LABEL_2");
    NotSubstringOfSameLength("LABEL_1", "LABEL_2");
    NotSubstringOfSameLength("LABEL_0", "LABEL_2");
  }

  /** The characters the transformers pipeline is given: `text[:512]`. */
  const SentimentInputLimit: nat := 512

  /** `_analyze_sentiment`: the pipeline's label mapped to a polarity with its
      score, or the rule-based classifier whenever the pipeline raises. */
  function AnalyzeSentiment(text: string, pipeline: string -> Outcome<(string, real)>): (r: SentimentResult)
    ensures var out := pipeline(Take(text, SentimentInputLimit));
            && (out.Returned? ==> r == SentimentResult(MapLabel(out.value.0), out.value.1))
            && (out.Raised? ==> r == SimpleSentiment(text))
  {
    match pipeline(Take(text, SentimentInputLimit))
    case Returned((rawLabel, score)) => SentimentResult(MapLabel(rawLabel), score)
    case Raised(_) => SimpleSentiment(text)
  }

  // ===========================================================================
  // Moral extraction

  const MinMoralLength: nat := 20

  const TooShortMoral: string := "The text is too short to extract a meaningful lesson."

  const MoralLead: string := "This story teaches us about "

  /** The catalog the demo moral picks a theme from. */
  const Themes: seq<string> := [
    "the importance of perseverance and determination in overcoming challenges",
    "the value of friendship, teamwork, and supporting one another",
    "learning from mistakes and using experiences for personal growth",
    "the power of kindness, empathy, and understanding others",
    "the significance of honesty, integrity, and doing what's right",
    "appreciating the simple things in life and finding contentment",
    "the courage to face fears and step outside comfort zones",
    "the wisdom in being patient and thinking before acting"
  ]

  /** The index `random.choice` draws from the eight themes. */
  type ThemeIndex = i: nat | i < 8

  /** The templated sentence naming one theme of the catalog. */
  ghost predicate IsThemedMoral(m: string) {
    exists i :: 0 <= i < |Themes| && m == MoralLead + Themes[i] + "."
  }

  /** `_demo_moral_extraction`, with the random theme choice given as `pick`. */
  function DemoMoral(text: string, pick: ThemeIndex): (r: string)
    ensures |text| < MinMoralLength ==> r == TooShortMoral
    ensures |text| >= MinMoralLength ==> IsThemedMoral(r) && r != TooShortMoral
  {
    if |text| < MinMoralLength then TooShortMoral
    else
      var r := MoralLead + Themes[pick] + ".";
      assert |r| > |TooShortMoral|;
      r
  }

  /** Short text gets the fixed message whatever the random draw. */
  lemma ShortDemoMoralIsDeterministic(text: string, pick1: ThemeIndex, pick2: ThemeIndex)
    requires |text| < MinMoralLength
    ensures DemoMoral(text, pick1) == DemoMoral(text, pick2) == TooShortMoral
  {
  }

  /** On long enough text every theme of the catalog can come out, and the
      draw alone decides which. */
  lemma DemoMoralCoversCatalog(text: string, m: string)
    requires |text| >= MinMoralLength && IsThemedMoral(m)
    ensures exists pick: ThemeIndex :: DemoMoral(text, pick) == m
  {
    var i :| 0 <= i < |Themes| && m == MoralLead + Themes[i] + ".";
    var pick: ThemeIndex := i;
    assert DemoMoral(text, pick) == m;
  }

  /** The demo moral is never empty. */
  lemma DemoMoralNonEmpty(text: string, pick: ThemeIndex)
    ensures DemoMoral(text, pick) != []
  {
  }

  /** Instruction of the live moral prompt; the text prefix follows it. */
  const MoralInstruction: string := "Extract the moral or main lesson from this text in 1-2 sentences: "

  /** How many characters of the text go into a chat prompt: `text[:1500]`. */
  const PromptTextLimit: nat := 1500

  /** The live moral prompt: the instruction followed by the text's first
      1500 characters. */
  function MoralPrompt(text: string): (p: string)
    ensures MoralInstruction <= p
    ensures |p| == |MoralInstruction| + Min(|text|, PromptTextLimit)
    ensures p[|MoralInstruction|..] <= text
  {
    var p := MoralInstruction + Take(text, PromptTextLimit);
    assert p[|MoralInstruction|..] == Take(text, PromptTextLimit);
    p
  }

  // ===========================================================================
  // Tone transformation

  const DefaultPrefix: string := "[Rewritten] "

  /** `prefixes` of the demo transformation. */
  const TonePrefixes: map<string, string> := map[
    "formal" := "[Formal Version] ",
    "informal" := "[Casual Version] ",
    "friendly" := "[Friendly Version] ",
    "professional" := "[Professional Version] ",
    "casual" := "[Relaxed Version] ",
    "complaint" := "[Formal Complaint] ",
    "persuasive" := "[Persuasive Version] ",
    "academic" := "[Academic Version] "
  ]

  const DefaultInstruction: string := "Rewrite this text:"

  /** `tone_instructions` of the live transformation. */
  const ToneInstructions: map<string, string> := map[
    "formal" := "Rewrite this formally and professionally:",
    "informal" := "Rewrite this casually like talking to a friend:",
    "friendly" := "Rewrite this in a warm, friendly way:",
    "professional" := "Rewrite this in a business-appropriate tone:",
    "casual" := "Rewrite this in a relaxed, everyday tone:",
    "complaint" := "Rewrite this as a formal complaint:",
    "persuasive" := "Rewrite this persuasively to convince someone:",
    "academic" := "Rewrite this in academic language:"
  ]

  /** `prefixes.get(tone, "[Rewritten] ")`: always a bracketed tag and a space. */
  function TonePrefix(tone: string): (p: string)
    ensures tone in TonePrefixes ==> p == TonePrefixes[tone]
    ensures tone !in TonePrefixes ==> p == DefaultPrefix
    ensures |p| >= 3 && p[0] == '[' && p[|p| - 2..] == "] "
  {
    if tone in TonePrefixes then TonePrefixes[tone] else DefaultPrefix
  }

  /** `tone_instructions.get(tone, "Rewrite this text:")` */
  function ToneInstruction(tone: string): (s: string)
    ensures tone in ToneInstructions ==> s == ToneInstructions[tone]
    ensures tone !in ToneInstructions ==> s == DefaultInstruction
  {
    if tone in ToneInstructions then ToneInstructions[tone] else DefaultInstruction
  }

  const ShortenThreshold: nat := 200
  const TruncatedLength: nat := 197
  const Ellipsis: string := "..."

  /** The demo transformation's shortening of long text: the first two
      '.'-separated segments joined by '.' and closed with '.', or, without a
      '.', the first 197 characters and "...". */
  function Shorten(text: string): (r: string)
    ensures |text| <= ShortenThreshold ==> r == text
    ensures |text| > ShortenThreshold ==> |r| > 0 && r[|r| - 1] == '.'
  {
    if |text| > ShortenThreshold then
      var sentences := SplitOn(text, '.');
      if |sentences| > 1 then Join(sentences[..2], ".") + "."
      else text[..TruncatedLength] + Ellipsis
    else text
  }

  /** Text of at most 200 characters is kept whole. */
  lemma ShortenKeepsShortText(text: string)
    requires |text| <= ShortenThreshold
    ensures Shorten(text) == text
  {
  }

  /** Long text without a '.' is cut to exactly 200 characters ending in "...". */
  lemma ShortenWithoutDot(text: string)
    requires |text| > ShortenThreshold && '.' !in text
    ensures Shorten(text) == text[..TruncatedLength] + Ellipsis
    ensures |Shorten(text)| == ShortenThreshold
  {
    SplitOnCount(text, '.');
  }

  /** Long text with exactly one '.' is not shortened: it comes back with a
      second '.' appended. */
  lemma {:induction false} ShortenWithOneDot(text: string)
    requires |text| > ShortenThreshold && CountOf(text, '.') == 1
    ensures Shorten(text) == text + "."
  {
    SplitOnCount(text, '.');
    JoinSplitOn(text, '.');
    var sentences := SplitOn(text, '.');
    assert sentences[..2] == sentences;
  }

  /** After the first `d` of `s` there is one `d` fewer. */
  lemma CountAfterFirst(s: string, d: char)
    requires d in s
    ensures CountOf(s[IndexOf(s, d) + 1..], d) == CountOf(s, d) - 1
  {
    var k := IndexOf(s, d);
    assert s == s[..k] + ([d] + s[k + 1..]);
    CountOfAppend(s[..k], [d] + s[k + 1..], d);
    CountOfAppend([d], s[k + 1..], d);
  }

  /** Two dot-free segments, each closed by a '.', hold exactly two '.'s. */
  lemma TwoClosedSegmentsCount(a: string, b: string)
    requires '.' !in a && '.' !in b
    ensures CountOf(a + "." + b + ".", '.') == 2
  {
    assert a + "." + b + "." == (a + ".") + (b + ".");
    CountOfAppend(a + ".", b + ".", '.');
    CountOfAppend(a, ".", '.');
    CountOfAppend(b, ".", '.');
  }

  /** The segments before the first and before the second '.'. */
  function FirstTwoSegments(text: string): (r: (string, string))
    requires CountOf(text, '.') >= 2
  {
    CountAfterFirst(text, '.');
    var k1 := IndexOf(text, '.');
    var rest := text[k1 + 1..];
    (text[..k1], rest[..IndexOf(rest, '.')])
  }

  lemma {:induction false} SplitOnFirstTwo(text: string)
    requires CountOf(text, '.') >= 2
    ensures var sentences := SplitOn(text, '.');
            |sentences| > 1 && sentences[..2] == [FirstTwoSegments(text).0, FirstTwoSegments(text).1]
  {
    CountAfterFirst(text, '.');
    var k1 := IndexOf(text, '.');
    var rest := text[k1 + 1..];
    var k2 := IndexOf(rest, '.');
    var sentences := SplitOn(text, '.');
    assert sentences == [text[..k1]] + SplitOn(rest, '.');
    assert SplitOn(rest, '.') == [rest[..k2]] + SplitOn(rest[k2 + 1..], '.');
  }

  /** Cutting `text` just after a '.' at `k1 + 1 + k2` that follows a '.' at `k1`. */
  lemma ClosedSegmentsPrefix(text: string, k1: nat, k2: nat)
    requires k1 + 1 + k2 < |text| && text[k1] == '.' && text[k1 + 1 + k2] == '.'
    ensures text[..k1] + "." + text[k1 + 1..][..k2] + "." == text[..k1 + k2 + 2]
  {
    var n := k1 + 1 + k2;
    assert text[k1 + 1..][..k2] == text[k1 + 1..n];
    assert text[..n + 1] == text[..k1] + [text[k1]] + text[k1 + 1..n] + [text[n]];
  }

  lemma FirstTwoSegmentsArePrefix(text: string)
    requires CountOf(text, '.') >= 2
    ensures FirstTwoSegments(text).0 + "." + FirstTwoSegments(text).1 + "." <= text
  {
    CountAfterFirst(text, '.');
    var k1 := IndexOf(text, '.');
    var k2 := IndexOf(text[k1 + 1..], '.');
    ClosedSegmentsPrefix(text, k1, k2);
  }

  /** Long text with two or more '.'s is cut just after its second '.'. */
  lemma {:induction false} ShortenWithTwoDots(text: string)
    requires |text| > ShortenThreshold && CountOf(text, '.') >= 2
    ensures Shorten(text) <= text
    ensures Shorten(text)[|Shorten(text)| - 1] == '.'
    ensures CountOf(Shorten(text), '.') == 2
  {
    var (a, b) := FirstTwoSegments(text);
    SplitOnFirstTwo(text);
    FirstTwoSegmentsArePrefix(text);
    assert Join([a, b], ".") == a + "." + b;
    assert Shorten(text) == a + "." + b + ".";
    TwoClosedSegmentsCount(a, b);
  }

  /** `_demo_tone_transformation`: the tone's tag, then the shortened text. */
  function DemoTone(text: string, tone: string): (r: string)
    ensures TonePrefix(tone) <= r
    ensures r[|TonePrefix(tone)|..] == Shorten(text)
    ensures r[0] == '['
  {
    TonePrefix(tone) + Shorten(text)
  }

  /** The live transformation prompt: the tone's instruction, a blank line,
      then the text's first 1500 characters. */
  function TransformPrompt(text: string, tone: string): (p: string)
    ensures ToneInstruction(tone) + "\n\n" <= p
    ensures |p| == |ToneInstruction(tone)| + 2 + Min(|text|, PromptTextLimit)
    ensures p[|ToneInstruction(tone)| + 2..] <= text
  {
    var head := ToneInstruction(tone) + "\n\n";
    var p := head + Take(text, PromptTextLimit);
    assert p[|head|..] == Take(text, PromptTextLimit);
    p
  }

  // ===========================================================================
  // Configuration and orchestration

  /** The value `.env` templates ship for the OpenAI key, treated as no key. */
  const PlaceholderApiKey: string := "your_openai_api_key_here"

  /** `if target_tone:` on an optional string: present and non-empty. */
  predicate IsTruthy(tone: Option<string>) {
    tone.Some? && tone.value != ""
  }

  /** The external calls one analysis makes, and the theme the demo moral
      draws. Each call is a function from the exact text it is handed to its
      outcome: RAKE's ranked phrases, the pipeline's (label, score), the chat
      completion's message content. */
  datatype Capabilities = Capabilities(
    rake: string -> Outcome<seq<string>>,
    sentimentPipeline: string -> Outcome<(string, real)>,
    chat: string -> Outcome<string>,
    themePick: ThemeIndex)

  /** The dictionary `analyze_text` returns. */
  datatype AnalysisResult = AnalysisResult(
    moral: string,
    keywords: seq<string>,
    transformedText: Option<string>,
    originalTone: string,
    targetTone: Option<string>,
    confidence: real)

  /** The service object: its mode is decided once, when it is built, and only
      read afterwards. */
  class TextAnalysisService {
    /** No usable OpenAI key or client: moral and transformation use the demo output. */
    const demoMode: bool
    /** The RAKE extractor could be built. */
    const rakeAvailable: bool

    /** `__init__`: `apiKey` is the `OPENAI_API_KEY` environment variable,
        `openaiImportable` whether `import openai` succeeds, `rakeImportable`
        whether NLTK and rake_nltk import. */
    constructor (apiKey: Option<string>, openaiImportable: bool, rakeImportable: bool)
      ensures demoMode <==> apiKey.None? || apiKey.value == "" || apiKey.value == PlaceholderApiKey
                            || !openaiImportable
      ensures rakeAvailable == rakeImportable
    {
      if apiKey.None? || apiKey.value == "" || apiKey.value == PlaceholderApiKey {
        demoMode := true;
      } else {
        demoMode := !openaiImportable;
      }
      rakeAvailable := rakeImportable;
    }

    /** `_extract_keywords`: RAKE when it is available and does not raise,
        the token fallback otherwise; never empty, never more than ten. */
    function ExtractKeywords(text: string, rake: string -> Outcome<seq<string>>): (r: seq<string>)
      ensures 1 <= |r| <= MaxKeywords
      ensures rakeAvailable && rake(text).Returned? ==> r == RakeKeywords(rake(text).value)
      ensures !rakeAvailable || rake(text).Raised? ==> r == FallbackKeywords(text)
    {
      if rakeAvailable then
        match rake(text)
        case Returned(phrases) => RakeKeywords(phrases)
        case Raised(_) => FallbackKeywords(text)
      else FallbackKeywords(text)
    }

    /** `_extract_moral`: the stripped chat answer to the moral prompt, or the
        demo moral in demo mode or when the call raises. */
    function ExtractMoral(text: string, chat: string -> Outcome<string>, pick: ThemeIndex): (r: string)
      ensures demoMode || chat(MoralPrompt(text)).Raised? ==> r == DemoMoral(text, pick)
      ensures !demoMode && chat(MoralPrompt(text)).Returned? ==> r == Strip(chat(MoralPrompt(text)).value)
    {
      if demoMode then DemoMoral(text, pick)
      else
        match chat(MoralPrompt(text))
        case Returned(content) => Strip(content)
        case Raised(_) => DemoMoral(text, pick)
    }

    /** `_transform_tone`: the stripped chat answer to the tone prompt, or the
        demo transformation in demo mode or when the call raises. */
    function TransformTone(text: string, tone: string, chat: string -> Outcome<string>): (r: string)
      ensures demoMode || chat(TransformPrompt(text, tone)).Raised? ==> r == DemoTone(text, tone)
      ensures !demoMode && chat(TransformPrompt(text, tone)).Returned? ==>
                r == Strip(chat(TransformPrompt(text, tone)).value)
    {
      if demoMode then DemoTone(text, tone)
      else
        match chat(TransformPrompt(text, tone))
        case Returned(content) => Strip(content)
        case Raised(_) => DemoTone(text, tone)
    }

    /** `analyze_text`: every stage runs on the original text; the
        transformation runs exactly when a non-empty tone is requested. */
    function AnalyzeText(text: string, targetTone: Option<string>, caps: Capabilities): (r: AnalysisResult)
      ensures r.keywords == ExtractKeywords(text, caps.rake)
      ensures 1 <= |r.keywords| <= MaxKeywords
      ensures r.moral == ExtractMoral(text, caps.chat, caps.themePick)
      ensures var s := AnalyzeSentiment(text, caps.sentimentPipeline);
              r.originalTone == s.tone.Name() && r.confidence == s.score
      ensures r.originalTone in {"positive", "negative", "neutral"}
      ensures r.transformedText.None? <==> !IsTruthy(targetTone)
      ensures IsTruthy(targetTone) ==>
                r.transformedText == Some(TransformTone(text, targetTone.value, caps.chat))
      ensures r.targetTone == targetTone
    {
      var keywords := ExtractKeywords(text, caps.rake);
      var toneAnalysis := AnalyzeSentiment(text, caps.sentimentPipeline);
      var moral := ExtractMoral(text, caps.chat, caps.themePick);
      var transformed := if IsTruthy(targetTone) then Some(TransformTone(text, targetTone.value, caps.chat)) else None;
      AnalysisResult(moral, keywords, transformed, toneAnalysis.tone.Name(), targetTone, toneAnalysis.score)
    }
  }

  /** In demo mode the moral never comes from the chat model and is never empty,
      and the transformation, when requested, is the demo one. */
  lemma DemoModeAnalysis(svc: TextAnalysisService, text: string, targetTone: Option<string>, caps: Capabilities)
    requires svc.demoMode
    ensures var r := svc.AnalyzeText(text, targetTone, caps);
            && r.moral == DemoMoral(text, caps.themePick)
            && r.moral != []
            && (IsTruthy(targetTone) ==> r.transformedText == Some(DemoTone(text, targetTone.value)))
  {
    DemoMoralNonEmpty(text, caps.themePick);
  }

  /** Two analyses of the same input that differ only in the random theme draw
      agree on everything but the moral. */
  lemma OnlyMoralDependsOnThemeDraw(svc: TextAnalysisService, text: string, targetTone: Option<string>,
                                    caps: Capabilities, pick: ThemeIndex)
    ensures var r1 := svc.AnalyzeText(text, targetTone, caps);
            var r2 := svc.AnalyzeText(text, targetTone, caps.(themePick := pick));
            r1.(moral := r2.moral) == r2
  {
  }
}

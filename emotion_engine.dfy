/** The affect/intent classifier: sentiment from a hosted classifier with a
    keyword fallback, a rule-based tone detector, and a rule-based intent
    classifier with price and size entity extraction. Every keyword test is
    a substring test on the ASCII-lower-cased text. */
module EmotionEngine {
  import opened Wrappers
  import opened Text

  datatype Sentiment = Positive | Negative | Neutral

  datatype SentimentAnalysis = SentimentAnalysis(sentiment: Sentiment, score: real, confidence: real)

  datatype Tone = Excited | Frustrated | Confused | Satisfied | Neutral

  datatype EmotionalTone = EmotionalTone(tone: Tone, intensity: real)

  datatype IntentKind = Browsing | Comparing | ReadyToBuy | SeekingSupport

  datatype EntityKind = Product | Category | Price | Size | Color

  datatype Entity = Entity(kind: EntityKind, value: string, confidence: real)

  datatype Intent = Intent(primary: IntentKind, confidence: real, entities: seq<Entity>)

  /** One `{label, score}` pair of the hosted classifier's answer. */
  datatype ClassScore = ClassScore(name: string, score: real)

  // ---------------------------------------------------------------------
  // Sentiment
  // ---------------------------------------------------------------------

  /** The threshold map shared by the hosted path and the fallback. */
  function Label(score: real): (r: Sentiment)
    ensures r == Positive <==> score > 0.3
    ensures r == Negative <==> score < -0.3
    ensures r == Sentiment.Neutral <==> -0.3 <= score <= 0.3
  {
    if score > 0.3 then Positive
    else if score < -0.3 then Negative
    else Sentiment.Neutral
  }

  function Max(a: real, b: real): real {
    if a >= b then a else b
  }

  /** `result.find(r => r.label === label)?.score || 0`: the score of the
      first entry carrying `wanted`, or 0 when there is none. */
  function ProbabilityOf(results: seq<ClassScore>, wanted: string): (p: real)
    ensures (forall k | 0 <= k < |results| :: results[k].name != wanted) ==> p == 0.0
    ensures forall k | 0 <= k < |results| ::
      results[k].name == wanted && (forall j | 0 <= j < k :: results[j].name != wanted) ==> p == results[k].score
  {
    if results == [] then 0.0
    else if results[0].name == wanted then results[0].score
    else
      var rest := ProbabilityOf(results[1..], wanted);
      assert forall k | 1 <= k < |results| :: results[1..][k - 1] == results[k];
      rest
  }

  const PositiveWords: seq<string> := ["love", "great", "excellent", "amazing", "perfect", "wonderful", "fantastic"]
  const NegativeWords: seq<string> := ["hate", "terrible", "awful", "bad", "worst", "disappointed", "frustrated"]

  /** How many of the listed words occur in `lower`; each word counts at
      most once, however often it occurs. */
  function Hits(lower: string, words: seq<string>): (n: nat)
    ensures n <= |words|
  {
    if words == [] then 0
    else Hits(lower, words[..|words| - 1]) + (if Contains(lower, words[|words| - 1]) then 1 else 0)
  }

  /** `Math.max(-1, Math.min(1, score))` on scores counted in tenths. */
  function Clamp(tenths: int): int {
    if tenths > 10 then 10 else if tenths < -10 then -10 else tenths
  }

  function Tenths(t: int): real {
    t as real / 10.0
  }

  /** The fallback score in tenths: +0.2 per listed positive word and -0.2
      per listed negative word that occurs, clamped to [-1, 1]. */
  function FallbackTenths(lower: string): (t: int)
    ensures -10 <= t <= 10
    ensures t == 2 * (Hits(lower, PositiveWords) - Hits(lower, NegativeWords))
            || (t == 10 && Hits(lower, PositiveWords) - Hits(lower, NegativeWords) > 5)
            || (t == -10 && Hits(lower, NegativeWords) - Hits(lower, PositiveWords) > 5)
  {
    Clamp(2 * (Hits(lower, PositiveWords) - Hits(lower, NegativeWords)))
  }

  /** The keyword fallback's answer; its confidence is always 0.7. */
  function FallbackSentiment(text: string): (r: SentimentAnalysis)
    ensures r.score == Tenths(FallbackTenths(Lower(text)))
    ensures r.sentiment == Label(r.score)
    ensures -1.0 <= r.score <= 1.0
    ensures r.confidence == 0.7
  {
    var t := FallbackTenths(Lower(text));
    SentimentAnalysis(Label(Tenths(t)), Tenths(t), 0.7)
  }

  /** The fallback as the source computes it: two passes over the word
      lists adding or subtracting 0.2 (two tenths), then the clamp. */
  method FallbackSentimentAnalysis(text: string) returns (r: SentimentAnalysis)
    ensures r == FallbackSentiment(text)
  {
    var lower := Lower(text);
    var score := 0;
    for k := 0 to |PositiveWords|
      invariant score == 2 * Hits(lower, PositiveWords[..k])
    {
      assert PositiveWords[..k + 1][..k] == PositiveWords[..k];
      if Contains(lower, PositiveWords[k]) {
        score := score + 2;
      }
    }
    assert PositiveWords[..|PositiveWords|] == PositiveWords;
    for k := 0 to |NegativeWords|
      invariant score == 2 * (Hits(lower, PositiveWords) - Hits(lower, NegativeWords[..k]))
    {
      assert NegativeWords[..k + 1][..k] == NegativeWords[..k];
      if Contains(lower, NegativeWords[k]) {
        score := score - 2;
      }
    }
    assert NegativeWords[..|NegativeWords|] == NegativeWords;
    score := Clamp(score);
    r := SentimentAnalysis(Label(Tenths(score)), Tenths(score), 0.7);
  }

  /** `analyzeSentiment`: `response` is the hosted classifier's answer, or
      None when the call (or reading its answer) failed. */
  function AnalyzeSentiment(text: string, response: Option<seq<ClassScore>>): (r: SentimentAnalysis)
    ensures response.None? ==> r == FallbackSentiment(text)
    ensures response.Some? ==> r.sentiment == Label(r.score)
    ensures response.Some? ==>
      var positive := ProbabilityOf(response.value, "POSITIVE");
      var negative := ProbabilityOf(response.value, "NEGATIVE");
      r.score == positive - negative && r.confidence == Max(positive, negative)
  {
    match response
    case None => FallbackSentiment(text)
    case Some(results) =>
      var positive := ProbabilityOf(results, "POSITIVE");
      var negative := ProbabilityOf(results, "NEGATIVE");
      var score := positive - negative;
      SentimentAnalysis(Label(score), score, Max(positive, negative))
  }

  /** With probabilities in [0, 1], the hosted path's score lies in
      [-1, 1], the confidence bounds its magnitude, and a non-neutral label
      needs a confidence above 0.3. */
  lemma {:induction false} HostedSentimentBounds(text: string, results: seq<ClassScore>)
    requires forall k | 0 <= k < |results| :: 0.0 <= results[k].score <= 1.0
    ensures var r := AnalyzeSentiment(text, Some(results));
      && -1.0 <= r.score <= 1.0
      && -r.confidence <= r.score <= r.confidence
      && (r.sentiment != Sentiment.Neutral ==> r.confidence > 0.3)
  {
    ProbabilityBounds(results, "POSITIVE");
    ProbabilityBounds(results, "NEGATIVE");
  }

  lemma {:induction false} ProbabilityBounds(results: seq<ClassScore>, wanted: string)
    requires forall k | 0 <= k < |results| :: 0.0 <= results[k].score <= 1.0
    ensures 0.0 <= ProbabilityOf(results, wanted) <= 1.0
  {
    if results != [] && results[0].name != wanted {
      assert forall k | 0 <= k < |results[1..]| :: results[1..][k] == results[k + 1];
      ProbabilityBounds(results[1..], wanted);
    }
  }

  /** The fallback's label is decided by the net number of matched words:
      positive exactly when at least two more positive than negative words
      occur, negative exactly when at least two more negative ones do. */
  lemma {:induction false} FallbackLabelByNetCount(text: string)
    ensures var d := Hits(Lower(text), PositiveWords) - Hits(Lower(text), NegativeWords);
      var r := FallbackSentiment(text);
      && (r.sentiment == Positive <==> d >= 2)
      && (r.sentiment == Negative <==> d <= -2)
      && (r.sentiment == Sentiment.Neutral <==> -1 <= d <= 1)
      && -1.0 <= r.score <= 1.0
      && r.confidence == 0.7
  {
    var t := FallbackTenths(Lower(text));
    assert t >= 4 ==> t as real >= 4.0;
    assert t <= 3 ==> t as real <= 3.0;
    assert t <= -4 ==> t as real <= -4.0;
    assert t >= -3 ==> t as real >= -3.0;
  }

  lemma LowerOfLoveText()
    ensures Lower("I love this, it's amazing!") == "i love this, it's amazing!"
  {
  }

  /** Seven listed words, counted one by one. */
  lemma {:induction false} HitsOfSeven(lower: string, words: seq<string>)
    requires |words| == 7
    ensures Hits(lower, words) ==
      (if Contains(lower, words[0]) then 1 else 0) + (if Contains(lower, words[1]) then 1 else 0)
      + (if Contains(lower, words[2]) then 1 else 0) + (if Contains(lower, words[3]) then 1 else 0)
      + (if Contains(lower, words[4]) then 1 else 0) + (if Contains(lower, words[5]) then 1 else 0)
      + (if Contains(lower, words[6]) then 1 else 0)
  {
    forall k | 1 <= k <= 7
      ensures Hits(lower, words[..k]) == Hits(lower, words[..k - 1]) + (if Contains(lower, words[k - 1]) then 1 else 0)
    {
      assert words[..k][..k - 1] == words[..k - 1];
    }
    assert words[..7] == words;
    assert words[..0] == [];
  }

  lemma LoveTextPositiveWords()
    ensures var l := "i love this, it's amazing!";
      Contains(l, "love") && Contains(l, "amazing")
  {
    var l := "i love this, it's amazing!";
    assert l[2..][..4] == "love";
    OccursAtContains(l, "love", 2);
    assert l[18..][..7] == "amazing";
    OccursAtContains(l, "amazing", 18);
  }

  lemma LoveTextLacksGreatExcellent()
    ensures var l := "i love this, it's amazing!";
      !Contains(l, "great") && !Contains(l, "excellent")
  {
    AbsentCharacter("i love this, it's amazing!", "great", 1);
    AbsentCharacter("i love this, it's amazing!", "excellent", 1);
  }

  lemma LoveTextLacksPerfectWonderful()
    ensures var l := "i love this, it's amazing!";
      !Contains(l, "perfect") && !Contains(l, "wonderful")
  {
    AbsentCharacter("i love this, it's amazing!", "perfect", 0);
    AbsentCharacter("i love this, it's amazing!", "wonderful", 0);
  }

  lemma LoveTextLacksFantasticTerrible()
    ensures var l := "i love this, it's amazing!";
      !Contains(l, "fantastic") && !Contains(l, "terrible")
  {
    AbsentCharacter("i love this, it's amazing!", "fantastic", 0);
    AbsentCharacter("i love this, it's amazing!", "terrible", 2);
  }

  lemma LoveTextLacksAwfulBad()
    ensures var l := "i love this, it's amazing!";
      !Contains(l, "awful") && !Contains(l, "bad")
  {
    AbsentCharacter("i love this, it's amazing!", "awful", 1);
    AbsentCharacter("i love this, it's amazing!", "bad", 0);
  }

  lemma LoveTextLacksWorstDisappointed()
    ensures var l := "i love this, it's amazing!";
      !Contains(l, "worst") && !Contains(l, "disappointed")
  {
    AbsentCharacter("i love this, it's amazing!", "worst", 0);
    AbsentCharacter("i love this, it's amazing!", "disappointed", 0);
  }

  lemma LoveTextLacksFrustrated()
    ensures !Contains("i love this, it's amazing!", "frustrated")
  {
    AbsentCharacter("i love this, it's amazing!", "frustrated", 0);
  }

  /** The only 'h' of the text is at index 8, in "this"; past it no 'h'
      is left. */
  lemma LoveTextHateTail()
    ensures !Contains("is, it's amazing!", "hate")
  {
    AbsentCharacter("is, it's amazing!", "hate", 0);
  }

  lemma LoveTextHate()
    ensures !Contains("i love this, it's amazing!", "hate")
  {
    var l := "i love this, it's amazing!";
    assert l[..8] == "i love t";
    SkipPrefix(l, "hate", 8);
    assert l[8..][..4] == "his,";
    assert l[8..][1..] == "is, it's amazing!";
    SkipFirst(l[8..], "hate");
    LoveTextHateTail();
  }

  /** "I love this, it's amazing!" matches "love" and "amazing" and no
      negative word: positive with score 0.4 on the fallback path. */
  lemma FallbackExample()
    ensures FallbackSentiment("I love this, it's amazing!") == SentimentAnalysis(Positive, 0.4, 0.7)
  {
    LowerOfLoveText();
    LoveTextPositiveWords();
    LoveTextLacksGreatExcellent();
    LoveTextLacksPerfectWonderful();
    LoveTextLacksFantasticTerrible();
    LoveTextHate();
    LoveTextLacksAwfulBad();
    LoveTextLacksWorstDisappointed();
    LoveTextLacksFrustrated();
    HitsOfSeven("i love this, it's amazing!", PositiveWords);
    HitsOfSeven("i love this, it's amazing!", NegativeWords);
  }

  // ---------------------------------------------------------------------
  // Ordered first-match-wins rules (reference for tone and intent)
  // ---------------------------------------------------------------------

  /** A rule fires when some cue word occurs and, if it lists punctuation
      marks, some mark occurs too. */
  datatype Rule<T> = Rule(cues: seq<string>, marks: seq<string>, verdict: T)

  predicate Fires<T>(rule: Rule<T>, lower: string) {
    ContainsAny(lower, rule.cues) && (rule.marks == [] || ContainsAny(lower, rule.marks))
  }

  /** The verdict of the first rule that fires, else `otherwise`. */
  function FirstMatch<T>(rules: seq<Rule<T>>, lower: string, otherwise: T): (r: T)
    ensures (forall k | 0 <= k < |rules| :: !Fires(rules[k], lower)) ==> r == otherwise
    ensures forall k | 0 <= k < |rules| ::
      Fires(rules[k], lower) && (forall j | 0 <= j < k :: !Fires(rules[j], lower)) ==> r == rules[k].verdict
  {
    if rules == [] then otherwise
    else if Fires(rules[0], lower) then rules[0].verdict
    else
      var rest := FirstMatch(rules[1..], lower, otherwise);
      assert forall k | 1 <= k < |rules| :: rules[1..][k - 1] == rules[k];
      rest
  }

  /** Four rules unfold to four ordered conditionals. */
  lemma {:induction false} FirstMatchOfFour<T>(rules: seq<Rule<T>>, lower: string, otherwise: T)
    requires |rules| == 4
    ensures FirstMatch(rules, lower, otherwise) ==
      if Fires(rules[0], lower) then rules[0].verdict
      else if Fires(rules[1], lower) then rules[1].verdict
      else if Fires(rules[2], lower) then rules[2].verdict
      else if Fires(rules[3], lower) then rules[3].verdict
      else otherwise
  {
    var r1, r2, r3 := rules[1..], rules[2..], rules[3..];
    assert r1[1..] == r2 && r2[1..] == r3 && r3[1..] == [];
    assert r1[0] == rules[1] && r2[0] == rules[2] && r3[0] == rules[3];
  }

  // ---------------------------------------------------------------------
  // Tone
  // ---------------------------------------------------------------------

  /** The fixed intensity of each tone. */
  function ToneIntensity(t: Tone): real {
    match t
    case Frustrated => 0.8
    case Excited => 0.9
    case Confused => 0.7
    case Satisfied => 0.8
    case Neutral => 0.5
  }

  /** `detectTone`: the source's ordered conditionals. */
  function DetectTone(text: string): (r: EmotionalTone)
    ensures r.intensity == ToneIntensity(r.tone)
    ensures r.tone == Frustrated ==> Contains(Lower(text), "!") || Contains(Lower(text), "??")
    ensures r.tone == Excited ==> Contains(Lower(text), "!")
    ensures r.tone == Confused ==> Contains(Lower(text), "?")
  {
    var l := Lower(text);
    if (Contains(l, "waiting") || Contains(l, "problem") || Contains(l, "issue") || Contains(l, "disappointed"))
       && (Contains(l, "!") || Contains(l, "??"))
    then EmotionalTone(Frustrated, 0.8)
    else if (Contains(l, "love") || Contains(l, "amazing") || Contains(l, "perfect") || Contains(l, "great"))
            && Contains(l, "!")
    then EmotionalTone(Excited, 0.9)
    else if Contains(l, "?")
            && (Contains(l, "not sure") || Contains(l, "confused") || Contains(l, "don't understand") || Contains(l, "how"))
    then EmotionalTone(Confused, 0.7)
    else if Contains(l, "thanks") || Contains(l, "thank you") || Contains(l, "helpful") || Contains(l, "appreciate")
    then EmotionalTone(Satisfied, 0.8)
    else EmotionalTone(Tone.Neutral, 0.5)
  }

  /** The tone rules in priority order. */
  const ToneRules: seq<Rule<EmotionalTone>> := [
    Rule(["waiting", "problem", "issue", "disappointed"], ["!", "??"], EmotionalTone(Frustrated, 0.8)),
    Rule(["love", "amazing", "perfect", "great"], ["!"], EmotionalTone(Excited, 0.9)),
    Rule(["not sure", "confused", "don't understand", "how"], ["?"], EmotionalTone(Confused, 0.7)),
    Rule(["thanks", "thank you", "helpful", "appreciate"], [], EmotionalTone(Satisfied, 0.8))
  ]

  /** `detectTone` is the first-match-wins evaluation of the tone rules
      (frustrated, excited, confused, satisfied), neutral when none fires. */
  lemma {:induction false} DetectToneIsFirstMatch(text: string)
    ensures DetectTone(text) == FirstMatch(ToneRules, Lower(text), EmotionalTone(Tone.Neutral, 0.5))
  {
    var l := Lower(text);
    assert Fires(ToneRules[0], l) <==>
      (Contains(l, "waiting") || Contains(l, "problem") || Contains(l, "issue") || Contains(l, "disappointed"))
      && (Contains(l, "!") || Contains(l, "??"))
    by {
      AnyOfFour(l, "waiting", "problem", "issue", "disappointed");
      AnyOfTwo(l, "!", "??");
    }
    assert Fires(ToneRules[1], l) <==>
      (Contains(l, "love") || Contains(l, "amazing") || Contains(l, "perfect") || Contains(l, "great"))
      && Contains(l, "!")
    by {
      AnyOfFour(l, "love", "amazing", "perfect", "great");
      AnyOfOne(l, "!");
    }
    assert Fires(ToneRules[2], l) <==>
      Contains(l, "?")
      && (Contains(l, "not sure") || Contains(l, "confused") || Contains(l, "don't understand") || Contains(l, "how"))
    by {
      AnyOfFour(l, "not sure", "confused", "don't understand", "how");
      AnyOfOne(l, "?");
    }
    assert Fires(ToneRules[3], l) <==>
      Contains(l, "thanks") || Contains(l, "thank you") || Contains(l, "helpful") || Contains(l, "appreciate")
    by {
      AnyOfFour(l, "thanks", "thank you", "helpful", "appreciate");
    }
    FirstMatchOfFour(ToneRules, l, EmotionalTone(Tone.Neutral, 0.5));
  }

  lemma AnyOfOne(l: string, a: string)
    ensures ContainsAny(l, [a]) <==> Contains(l, a)
  {
    if Contains(l, a) { assert a in [a]; }
  }

  lemma AnyOfTwo(l: string, a: string, b: string)
    ensures ContainsAny(l, [a, b]) <==> Contains(l, a) || Contains(l, b)
  {
    if Contains(l, a) { assert a in [a, b]; }
    if Contains(l, b) { assert b in [a, b]; }
  }

  lemma AnyOfFour(l: string, a: string, b: string, c: string, d: string)
    ensures ContainsAny(l, [a, b, c, d]) <==> Contains(l, a) || Contains(l, b) || Contains(l, c) || Contains(l, d)
  {
    if Contains(l, a) { assert a in [a, b, c, d]; }
    if Contains(l, b) { assert b in [a, b, c, d]; }
    if Contains(l, c) { assert c in [a, b, c, d]; }
    if Contains(l, d) { assert d in [a, b, c, d]; }
  }

  lemma LowerOfProblemText()
    ensures Lower("this is a problem!! thanks") == "this is a problem!! thanks"
  {
  }

  /** Frustration outranks gratitude: "this is a problem!! thanks" is
      frustrated although it also thanks. */
  lemma ToneExample()
    ensures DetectTone("this is a problem!! thanks").tone == Frustrated
  {
    LowerOfProblemText();
    var l := "this is a problem!! thanks";
    assert l[10..][..7] == "problem";
    assert OccursAt(l, "problem", 10);
    OccursAtContains(l, "problem", 10);
    assert l[17..][..1] == "!";
    assert OccursAt(l, "!", 17);
    OccursAtContains(l, "!", 17);
  }

  /** Substring matching: "how" inside "show" makes "Can you show me?" a
      confused message. */
  lemma LowerOfShowText()
    ensures Lower("Can you show me?") == "can you show me?"
  {
  }

  lemma ShowTextMarks()
    ensures var l := "can you show me?";
      Contains(l, "how") && Contains(l, "?") && !Contains(l, "!") && !Contains(l, "??")
  {
    var l := "can you show me?";
    assert l[9..][..3] == "how";
    assert OccursAt(l, "how", 9);
    OccursAtContains(l, "how", 9);
    assert l[15..][..1] == "?";
    assert OccursAt(l, "?", 15);
    OccursAtContains(l, "?", 15);
    AbsentCharacter(l, "!", 0);
    assert l[..15] == "can you show me";
    SkipPrefix(l, "??", 15);
    assert l[15..] == "?";
  }

  lemma ConfusedBySubstring()
    ensures DetectTone("Can you show me?").tone == Confused
  {
    LowerOfShowText();
    ShowTextMarks();
  }

  // ---------------------------------------------------------------------
  // Intent and entities
  // ---------------------------------------------------------------------

  /** The fixed confidence of each intent. */
  function IntentConfidence(k: IntentKind): real {
    match k
    case ReadyToBuy => 0.9
    case Comparing => 0.85
    case SeekingSupport => 0.9
    case Browsing => 0.7
  }

  /** The primary intent and its confidence: the source's ordered
      conditionals. */
  function IntentVerdict(text: string): (r: (IntentKind, real))
    ensures r.1 == IntentConfidence(r.0)
  {
    var l := Lower(text);
    if Contains(l, "buy") || Contains(l, "purchase") || Contains(l, "checkout") || Contains(l, "order")
    then (ReadyToBuy, 0.9)
    else if Contains(l, "compare") || Contains(l, "difference") || Contains(l, "vs") || Contains(l, "better")
    then (Comparing, 0.85)
    else if Contains(l, "help") || Contains(l, "support") || Contains(l, "problem") || Contains(l, "issue")
    then (SeekingSupport, 0.9)
    else (Browsing, 0.7)
  }

  /** The intent rules in priority order. */
  const IntentRules: seq<Rule<(IntentKind, real)>> := [
    Rule(["buy", "purchase", "checkout", "order"], [], (ReadyToBuy, 0.9)),
    Rule(["compare", "difference", "vs", "better"], [], (Comparing, 0.85)),
    Rule(["help", "support", "problem", "issue"], [], (SeekingSupport, 0.9))
  ]

  /** The intent is the first-match-wins evaluation of the intent rules
      (ready to buy, comparing, seeking support), browsing when none fires. */
  lemma {:induction false} IntentVerdictIsFirstMatch(text: string)
    ensures IntentVerdict(text) == FirstMatch(IntentRules, Lower(text), (Browsing, 0.7))
  {
    var l := Lower(text);
    assert Fires(IntentRules[0], l) <==>
      Contains(l, "buy") || Contains(l, "purchase") || Contains(l, "checkout") || Contains(l, "order")
    by {
      AnyOfFour(l, "buy", "purchase", "checkout", "order");
    }
    assert Fires(IntentRules[1], l) <==>
      Contains(l, "compare") || Contains(l, "difference") || Contains(l, "vs") || Contains(l, "better")
    by {
      AnyOfFour(l, "compare", "difference", "vs", "better");
    }
    assert Fires(IntentRules[2], l) <==>
      Contains(l, "help") || Contains(l, "support") || Contains(l, "problem") || Contains(l, "issue")
    by {
      AnyOfFour(l, "help", "support", "problem", "issue");
    }
  }

  /** Purchase language outranks comparison language. */
  lemma LowerOfCompareText()
    ensures Lower("Can you compare these before I buy?") == "can you compare these before i buy?"
  {
  }

  lemma CompareTextBuy()
    ensures Contains("can you compare these before i buy?", "buy")
  {
    var l := "can you compare these before i buy?";
    assert l[31..][..3] == "buy";
    OccursAtContains(l, "buy", 31);
  }

  lemma IntentExample()
    ensures IntentVerdict("Can you compare these before I buy?").0 == ReadyToBuy
  {
    LowerOfCompareText();
    CompareTextBuy();
  }

  /** Substring matching: "order" makes "Track my order", one of the
      seeking-support suggestions, a ready-to-buy message. */
  lemma TrackOrderIsReadyToBuy()
    ensures IntentVerdict("Track my order").0 == ReadyToBuy
  {
    var l := Lower("Track my order");
    assert l == "track my order";
    assert l[9..][..5] == "order";
    assert OccursAt(l, "order", 9);
    OccursAtContains(l, "order", 9);
  }

  predicate IsDigit(c: char) {
    '0' <= c <= '9'
  }

  /** `\w` without the unicode flag. */
  predicate IsWordChar(c: char) {
    'a' <= c <= 'z' || 'A' <= c <= 'Z' || IsDigit(c) || c == '_'
  }

  /** The end of the run of digits that starts at `i`. */
  function DigitRunEnd(s: string, i: nat): (e: nat)
    requires i <= |s|
    ensures i <= e <= |s|
    ensures forall j | i <= j < e :: IsDigit(s[j])
    ensures e == |s| || !IsDigit(s[e])
    decreases |s| - i
  {
    if i < |s| && IsDigit(s[i]) then DigitRunEnd(s, i + 1) else i
  }

  /** The end of the run of word characters that starts at `i`. */
  function WordRunEnd(s: string, i: nat): (e: nat)
    requires i <= |s|
    ensures i <= e <= |s|
    ensures forall j | i <= j < e :: IsWordChar(s[j])
    ensures e == |s| || !IsWordChar(s[e])
    decreases |s| - i
  {
    if i < |s| && IsWordChar(s[i]) then WordRunEnd(s, i + 1) else i
  }

  /** `/\$(\d+)/` can match at `i`: a dollar sign followed by a digit. */
  predicate PriceAt(s: string, i: int) {
    0 <= i && i + 1 < |s| && s[i] == '$' && IsDigit(s[i + 1])
  }

  /** Where `/\$(\d+)/` first matches at or after `i`. */
  function PriceIndex(s: string, i: nat): (r: Option<nat>)
    requires i <= |s|
    ensures r.Some? ==> i <= r.value < |s| && PriceAt(s, r.value)
                        && forall k | i <= k < r.value :: !PriceAt(s, k)
    ensures r.None? ==> forall j | i <= j < |s| :: !PriceAt(s, j)
    decreases |s| - i
  {
    if i == |s| then None
    else if PriceAt(s, i) then Some(i)
    else PriceIndex(s, i + 1)
  }

  /** `/\$(\d+)/` searched from `i`: the whole digit run after the first
      dollar sign that is followed by a digit. */
  function FindPrice(s: string, i: nat): (r: Option<string>)
    requires i <= |s|
    ensures r.None? <==> forall j | i <= j < |s| :: !PriceAt(s, j)
    ensures r.Some? ==> exists j | i <= j < |s| ::
      && PriceAt(s, j)
      && (forall k | i <= k < j :: !PriceAt(s, k))
      && r.value == s[j + 1..DigitRunEnd(s, j + 1)]
  {
    match PriceIndex(s, i)
    case None => None
    case Some(j) => Some(s[j + 1..DigitRunEnd(s, j + 1)])
  }

  /** One of the size codes XS, S, M, L, XL, XXL in any case, or digits. */
  predicate IsSizeToken(w: string) {
    Lower(w) in ["xs", "s", "m", "l", "xl", "xxl"]
    || (|w| > 0 && forall k | 0 <= k < |w| :: IsDigit(w[k]))
  }

  /** `\b` at position `k`. */
  predicate Boundary(s: string, k: int)
    requires 0 <= k <= |s|
  {
    (k > 0 && IsWordChar(s[k - 1])) != (k < |s| && IsWordChar(s[k]))
  }

  /** `/\b(XS|S|M|L|XL|XXL|\d+)\b/i` matches `s[p..q]`. */
  predicate SizeMatch(s: string, p: int, q: int) {
    0 <= p < q <= |s| && Boundary(s, p) && Boundary(s, q) && IsSizeToken(s[p..q])
  }

  /** Size tokens consist of word characters only. */
  lemma SizeTokenIsWord(s: string, p: int, q: int)
    requires 0 <= p <= q <= |s|
    ensures IsSizeToken(s[p..q]) ==> forall k | p <= k < q :: IsWordChar(s[k])
  {
    var w := s[p..q];
    var lw := Lower(w);
    forall k | p <= k < q && IsSizeToken(w) ensures IsWordChar(s[k]) {
      assert w[k - p] == s[k];
      assert lw[k - p] == LowerChar(s[k]);
    }
  }

  /** No size match starts at a character that is not a word character. */
  lemma NoMatchAtNonWord(s: string, i: nat)
    requires i < |s| && !IsWordChar(s[i])
    ensures forall q :: !SizeMatch(s, i, q)
  {
    forall q | i < q <= |s| {
      SizeTokenIsWord(s, i, q);
    }
  }

  /** A size match starting inside the word run that starts at `i` can
      only be the whole run. */
  lemma MatchInRun(s: string, i: nat)
    requires i < |s| && IsWordChar(s[i])
    requires i == 0 || !IsWordChar(s[i - 1])
    ensures forall p, q | i <= p < WordRunEnd(s, i) && SizeMatch(s, p, q) :: p == i && q == WordRunEnd(s, i)
  {
    forall p, q | i <= p < WordRunEnd(s, i) && SizeMatch(s, p, q)
      ensures p == i && q == WordRunEnd(s, i)
    {
      SizeTokenIsWord(s, p, q);
    }
  }

  /** Where `/\b(XS|S|M|L|XL|XXL|\d+)\b/i` first matches at or after `i`,
      where `i` is not inside a word run: the first whole word run that is
      a size token, as its start and end. */
  function SizeSpan(s: string, i: nat): (r: Option<(nat, nat)>)
    requires i <= |s|
    requires i == 0 || i == |s| || !IsWordChar(s[i - 1]) || !IsWordChar(s[i])
    ensures r.None? ==> forall p, q | i <= p :: !SizeMatch(s, p, q)
    ensures r.Some? ==> && i <= r.value.0
                        && SizeMatch(s, r.value.0, r.value.1)
                        && forall p, q | i <= p < r.value.0 :: !SizeMatch(s, p, q)
    decreases |s| - i
  {
    if i == |s| then None
    else if !IsWordChar(s[i]) then
      NoMatchAtNonWord(s, i);
      SizeSpan(s, i + 1)
    else
      var e := WordRunEnd(s, i);
      MatchInRun(s, i);
      if IsSizeToken(s[i..e]) then Some((i, e)) else SizeSpan(s, e)
  }

  /** `/\b(XS|S|M|L|XL|XXL|\d+)\b/i` searched from `i`, where `i` is not
      inside a word run: the text of the first match. */
  function FindSize(s: string, i: nat): (r: Option<string>)
    requires i <= |s|
    requires i == 0 || i == |s| || !IsWordChar(s[i - 1]) || !IsWordChar(s[i])
    ensures r.None? ==> forall p, q | i <= p :: !SizeMatch(s, p, q)
    ensures r.Some? ==> exists p, q ::
      && i <= p
      && SizeMatch(s, p, q)
      && r.value == s[p..q]
      && (forall p', q' | i <= p' < p :: !SizeMatch(s, p', q'))
  {
    match SizeSpan(s, i)
    case None => None
    case Some((p, q)) => Some(s[p..q])
  }

  /** "$50" yields the price "50" and, because `$` ends no word, the size
      "50" as well. */
  lemma EntityExample()
    ensures FindPrice("$50", 0) == Some("50")
    ensures FindSize("$50", 0) == Some("50")
  {
    assert PriceAt("$50", 0);
    assert DigitRunEnd("$50", 1) == 3;
    assert "$50"[1..3] == "50";
    assert WordRunEnd("$50", 1) == 3;
    assert IsSizeToken("$50"[1..3]);
  }

  /** `classifyIntent`: price entity first, then size, then the ordered
      intent conditionals. */
  method ClassifyIntent(text: string) returns (r: Intent)
    ensures (r.primary, r.confidence) == IntentVerdict(text)
    ensures |r.entities| == (if FindPrice(text, 0).Some? then 1 else 0) + (if FindSize(text, 0).Some? then 1 else 0)
    ensures FindPrice(text, 0).Some? ==> r.entities[0] == Entity(Price, FindPrice(text, 0).value, 0.9)
    ensures FindSize(text, 0).Some? ==> r.entities[|r.entities| - 1] == Entity(Size, FindSize(text, 0).value, 0.85)
  {
    var entities: seq<Entity> := [];
    var priceMatch := FindPrice(text, 0);
    if priceMatch.Some? {
      entities := entities + [Entity(Price, priceMatch.value, 0.9)];
    }
    var sizeMatch := FindSize(text, 0);
    if sizeMatch.Some? {
      entities := entities + [Entity(Size, sizeMatch.value, 0.85)];
    }
    var (primary, confidence) := IntentVerdict(text);
    r := Intent(primary, confidence, entities);
  }
}

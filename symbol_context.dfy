/** The symbol contextualiser `analyze_symbols_in_context`: one sentence per
    detected symbol, in the order given, joined by single spaces. */
module SymbolContext {
  import opened Text
  import opened Emotions
  import opened Symbols

  // Each long sentence is written as its first word followed by the rest:
  // the same string, in a form whose first character the verifier sees.
  const DogChaseSentence: string :=
    "The " + "dog chasing you may represent loyalty, protection, or instinctual drives that you're running from."
  const ChaseSentence: string :=
    "The " + "chase element suggests you're avoiding confronting something important in your life."
  const DeepWaterSentence: string :=
    "The " + "deep water represents the depth of emotions or subconscious material you're dealing with."
  const HappyFlyingSentence: string :=
    "Flying " + "while feeling happy suggests you're experiencing or seeking greater freedom in your life."

  /** `f"The {symbol} in your dream suggests {base_meaning}."` */
  function GenericSentence(symbol: string, baseMeaning: string): (r: string)
    ensures |r| == |symbol| + |baseMeaning| + 29
    ensures r[0] == 'T' && r[|r| - 1] == '.'
  {
    "The " + symbol + " in your dream suggests " + baseMeaning + "."
  }

  /** The sentence for one detected symbol: the first matching special case,
      else the generic sentence built from the symbol's meaning. */
  function SymbolSentence(symbol: string, baseMeaning: string, dreamLower: string, emotion: Emotion): string {
    if symbol == "chase" && Contains(dreamLower, "dog") then DogChaseSentence
    else if symbol == "chase" then ChaseSentence
    else if symbol == "water" && (Contains(dreamLower, "deep") || Contains(dreamLower, "ocean")) then DeepWaterSentence
    else if symbol == "flying" && emotion == Happy then HappyFlyingSentence
    else GenericSentence(symbol, baseMeaning)
  }

  /** The sentences for a list of symbols, position for position. */
  function SymbolSentences(symbols: seq<Entry>, dreamLower: string, emotion: Emotion): (r: seq<string>)
    ensures |r| == |symbols|
    ensures forall i :: 0 <= i < |symbols| ==> r[i] == SymbolSentence(symbols[i].0, symbols[i].1, dreamLower, emotion)
  {
    seq(|symbols|, i requires 0 <= i < |symbols| => SymbolSentence(symbols[i].0, symbols[i].1, dreamLower, emotion))
  }

  /** What `analyze_symbols_in_context` returns. */
  function SymbolAnalysis(symbols: seq<Entry>, dreamText: string, emotion: Emotion): string {
    Join(SymbolSentences(symbols, ToLower(dreamText), emotion), " ")
  }

  /** Every symbol sentence is trimmed: it starts with "The " or "Flying"
      and ends with a full stop. */
  lemma SymbolSentenceTrimmed(symbol: string, baseMeaning: string, dreamLower: string, emotion: Emotion)
    ensures Trimmed(SymbolSentence(symbol, baseMeaning, dreamLower, emotion))
  {
    SpecialSentencesTrimmed();
  }

  lemma SpecialSentencesTrimmed()
    ensures Trimmed(DogChaseSentence) && Trimmed(ChaseSentence)
    ensures Trimmed(DeepWaterSentence) && Trimmed(HappyFlyingSentence)
  {
  }

  /** Only the exact term "chase" picks the chase sentences; the term
      "chasing" gets the generic sentence. */
  lemma ChasingIsGeneric(baseMeaning: string, dreamLower: string, emotion: Emotion)
    ensures SymbolSentence("chasing", baseMeaning, dreamLower, emotion) == GenericSentence("chasing", baseMeaning)
  {
  }

  /** The flying sentence is chosen exactly when the emotion is Happy. */
  lemma FlyingSentenceNeedsHappy(baseMeaning: string, dreamLower: string, emotion: Emotion)
    ensures SymbolSentence("flying", baseMeaning, dreamLower, emotion) ==
      if emotion == Happy then HappyFlyingSentence else GenericSentence("flying", baseMeaning)
  {
  }

  /** A symbol none of the special cases names gets the generic sentence. */
  lemma OtherSymbolsAreGeneric(symbol: string, baseMeaning: string, dreamLower: string, emotion: Emotion)
    requires symbol != "chase" && symbol != "water" && symbol != "flying"
    ensures SymbolSentence(symbol, baseMeaning, dreamLower, emotion) == GenericSentence(symbol, baseMeaning)
  {
  }

  /** The analysis is empty exactly when there are no symbols, and otherwise
      starts with the first symbol's sentence. */
  lemma SymbolAnalysisShape(symbols: seq<Entry>, dreamText: string, emotion: Emotion)
    ensures SymbolAnalysis(symbols, dreamText, emotion) == [] <==> symbols == []
    ensures symbols != [] ==>
      var first := SymbolSentence(symbols[0].0, symbols[0].1, ToLower(dreamText), emotion);
      SymbolAnalysis(symbols, dreamText, emotion)[..|first|] == first
  {
    var sentences := SymbolSentences(symbols, ToLower(dreamText), emotion);
    forall i | 0 <= i < |sentences| ensures sentences[i] != [] {
      SymbolSentenceTrimmed(symbols[i].0, symbols[i].1, ToLower(dreamText), emotion);
    }
    JoinEmpty(sentences, " ");
    if symbols != [] {
      JoinPrefix(sentences, " ");
    }
  }

  /** `analyze_symbols_in_context`: builds the list of sentences in a loop
      and joins it with spaces; the empty list gives the empty string. */
  method AnalyzeSymbolsInContext(symbols: seq<Entry>, dreamText: string, emotion: Emotion) returns (r: string)
    ensures r == Join(SymbolSentences(symbols, ToLower(dreamText), emotion), " ")
    ensures r == [] <==> symbols == []
  {
    var dreamLower := ToLower(dreamText);
    var analysis: seq<string> := [];
    for i := 0 to |symbols|
      invariant analysis == SymbolSentences(symbols[..i], dreamLower, emotion)
    {
      var (symbol, baseMeaning) := symbols[i];
      var sentence;
      if symbol == "chase" && Contains(dreamLower, "dog") {
        sentence := DogChaseSentence;
      } else if symbol == "chase" {
        sentence := ChaseSentence;
      } else if symbol == "water" && (Contains(dreamLower, "deep") || Contains(dreamLower, "ocean")) {
        sentence := DeepWaterSentence;
      } else if symbol == "flying" && emotion == Happy {
        sentence := HappyFlyingSentence;
      } else {
        sentence := GenericSentence(symbol, baseMeaning);
      }
      analysis := analysis + [sentence];
    }
    assert symbols[..|symbols|] == symbols;
    r := if |analysis| > 0 then Join(analysis, " ") else "";
    SymbolAnalysisShape(symbols, dreamText, emotion);
  }
}

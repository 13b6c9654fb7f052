/** The interpretation composer `create_comprehensive_interpretation` and its
    two aliases: the narrative fragment, then the symbol analysis when there
    are symbols, then the emotional annotation, joined by single blanks. */
module Composer {
  import opened Text
  import opened Emotions
  import opened Symbols
  import opened Narrative
  import opened SymbolContext
  import opened Annotator

  /** The parts joined into one text: the narrative fragment `n`, then the
      symbol analysis `s` when there are symbols, then the annotation `a`. */
  function Compose(n: string, s: string, a: string, withSymbols: bool): string {
    Join([n] + (if withSymbols then [s] else []) + [a], " ")
  }

  /** What `create_comprehensive_interpretation` returns. */
  function Interpretation(dreamText: string, emotion: Emotion, context: string, symbols: seq<Entry>): string {
    Compose(AnalyzeCoreNarrative(dreamText, emotion, context), SymbolAnalysis(symbols, dreamText, emotion),
      Annotation(emotion, context, dreamText), symbols != [])
  }

  /** The composition written out: the parts separated by single blanks, so
      it starts with the narrative and a blank, and an empty annotation
      leaves a trailing blank. */
  lemma ComposeShape(n: string, s: string, a: string, withSymbols: bool)
    ensures var r := Compose(n, s, a, withSymbols);
      && r == (if withSymbols then n + " " + s + " " + a else n + " " + a)
      && |n| < |r| && r[..|n|] == n && r[|n|] == ' '
      && (a == "" ==> r[|r| - 1] == ' ')
  {
    // The parts list grows at its end, as the source appends to it.
    JoinSnoc([], n, " ");
    if withSymbols {
      JoinSnoc([n], s, " ");
      JoinSnoc([n, s], a, " ");
      assert [n] + [s] + [a] == [n, s] + [a];
      assert [n] + [s] == [n, s];
    } else {
      JoinSnoc([n], a, " ");
      assert [n] + [] + [a] == [n] + [a];
    }
  }

  /** The interpretation of a dream: its narrative fragment and a blank,
      then the symbol analysis and a blank exactly when there are symbols,
      then the annotation. */
  lemma InterpretationShape(dreamText: string, emotion: Emotion, context: string, symbols: seq<Entry>)
    ensures var r, n, a := Interpretation(dreamText, emotion, context, symbols),
        AnalyzeCoreNarrative(dreamText, emotion, context), Annotation(emotion, context, dreamText);
      && (symbols == [] ==> r == n + " " + a)
      && (symbols != [] ==> r == n + " " + SymbolAnalysis(symbols, dreamText, emotion) + " " + a)
      && r[..|n|] == n && r[|n|] == ' '
  {
    ComposeShape(AnalyzeCoreNarrative(dreamText, emotion, context), SymbolAnalysis(symbols, dreamText, emotion),
      Annotation(emotion, context, dreamText), symbols != []);
  }

  /** `create_comprehensive_interpretation`: collects the parts in a list,
      calling the contextualiser only when there are symbols, and joins the
      list with blanks. */
  method CreateComprehensiveInterpretation(dreamText: string, emotion: Emotion, context: string, symbols: seq<Entry>)
    returns (r: string)
    ensures r == Interpretation(dreamText, emotion, context, symbols)
  {
    var interpretationParts: seq<string> := [];
    interpretationParts := interpretationParts + [AnalyzeCoreNarrative(dreamText, emotion, context)];
    if symbols != [] {
      var symbolAnalysis := AnalyzeSymbolsInContext(symbols, dreamText, emotion);
      interpretationParts := interpretationParts + [symbolAnalysis];
    }
    var emotionalAnalysis := AnalyzeEmotionalContext(emotion, context, dreamText);
    interpretationParts := interpretationParts + [emotionalAnalysis];
    r := Join(interpretationParts, " ");
    assert interpretationParts == [AnalyzeCoreNarrative(dreamText, emotion, context)]
      + (if symbols != [] then [SymbolAnalysis(symbols, dreamText, emotion)] else [])
      + [Annotation(emotion, context, dreamText)];
  }

  /** `generate_interpretation`: hands over to the composer. */
  method GenerateInterpretation(dreamText: string, emotion: Emotion, context: string, symbols: seq<Entry>)
    returns (r: string)
    ensures r == Interpretation(dreamText, emotion, context, symbols)
  {
    r := CreateComprehensiveInterpretation(dreamText, emotion, context, symbols);
  }

  /** `create_fallback_interpretation`: hands over to the composer too, so
      the fallback gives the same text as the main path. */
  method CreateFallbackInterpretation(dreamText: string, emotion: Emotion, context: string, symbols: seq<Entry>)
    returns (r: string)
    ensures r == Interpretation(dreamText, emotion, context, symbols)
  {
    r := CreateComprehensiveInterpretation(dreamText, emotion, context, symbols);
  }
}

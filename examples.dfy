/** Worked examples: what the model's definitions give for concrete inputs,
    proved. */
module Examples {
  import opened Text
  import opened Emotions
  import opened Symbols
  import opened Scanner
  import opened Narrative
  import opened Annotator
  import opened Composer
  import opened Cleaning

  /** A chase with a dog wins over flying, which comes later in the
      priority order. */
  lemma ChaseBeatsFlying()
    ensures AnalyzeCoreNarrative("Dog chasing, flying", Scared, "") == ChaseDogFragment
  {
    var l := ToLower("Dog chasing, flying");
    assert OccursAt(l, "chasing", 4);
    assert OccursAt(l, "dog", 0);
  }

  /** Empty dream text gives the generic fragment. */
  lemma EmptyDreamIsGeneric(emotion: Emotion, context: string)
    ensures AnalyzeCoreNarrative("", emotion, context) == GenericFragment
  {
    assert ToLower("") == "";
    EmptyContainsNothing("chasing");
    EmptyContainsNothing("chase");
    EmptyContainsNothing("flying");
    EmptyContainsNothing("water");
    EmptyContainsNothing("house");
    EmptyContainsNothing("home");
    EmptyContainsNothing("death");
    EmptyContainsNothing("dying");
  }

  /** "falling" is found with the meaning of its second table entry. */
  lemma FallingHasLaterMeaning()
    ensures ("falling", FallingMeaning) in Scan("I kept Falling")
  {
    TableShape();
    var l := ToLower("I kept Falling");
    assert OccursAt(l, "falling", 7);
    ScanMembership(DreamSymbols, l, ("falling", FallingMeaning));
  }

  /** Terms match anywhere, even inside other words: the scanner reports
      the entry for "car" in "Scary". */
  lemma TermInsideWord()
    ensures 17 < |DreamSymbols| && DreamSymbols[17].0 == "car" && DreamSymbols[17] in Scan("Scary")
  {
    TableShape();
    assert DreamSymbols[17] == DictDisplay[17];
    assert ToLower("Scary")[1..4] == "car";
    FoundAt("Scary", 17, 1);
  }

  /** The first symbol test dream, in pieces of a readable length. */
  const OceanDream: string := "I was flying " + "over the ocean " + "and saw a snake"

  /** A table entry whose term stands at a known place in the text is found. */
  lemma FoundAt(dreamText: string, i: nat, pos: nat)
    requires i < |DreamSymbols| && OccursAt(ToLower(dreamText), DreamSymbols[i].0, pos)
    ensures DreamSymbols[i] in Scan(dreamText)
  {
    ScanMembership(DreamSymbols, ToLower(dreamText), DreamSymbols[i]);
  }

  /** The first symbol test dream finds flying ... */
  lemma OceanDreamFindsFlying()
    ensures 0 < |DreamSymbols| && DreamSymbols[0].0 == "flying" && DreamSymbols[0] in Scan(OceanDream)
  {
    TableShape();
    assert DreamSymbols[0] == DictDisplay[0];
    assert ToLower(OceanDream)[6..12] == "flying";
    FoundAt(OceanDream, 0, 6);
  }

  /** ... ocean ... */
  lemma OceanDreamFindsOcean()
    ensures 3 < |DreamSymbols| && DreamSymbols[3].0 == "ocean" && DreamSymbols[3] in Scan(OceanDream)
  {
    TableShape();
    assert DreamSymbols[3] == DictDisplay[3];
    assert ToLower(OceanDream)[22..27] == "ocean";
    FoundAt(OceanDream, 3, 22);
  }

  /** ... and snake. */
  lemma OceanDreamFindsSnake()
    ensures 8 < |DreamSymbols| && DreamSymbols[8].0 == "snake" && DreamSymbols[8] in Scan(OceanDream)
  {
    TableShape();
    assert DreamSymbols[8] == DictDisplay[8];
    assert ToLower(OceanDream)[38..43] == "snake";
    FoundAt(OceanDream, 8, 38);
  }

  /** The last symbol test dream, in pieces of a readable length. */
  const SpiderDream: string := "I was being " + "chased by a spider " + "through a dark forest"

  /** The term "chase" is found inside the word "chased". */
  lemma SpiderDreamFindsChase()
    ensures 12 < |DreamSymbols| && DreamSymbols[12].0 == "chase" && DreamSymbols[12] in Scan(SpiderDream)
  {
    TableShape();
    assert DreamSymbols[12] == DictDisplay[12];
    assert ToLower(SpiderDream)[12..17] == "chase";
    FoundAt(SpiderDream, 12, 12);
  }

  /** A dream that comes back to where it started fires the loop sentence. */
  lemma CircularDream()
    ensures LoopPattern(ToLower("I came Back where"))
  {
    var l := ToLower("I came Back where");
    assert OccursAt(l, "back", 7);
    assert OccursAt(l, "where", 12);
  }

  /** With no emotion sentence, the context sentence and the loop sentence
      are separated by two blanks. */
  lemma ContextThenLoopDoubleBlank()
    ensures Annotation(Sad, "exam week", "I came Back where") ==
      ExamStressSentence + "  " + LoopSentence
  {
    var c := ToLower("exam week");
    assert OccursAt(c, "exam", 0);
    CircularDream();
    assert ContextSentence("exam week") == ExamStressSentence;
    assert EmotionSentence(Sad) == "";
  }

  /** Nothing fires for an empty context, an emotion without a sentence and
      an empty dream. */
  lemma NothingFires()
    ensures Annotation(Other, "", "") == ""
  {
    AnnotationShape(Other, "", "");
    assert ToLower("") == "";
    EmptyContainsNothing("back");
  }

  /** The empty dream is interpreted as the generic fragment followed by a
      blank: the empty annotation still gets its separator. */
  lemma EmptyDreamInterpretation()
    ensures Interpretation("", Other, "", []) == GenericFragment + " "
  {
    EmptyDreamIsGeneric(Other, "");
    NothingFires();
    InterpretationShape("", Other, "", []);
  }

  /** Empty text has no qualifying sentence and is cleaned to the bare
      ellipsis. */
  lemma EmptyTextGetsEllipsis()
    ensures Cleaned("") == "..."
  {
    assert Split("", '.') == [""];
    assert Strip("") == "";
    assert Kept([""]) == Kept([]) + [];
  }
}

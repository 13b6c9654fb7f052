/** The emotional and contextual annotator `analyze_emotional_context`: a
    sentence chosen from the life context, a sentence chosen from the
    emotion, a sentence for dreams that return to where they started, glued
    with spaces and stripped. */
module Annotator {
  import opened Text
  import opened Emotions

  // Each long sentence is written as its first word followed by the rest:
  // the same string, in a form whose first character the verifier sees.
  const ExamStressSentence: string :=
    "Given " + "your current exam stress, this dream likely reflects your anxiety about performance and the feeling of being pursued by academic pressures."
  const WorkSentence: string :=
    "Your " + "work-related stress appears to be manifesting in your dreams as scenarios of pursuit or challenge."
  const RelationshipSentence: string :=
    "The " + "relationship dynamics in your life may be influencing the interpersonal elements in your dream."
  const ConfusedSentence: string :=
    "Your " + "confusion in the dream mirrors feelings of uncertainty or lack of clarity in your waking life."
  const AnxiousSentence: string :=
    "The " + "anxiety you felt reflects current worries or concerns that may need attention."
  const ScaredSentence: string :=
    "The " + "fear in your dream suggests you may be confronting something that feels threatening or overwhelming."
  const HappySentence: string :=
    "The " + "positive emotions indicate healthy psychological processing and optimism."
  /** The sentence for circular dreams, without the blank the source puts
      in front of it (the model appends the blank separately). */
  const LoopSentence: string :=
    "The " + "circular nature of returning to where you started suggests feelings of being stuck or trapped in repetitive patterns."

  /** The context sentence: empty for an empty context; otherwise the first
      of stress-or-exam, work, relationship found in the lowercased context,
      or empty when none is. */
  function ContextSentence(context: string): string {
    if context == [] then ""
    else
      var contextLower := ToLower(context);
      if Contains(contextLower, "stress") || Contains(contextLower, "exam") then ExamStressSentence
      else if Contains(contextLower, "work") then WorkSentence
      else if Contains(contextLower, "relationship") then RelationshipSentence
      else ""
  }

  /** The emotion sentence: one for each of Confused, Anxious, Scared and
      Happy, empty for every other emotion. */
  function EmotionSentence(emotion: Emotion): string {
    match emotion
    case Confused => ConfusedSentence
    case Anxious => AnxiousSentence
    case Scared => ScaredSentence
    case Happy => HappySentence
    case _ => ""
  }

  /** The circular-dream test on the lowercased dream text. */
  predicate LoopPattern(dreamLower: string) {
    Contains(dreamLower, "back") && (Contains(dreamLower, "where") || Contains(dreamLower, "started"))
  }

  /** The sentences that fire, in the order context, emotion, loop; an
      empty part is one that does not fire. */
  function FiredSentences(ctx: string, emo: string, loopPart: string): seq<string> {
    (if ctx != "" then [ctx] else []) + (if emo != "" then [emo] else []) + (if loopPart != "" then [loopPart] else [])
  }

  /** The parts glued as the source glues them: the sentences that fire,
      separated by single blanks, except that a context sentence followed
      directly by the loop sentence is separated from it by two blanks (the
      empty emotion part leaves its separator behind). */
  function Glue(ctx: string, emo: string, loopPart: string): string {
    if ctx != "" && emo == "" && loopPart != "" then ctx + "  " + loopPart
    else Join(FiredSentences(ctx, emo, loopPart), " ")
  }

  /** What `analyze_emotional_context` returns. */
  function Annotation(emotion: Emotion, context: string, dreamText: string): string {
    Glue(ContextSentence(context), EmotionSentence(emotion),
      if LoopPattern(ToLower(dreamText)) then LoopSentence else "")
  }

  lemma SentencesTrimmed(context: string, emotion: Emotion)
    ensures ContextSentence(context) == "" || Trimmed(ContextSentence(context))
    ensures EmotionSentence(emotion) == "" || Trimmed(EmotionSentence(emotion))
    ensures Trimmed(LoopSentence)
  {
    ContextSentenceTrimmed(context);
    EmotionSentenceTrimmed(emotion);
    LoopSentenceTrimmed();
  }

  lemma ContextSentenceTrimmed(context: string)
    ensures ContextSentence(context) == "" || Trimmed(ContextSentence(context))
  {
  }

  lemma EmotionSentenceTrimmed(emotion: Emotion)
    ensures EmotionSentence(emotion) == "" || Trimmed(EmotionSentence(emotion))
  {
  }

  lemma LoopSentenceTrimmed()
    ensures Trimmed(LoopSentence)
  {
  }

  lemma TrimmedGlue(a: string, mid: string, b: string)
    requires Trimmed(a) && Trimmed(b)
    ensures Trimmed(a + mid + b)
  {
    assert (a + mid + b)[0] == a[0];
    assert (a + mid + b)[|a + mid + b| - 1] == b[|b| - 1];
  }

  /** Each part is either empty or trimmed. */
  predicate PartsTrimmed(ctx: string, emo: string, loopPart: string) {
    (ctx == "" || Trimmed(ctx)) && (emo == "" || Trimmed(emo)) && (loopPart == "" || Trimmed(loopPart))
  }

  /** Stripping `ctx + " " + emotionPart`, where the emotion part has the
      loop part appended after a blank when there is one, gives the glued
      parts. */
  lemma StripGlue(ctx: string, emo: string, loopPart: string)
    requires PartsTrimmed(ctx, emo, loopPart)
    ensures Strip(ctx + " " + (if loopPart != "" then emo + " " + loopPart else emo)) == Glue(ctx, emo, loopPart)
  {
    if loopPart == "" {
      StripGlueNoLoop(ctx, emo);
    } else {
      StripGlueLoop(ctx, emo, loopPart);
    }
  }

  lemma StripGlueNoLoop(ctx: string, emo: string)
    requires PartsTrimmed(ctx, emo, "")
    ensures Strip(ctx + " " + emo) == Glue(ctx, emo, "")
  {
    var fired := FiredSentences(ctx, emo, "");
    if ctx == "" && emo == "" {
      assert fired == [];
      StripAllSpace(" ");
    } else if ctx == "" {
      assert fired == [emo];
      assert ctx + " " + emo == " " + emo + "";
      StripFrame(" ", emo, "");
    } else if emo == "" {
      assert fired == [ctx];
      assert ctx + " " + emo == "" + ctx + " ";
      StripFrame("", ctx, " ");
    } else {
      assert fired == [ctx, emo];
      assert Join(fired, " ") == ctx + " " + emo;
      TrimmedGlue(ctx, " ", emo);
      assert ctx + " " + emo == "" + (ctx + " " + emo) + "";
      StripFrame("", ctx + " " + emo, "");
    }
  }

  lemma StripGlueLoop(ctx: string, emo: string, l: string)
    requires l != "" && PartsTrimmed(ctx, emo, l)
    ensures Strip(ctx + " " + (emo + " " + l)) == Glue(ctx, emo, l)
  {
    var fired := FiredSentences(ctx, emo, l);
    if ctx == "" && emo == "" {
      assert fired == [l];
      assert ctx + " " + (emo + " " + l) == "  " + l + "";
      StripFrame("  ", l, "");
    } else if ctx == "" {
      assert fired == [emo, l];
      JoinTwo(emo, l, " ");
      TrimmedGlue(emo, " ", l);
      assert ctx + " " + (emo + " " + l) == " " + (emo + " " + l) + "";
      StripFrame(" ", emo + " " + l, "");
    } else if emo == "" {
      TrimmedGlue(ctx, "  ", l);
      assert ctx + " " + (emo + " " + l) == "" + (ctx + "  " + l) + "";
      StripFrame("", ctx + "  " + l, "");
    } else {
      assert fired == [ctx, emo, l];
      JoinThree(ctx, emo, l, " ");
      TrimmedGlue(emo, " ", l);
      TrimmedGlue(ctx, " ", emo + " " + l);
      assert ctx + " " + (emo + " " + l) == "" + (ctx + " " + (emo + " " + l)) + "";
      StripFrame("", ctx + " " + (emo + " " + l), "");
    }
  }

  /** The glued parts have no whitespace at either end; they are empty
      exactly when every part is; they start with the first part that is
      there and end with the loop part when there is one. */
  lemma GlueShape(c: string, e: string, l: string)
    requires PartsTrimmed(c, e, l)
    ensures var r := Glue(c, e, l);
      && (r == "" || Trimmed(r))
      && (r == "" <==> c == "" && e == "" && l == "")
      && (c != "" ==> |c| <= |r| && r[..|c|] == c)
      && (c == "" && e != "" ==> |e| <= |r| && r[..|e|] == e)
      && (l != "" ==> |l| <= |r| && r[|r| - |l|..] == l)
      && (l == "" && c != "" && e == "" ==> r == c)
      && (l == "" && c == "" ==> r == e)
  {
    var r := Glue(c, e, l);
    var fired := FiredSentences(c, e, l);
    if c != "" && e == "" && l != "" {
      TrimmedGlue(c, "  ", l);
      assert r[..|c|] == c;
      assert r[|r| - |l|..] == l;
    } else if c != "" && e != "" && l != "" {
      assert fired == [c, e, l];
      JoinThree(c, e, l, " ");
      TrimmedGlue(e, " ", l);
      TrimmedGlue(c, " ", e + " " + l);
      assert r == c + " " + (e + " " + l);
      assert r[..|c|] == c;
      assert r[|r| - |l|..] == l;
    } else if c != "" && e != "" {
      assert fired == [c, e];
      JoinTwo(c, e, " ");
      TrimmedGlue(c, " ", e);
      assert r == c + " " + e;
      assert r[..|c|] == c;
    } else if e != "" && l != "" {
      assert fired == [e, l];
      JoinTwo(e, l, " ");
      TrimmedGlue(e, " ", l);
      assert r == e + " " + l;
      assert r[..|e|] == e;
      assert r[|r| - |l|..] == l;
    } else if c != "" {
      assert fired == [c];
    } else if e != "" {
      assert fired == [e];
    } else if l != "" {
      assert fired == [l];
    } else {
      assert fired == [];
    }
  }

  /** The context sentence is the first of the three rules that matches the
      lowercased context, and is empty exactly when none does. */
  lemma ContextPriority(context: string)
    ensures var c, l := ContextSentence(context), ToLower(context);
      && (c == ExamStressSentence <==> Contains(l, "stress") || Contains(l, "exam"))
      && (c == WorkSentence <==>
            !Contains(l, "stress") && !Contains(l, "exam") && Contains(l, "work"))
      && (c == RelationshipSentence <==>
            !Contains(l, "stress") && !Contains(l, "exam") && !Contains(l, "work")
            && Contains(l, "relationship"))
      && (c == "" <==>
            !Contains(l, "stress") && !Contains(l, "exam") && !Contains(l, "work")
            && !Contains(l, "relationship"))
  {
    var l := ToLower(context);
    if context == [] {
      assert l == [];
      EmptyContainsNothing("stress");
      EmptyContainsNothing("exam");
      EmptyContainsNothing("work");
      EmptyContainsNothing("relationship");
    }
    SentencesTrimmed(context, Other);
    assert ExamStressSentence[0] == 'G' && WorkSentence[0] == 'Y' && RelationshipSentence[0] == 'T';
    assert WorkSentence[1] == 'o' && RelationshipSentence[1] == 'h';
  }

  /** An emotion sentence fires exactly for Confused, Anxious, Scared and
      Happy. */
  lemma EmotionSentenceFires(emotion: Emotion)
    ensures EmotionSentence(emotion) != "" <==> emotion in {Confused, Anxious, Scared, Happy}
  {
  }

  /** The annotation has no whitespace at either end; it is empty exactly
      when no sentence fires; it starts with the first sentence that fires
      and ends with the loop sentence when the loop fires. */
  lemma AnnotationShape(emotion: Emotion, context: string, dreamText: string)
    ensures var r, c, e, loop := Annotation(emotion, context, dreamText), ContextSentence(context),
        EmotionSentence(emotion), LoopPattern(ToLower(dreamText));
      && (r == "" || Trimmed(r))
      && (r == "" <==> c == "" && e == "" && !loop)
      && (c != "" ==> |c| <= |r| && r[..|c|] == c)
      && (c == "" && e != "" ==> |e| <= |r| && r[..|e|] == e)
      && (loop ==> |LoopSentence| <= |r| && r[|r| - |LoopSentence|..] == LoopSentence)
      && (!loop && c != "" && e == "" ==> r == c)
      && (!loop && c == "" ==> r == e)
  {
    SentencesTrimmed(context, emotion);
    GlueShape(ContextSentence(context), EmotionSentence(emotion),
      if LoopPattern(ToLower(dreamText)) then LoopSentence else "");
  }

  /** `analyze_emotional_context`: sets the context part and the emotion
      part step by step, appends the loop sentence to the emotion part, and
      strips the two parts joined by a blank. */
  method AnalyzeEmotionalContext(emotion: Emotion, context: string, dreamText: string) returns (r: string)
    ensures r == Annotation(emotion, context, dreamText)
  {
    var dreamLower := ToLower(dreamText);

    var contextAnalysis := "";
    if context != [] {
      var contextLower := ToLower(context);
      if Contains(contextLower, "stress") || Contains(contextLower, "exam") {
        contextAnalysis := ExamStressSentence;
      } else if Contains(contextLower, "work") {
        contextAnalysis := WorkSentence;
      } else if Contains(contextLower, "relationship") {
        contextAnalysis := RelationshipSentence;
      }
    }
    assert contextAnalysis == ContextSentence(context);

    var emotionAnalysis := "";
    if emotion == Confused {
      emotionAnalysis := ConfusedSentence;
    } else if emotion == Anxious {
      emotionAnalysis := AnxiousSentence;
    } else if emotion == Scared {
      emotionAnalysis := ScaredSentence;
    } else if emotion == Happy {
      emotionAnalysis := HappySentence;
    }
    assert emotionAnalysis == EmotionSentence(emotion);

    if Contains(dreamLower, "back") && (Contains(dreamLower, "where") || Contains(dreamLower, "started")) {
      emotionAnalysis := emotionAnalysis + " " + LoopSentence;
    }

    r := Strip(contextAnalysis + " " + emotionAnalysis);
    SentencesTrimmed(context, emotion);
    var loopPart := if LoopPattern(dreamLower) then LoopSentence else "";
    StripGlue(contextAnalysis, EmotionSentence(emotion), loopPart);
  }
}

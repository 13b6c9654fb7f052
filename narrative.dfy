/** The narrative classifier `analyze_core_narrative`: one base fragment
    chosen by the first theme found in the lowercased dream text, in the
    priority order chase, flying, water, house, death. */
module Narrative {
  import opened Text
  import opened Emotions

  const ChaseDogFragment: string :=
    "Being chased by a dog in dreams often represents loyalty conflicts or feeling pursued by responsibilities you're trying to avoid. The circular nature of returning to where you started suggests you may feel trapped in a recurring situation."
  const ChaseFragment: string :=
    "Being chased in dreams typically represents avoidance of something in waking life that requires your attention."
  const FlyingFallingFragment: string :=
    "The transition from flying to falling suggests a loss of control or confidence. Flying represents freedom and transcendence, while falling indicates anxiety about losing that control."
  const FlyingFragment: string :=
    "Flying in dreams often symbolizes liberation, rising above current challenges, or a desire for freedom from constraints."
  const DeepWaterFragment: string :=
    "Deep water or drowning scenarios often represent feeling overwhelmed by emotions or situations in your life."
  const WaterFragment: string :=
    "Water in dreams typically represents emotions, the subconscious mind, or life transitions."
  const HouseFragment: string :=
    "Houses in dreams often represent different aspects of your psyche or your current life situation."
  const DeathFragment: string :=
    "Death in dreams rarely represents literal death, but rather transformation, the end of one phase, and the beginning of another."
  const GenericFragment: string :=
    "Your dream reflects current psychological processes and concerns in your waking life."

  /** The nine fragments the classifier can return. */
  const NarrativeFragments: seq<string> := [
    ChaseDogFragment, ChaseFragment, FlyingFallingFragment, FlyingFragment,
    DeepWaterFragment, WaterFragment, HouseFragment, DeathFragment, GenericFragment
  ]

  // The theme guards, each on the lowercased text.
  predicate ChaseTheme(lower: string) { Contains(lower, "chasing") || Contains(lower, "chase") }
  predicate FlyingTheme(lower: string) { Contains(lower, "flying") }
  predicate WaterTheme(lower: string) { Contains(lower, "water") }
  predicate HouseTheme(lower: string) { Contains(lower, "house") || Contains(lower, "home") }
  predicate DeathTheme(lower: string) { Contains(lower, "death") || Contains(lower, "dying") }

  /** `analyze_core_narrative`. The emotion and context are accepted, as in
      the source, and not consulted. */
  function AnalyzeCoreNarrative(dreamText: string, emotion: Emotion, context: string): (r: string)
    ensures r in NarrativeFragments
  {
    NarrativeOf(ToLower(dreamText))
  }

  /** The theme cascade on the lowercased dream text. */
  function NarrativeOf(dreamLower: string): (r: string)
    ensures r in NarrativeFragments
  {
    if ChaseTheme(dreamLower) then
      if Contains(dreamLower, "dog") then ChaseDogFragment else ChaseFragment
    else if FlyingTheme(dreamLower) then
      if Contains(dreamLower, "falling") then FlyingFallingFragment else FlyingFragment
    else if WaterTheme(dreamLower) then
      if Contains(dreamLower, "drowning") || Contains(dreamLower, "deep") then DeepWaterFragment
      else WaterFragment
    else if HouseTheme(dreamLower) then HouseFragment
    else if DeathTheme(dreamLower) then DeathFragment
    else GenericFragment
  }

  /** The nine fragments are pairwise different, so each one identifies the
      rule that produced it. */
  lemma FragmentsDistinct()
    ensures forall i, j :: 0 <= i < j < |NarrativeFragments| ==> NarrativeFragments[i] != NarrativeFragments[j]
  {
  }

  /** Each fragment is returned exactly when its guard is the first one that
      holds: a later theme is never consulted once an earlier one matches. */
  lemma ClassifierPriority(dreamText: string, emotion: Emotion, context: string)
    ensures var r, l := AnalyzeCoreNarrative(dreamText, emotion, context), ToLower(dreamText);
      && (r == ChaseDogFragment <==> ChaseTheme(l) && Contains(l, "dog"))
      && (r == ChaseFragment <==> ChaseTheme(l) && !Contains(l, "dog"))
      && (r == FlyingFallingFragment <==> !ChaseTheme(l) && FlyingTheme(l) && Contains(l, "falling"))
      && (r == FlyingFragment <==> !ChaseTheme(l) && FlyingTheme(l) && !Contains(l, "falling"))
      && (r == DeepWaterFragment <==>
            !ChaseTheme(l) && !FlyingTheme(l) && WaterTheme(l)
            && (Contains(l, "drowning") || Contains(l, "deep")))
      && (r == WaterFragment <==>
            !ChaseTheme(l) && !FlyingTheme(l) && WaterTheme(l)
            && !Contains(l, "drowning") && !Contains(l, "deep"))
      && (r == HouseFragment <==> !ChaseTheme(l) && !FlyingTheme(l) && !WaterTheme(l) && HouseTheme(l))
      && (r == DeathFragment <==>
            !ChaseTheme(l) && !FlyingTheme(l) && !WaterTheme(l) && !HouseTheme(l) && DeathTheme(l))
      && (r == GenericFragment <==>
            !ChaseTheme(l) && !FlyingTheme(l) && !WaterTheme(l) && !HouseTheme(l) && !DeathTheme(l))
  {
    FragmentsDistinct();
  }

  /** Only the lowercased text decides: texts that agree after lowercasing
      get the same fragment, whatever emotion and context come with them. */
  lemma ClassifierDependsOnLowercasedText(t1: string, e1: Emotion, c1: string, t2: string, e2: Emotion, c2: string)
    requires ToLower(t1) == ToLower(t2)
    ensures AnalyzeCoreNarrative(t1, e1, c1) == AnalyzeCoreNarrative(t2, e2, c2)
  {
  }
}

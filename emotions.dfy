/** The emotion tag. The interpreter receives it as the label chosen in a
    select box and compares it with exact, case-sensitive string tests;
    the model names the eight labels and keeps any other string as
    `Unlisted`, which the interpreter treats like the unmatched labels. */
module Emotions {

  datatype EmotionTag =
    | Happy | Anxious | Scared | Confused | Excited | Sad | Peaceful | Other
    | Unlisted(name: string)

  /** The emotions the interpreter can be given: an unlisted label is never
      one of the eight select box labels, so every string has exactly one
      emotion. */
  type Emotion = e: EmotionTag | WellFormed(e) witness Happy

  /** The select box options, in the order the form shows them. */
  const SelectboxLabels: seq<string> :=
    ["Happy", "Anxious", "Scared", "Confused", "Excited", "Sad", "Peaceful", "Other"]

  /** The string the interpreter sees for an emotion. */
  function Label(e: EmotionTag): string {
    match e
    case Happy => "Happy"
    case Anxious => "Anxious"
    case Scared => "Scared"
    case Confused => "Confused"
    case Excited => "Excited"
    case Sad => "Sad"
    case Peaceful => "Peaceful"
    case Other => "Other"
    case Unlisted(s) => s
  }

  /** Reads a label with the interpreter's exact string comparison. */
  function FromLabel(s: string): (e: Emotion)
    ensures Label(e) == s
    ensures e.Unlisted? <==> s !in SelectboxLabels
  {
    if s == "Happy" then Happy
    else if s == "Anxious" then Anxious
    else if s == "Scared" then Scared
    else if s == "Confused" then Confused
    else if s == "Excited" then Excited
    else if s == "Sad" then Sad
    else if s == "Peaceful" then Peaceful
    else if s == "Other" then Other
    else Unlisted(s)
  }

  /** An unlisted label is never one of the eight select box labels. */
  predicate WellFormed(e: EmotionTag) {
    e.Unlisted? ==> e.name !in SelectboxLabels
  }

  /** Reading the label of an emotion gives that emotion back. */
  lemma FromLabelOfLabel(e: Emotion)
    ensures FromLabel(Label(e)) == e
  {
  }
}

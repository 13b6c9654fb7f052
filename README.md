# Dream interpreter: the rule-based annotation engine

This project models the deterministic part of `dream_interpreter.py` in Dafny and proves properties of it.
That part turns a dream narrative, an emotion tag and a free-text life context into an interpretation and a journal record.
It has these pieces:

- the symbol table `DREAM_SYMBOLS`: 33 terms, each with a meaning;
- the symbol scanner `identify_symbols`;
- the narrative classifier `analyze_core_narrative`;
- the symbol contextualiser `analyze_symbols_in_context`;
- the context/emotion annotator `analyze_emotional_context`;
- the composer `create_comprehensive_interpretation` and its two aliases;
- the post-processor `clean_interpretation`;
- the journal record `create_dream_journal_entry`.

Each model mirrors the form of its source function:

- A function that builds a list by appending in a loop becomes a Dafny `method` with a `for` loop. Its invariant ties the list built so far to a specification function on the inputs.
- `analyze_emotional_context` reassigns its two parts step by step; the model does the same.
- The classifier and the journal record are `function`s.

The Python string built-ins are modelled over ASCII in module `Text`:

- `lower`, one-character `isupper`, `strip`, `split` on one character, `join`, substring `in` and `s[:n]`;
- `strip` treats as whitespace blank, TAB, LF, VT, FF, CR and the separators 0x1C-0x1F.

The emotion is a datatype with the eight select-box labels, plus `Unlisted(name)`. A subset type keeps the name of an `Unlisted` emotion outside the eight labels, so every string stands for exactly one emotion. An unlisted emotion matches none of the emotion tests, exactly as an unknown string does in the source.

Behaviour of the code that the model keeps as written:

- **Repeated key.** The dictionary literal of `DREAM_SYMBOLS` repeats the key `"falling"`. The table is built the way Python builds a dict from a display:
  - a repeated key keeps its first position and takes the last value;
  - so `"falling"` is the second entry, with the meaning from line 45.
- **Substring matching.** Terms match anywhere in the lowercased text, also inside other words: `"car"` is found in `"scary"`, and `"chase"` in `"chased"`.
- **Loop sentence after a context sentence.** The annotator glues `context + " " + emotion` and then strips. When a context sentence and the loop sentence fire but no emotion sentence does, the two are separated by two blanks.
- **Empty annotation.** The composer always appends the annotation after a blank. An empty annotation leaves a trailing blank: the empty dream with an unmatched emotion and no context gives the generic fragment followed by `" "`.
- **No rejection of emotions.** Nothing rejects an emotion outside the eight labels; such an emotion simply produces no emotion sentence and no emotion-specific symbol sentence.

## Model

| member | source | states |
|---|---|---|
| Text.ToLower | dream_interpreter.py:72 | `lower()`: same length, with each ASCII capital replaced by its small letter and every other character kept |
| Text.IsUpperChar | dream_interpreter.py:94 | `c.isupper()` for one ASCII character: true exactly for `A` to `Z` |
| Text.Contains | dream_interpreter.py:75 | `sub in s`: true exactly when `sub` stands in `s` at some position, with no word boundaries |
| Text.Take | dream_interpreter.py:97 | `s[:n]` clamps: the result is the whole string when it is at most `n` long, otherwise exactly its first `n` characters |
| Text.Strip | dream_interpreter.py:93 | `strip()`: drops the leading run of whitespace, then the trailing run |
| Text.StripSpec | dream_interpreter.py:93 | `strip()` returns a contiguous slice of its argument; only whitespace lies outside the slice, and the result is empty or has no whitespace at either end |
| Text.StripFrame | dream_interpreter.py:202 | stripping whitespace from around a trimmed core gives back exactly that core |
| Text.StripAllSpace | dream_interpreter.py:202 | stripping a string made only of whitespace gives the empty string |
| Text.Join | dream_interpreter.py:117 | `sep.join(parts)`: the empty string for no parts, the one part for one part, and otherwise each part followed by the separator except the last |
| Text.JoinEmpty | dream_interpreter.py:170 | joining non-empty parts gives the empty string exactly when there are no parts |
| Text.JoinSnoc | dream_interpreter.py:104-117 | joining a list extended at its end appends the separator and the new part |
| Text.Split | dream_interpreter.py:89 | `split(c)`: the pieces between occurrences of `c`, at least one, possibly empty |
| Text.JoinSplit | dream_interpreter.py:89 | joining the pieces of `split(c)` with `c` restores the original text |
| Text.SplitPiecesHaveNoSeparator | dream_interpreter.py:89 | no piece of `split(c)` contains `c` |
| Emotions.FromLabel | dream_interpreter.py:294-296 | reading a label keeps the string, and gives `Unlisted` exactly for strings that are not one of the eight select-box labels |
| Emotions.FromLabelOfLabel | dream_interpreter.py:294-296 | reading back the label of an emotion gives the same emotion |
| Symbols.FindKey | dream_interpreter.py:10-46 | the position of a key is its first occurrence, or the length when the key is absent |
| Symbols.DictFromDisplay | dream_interpreter.py:10-46 | a dict display built as Python builds it: entries inserted left to right, a repeated key keeping its first place and taking the new value |
| Symbols.DreamSymbols | dream_interpreter.py:10-46 | `DREAM_SYMBOLS`: the dict built from the 34-entry display as written in the source |
| Symbols.DictFromDisplayDistinct | dream_interpreter.py:10-46 | a dict built from a display never holds a key twice |
| Symbols.DictFromDistinctDisplay | dream_interpreter.py:10-46 | a display without repeated keys builds exactly itself, in order |
| Symbols.TableShape | dream_interpreter.py:10-46 | `DREAM_SYMBOLS` is made as follows: take the first 33 entries of the literal and replace the second entry by `"falling"` with the line-45 meaning. The result has 33 distinct, non-empty keys, and `"falling"` is found only at position 1 |
| Scanner.Scan | dream_interpreter.py:69-78 | what `identify_symbols` returns: the entries of `DREAM_SYMBOLS`, in table order, whose term occurs in the lowercased text |
| Scanner.ScanMembership | dream_interpreter.py:74-76 | an entry is found exactly when it is in the table and its term occurs in the lowercased text |
| Scanner.ScanKeepsOrder | dream_interpreter.py:74-76 | the entries found are a subsequence of the table, in table order |
| Scanner.ScanNoRepeats | dream_interpreter.py:74-76 | over a table without repeated keys, no term is found twice |
| Scanner.ScanEmptyText | dream_interpreter.py:69-78 | over a table of non-empty terms, empty text finds nothing |
| Scanner.OneMeaningPerTerm | dream_interpreter.py:10-46 | in a table without repeated keys, a term has a single meaning |
| Scanner.ScanSpec | dream_interpreter.py:69-78 | `identify_symbols` over `DREAM_SYMBOLS`, four facts: exact membership, table order, no repeated term, and empty text gives the empty list |
| Scanner.IdentifySymbols | dream_interpreter.py:69-78 | the loop returns the specified scan; a pair is in the result exactly when it is a table entry whose term occurs in the lowercased text |
| Narrative.AnalyzeCoreNarrative | dream_interpreter.py:121-151 | lowercases the dream text and applies the theme cascade; the result is always one of the nine fixed fragments |
| Narrative.NarrativeOf | dream_interpreter.py:126-151 | the theme cascade on the lowercased text; the result is always one of the nine fragments |
| Narrative.FragmentsDistinct | dream_interpreter.py:126-151 | the nine fragments are pairwise different |
| Narrative.ClassifierPriority | dream_interpreter.py:121-151 | each fragment is returned exactly when its guard is the first that holds, in the order: chase (dog first), flying (falling first), water (drowning/deep first), house/home, death/dying, otherwise the generic fragment |
| Narrative.ClassifierDependsOnLowercasedText | dream_interpreter.py:121-124 | only the lowercased text decides the fragment; the emotion and the context are not consulted |
| SymbolContext.GenericSentence | dream_interpreter.py:168 | the generic sentence has the length of its template around term and meaning, starts with `T` and ends with a full stop |
| SymbolContext.SymbolSentence | dream_interpreter.py:158-168 | the sentence for one symbol. The cases are tried in this order: `"chase"` with `"dog"` in the text, `"chase"`, `"water"` with `"deep"` or `"ocean"`, `"flying"` with Happy. Otherwise the generic sentence |
| SymbolContext.SymbolAnalysis | dream_interpreter.py:153-170 | what `analyze_symbols_in_context` returns: the symbol sentences joined by single blanks |
| SymbolContext.SymbolSentences | dream_interpreter.py:158-168 | one sentence per symbol, position for position |
| SymbolContext.SymbolSentenceTrimmed | dream_interpreter.py:158-168 | every symbol sentence is non-empty and has no whitespace at either end |
| SymbolContext.ChasingIsGeneric | dream_interpreter.py:159-162 | only the exact term `"chase"` picks the chase sentences; `"chasing"` gets the generic sentence |
| SymbolContext.FlyingSentenceNeedsHappy | dream_interpreter.py:165-166 | the flying sentence is chosen exactly when the emotion is Happy, and otherwise the generic sentence is |
| SymbolContext.OtherSymbolsAreGeneric | dream_interpreter.py:167-168 | a term other than chase, water and flying always gets the generic sentence |
| SymbolContext.SymbolAnalysisShape | dream_interpreter.py:153-170 | the analysis is empty exactly when there are no symbols, and otherwise starts with the first symbol's sentence |
| SymbolContext.AnalyzeSymbolsInContext | dream_interpreter.py:153-170 | the loop returns the sentences joined by single blanks, and the empty string exactly for no symbols |
| Annotator.ContextSentence | dream_interpreter.py:176-185 | the context sentence: empty for an empty context, else the first of stress-or-exam, work, relationship found in the lowercased context, else empty |
| Annotator.EmotionSentence | dream_interpreter.py:188-196 | the emotion sentence: one each for Confused, Anxious, Scared and Happy, empty for every other emotion |
| Annotator.LoopPattern | dream_interpreter.py:199 | the circular-dream test: `"back"` and one of `"where"`, `"started"` occur in the lowercased text |
| Annotator.Glue | dream_interpreter.py:199-202 | the reference combination: the sentences that fire joined by single blanks, except a context sentence followed directly by the loop sentence, which are separated by two blanks |
| Annotator.Annotation | dream_interpreter.py:172-202 | what `analyze_emotional_context` returns: the combination of the context sentence, the emotion sentence and the loop sentence when the loop test holds |
| Annotator.ContextPriority | dream_interpreter.py:176-185 | the context sentence comes from the first rule that matches the lowercased context (stress/exam, work, relationship), and is empty exactly when none matches |
| Annotator.EmotionSentenceFires | dream_interpreter.py:188-196 | an emotion sentence exists exactly for Confused, Anxious, Scared and Happy |
| Annotator.StripGlue | dream_interpreter.py:199-202 | stripping `context + " " + emotion`, with the loop sentence appended to the emotion part after a blank, gives the reference combination `Glue`. There are two exceptional cases: two blanks separate a context sentence from the loop sentence, and empty parts leave nothing behind |
| Annotator.GlueShape | dream_interpreter.py:202 | the combination has no whitespace at either end and is empty only when every part is. It begins with the first part present and ends with the loop sentence when the loop fires |
| Annotator.AnnotationShape | dream_interpreter.py:172-202 | the annotation has no whitespace at either end and is empty exactly when no sentence fires. It begins with the context sentence (or the emotion sentence when the context sentence is absent). It ends with the loop sentence whenever the text contains "back" and "where" or "started" |
| Annotator.AnalyzeEmotionalContext | dream_interpreter.py:172-202 | the step-by-step assignments and the strip give the reference annotation |
| Composer.Compose | dream_interpreter.py:104-117 | the list narrative, symbol analysis (only with symbols), annotation, joined by single blanks |
| Composer.Interpretation | dream_interpreter.py:99-119 | what `create_comprehensive_interpretation` returns: the composition of the narrative fragment, the symbol analysis and the annotation |
| Composer.ComposeShape | dream_interpreter.py:104-117 | the composition is the narrative, a blank, the symbol analysis and a blank when there are symbols, then the annotation. It starts with the narrative and a blank, so it never equals the narrative, and an empty annotation leaves a trailing blank |
| Composer.InterpretationShape | dream_interpreter.py:99-119 | the interpretation is the narrative fragment, a blank, the symbol analysis and a blank exactly when there are symbols, then the annotation |
| Composer.CreateComprehensiveInterpretation | dream_interpreter.py:99-119 | collecting the parts and joining them with blanks gives the specified interpretation |
| Composer.GenerateInterpretation | dream_interpreter.py:80-84 | returns the same interpretation as the composer |
| Composer.CreateFallbackInterpretation | dream_interpreter.py:204-206 | returns the same interpretation as the composer |
| Cleaning.Qualifies | dream_interpreter.py:94 | a stripped piece qualifies when it is longer than ten characters and its first character is an ASCII capital |
| Cleaning.Kept | dream_interpreter.py:91-95 | the stripped pieces that qualify, in order |
| Cleaning.Cleaned | dream_interpreter.py:86-97 | what `clean_interpretation` returns: the first three kept sentences joined by `". "` and closed by a full stop, or the first 200 characters and `"..."` when none is kept |
| Cleaning.KeptMembership | dream_interpreter.py:91-95 | a sentence is kept exactly when it qualifies (longer than ten characters, capital first) and is the stripped form of a piece |
| Cleaning.KeptCons | dream_interpreter.py:92-95 | keeping sentences handles a leading piece first, then the rest |
| Cleaning.StripAbsent | dream_interpreter.py:93 | stripping never introduces a character that was not there |
| Cleaning.KeptSentencesProperties | dream_interpreter.py:89-95 | every kept sentence qualifies, has no whitespace at either end, and contains no full stop |
| Cleaning.SplitAfter | dream_interpreter.py:89 | splitting at a separator that the first part lacks yields that part, then the split of the rest |
| Cleaning.KeptOfRebuilt | dream_interpreter.py:89-97 | text rebuilt from qualifying, full-stop-free sentences splits back into exactly those sentences |
| Cleaning.CleanedShape | dream_interpreter.py:86-97 | two cases. When some sentence qualifies: at most the first three kept sentences, joined by `". "` and closed by a full stop. Otherwise: the first 200 characters and `"..."`, so at most 203 characters |
| Cleaning.CleanedIdempotent | dream_interpreter.py:86-97 | cleaning an already cleaned text changes nothing, when some sentence qualified |
| Cleaning.CleanInterpretation | dream_interpreter.py:86-97 | the loop and the final expression give the specified cleaned text |
| Journal.Padded | dream_interpreter.py:211 | a number padded to a width has exactly that many characters, all decimal digits |
| Journal.PaddedValue | dream_interpreter.py:211 | reading back a padded number that fits gives the number |
| Journal.FieldsSlices | dream_interpreter.py:211 | each field of a separator-joined date or time can be cut back out |
| Journal.FormatDate | dream_interpreter.py:211 | `%Y-%m-%d`: the year in four digits, the month and the day in two, separated by `-` |
| Journal.FormatTime | dream_interpreter.py:211 | `%H:%M:%S`: hour, minute and second in two digits each, separated by `:` |
| Journal.FormatMoment | dream_interpreter.py:211 | `strftime("%Y-%m-%d %H:%M:%S")` has 19 characters, with the separators at positions 4, 7, 10, 13, 16 and digits everywhere else |
| Journal.FormatMomentRoundTrip | dream_interpreter.py:211 | parsing the date field gives back the moment it was formatted from |
| Journal.SymbolRecords | dream_interpreter.py:216 | one record per symbol pair, in order, holding that pair's term and meaning |
| Journal.SymbolRecordsRoundTrip | dream_interpreter.py:216 | turning the records back into pairs gives the input symbols |
| Journal.CreateDreamJournalEntry | dream_interpreter.py:208-218 | dream, emotion, context and interpretation are stored unchanged; the date names the moment passed in; the symbol records give back the input pairs |
| Examples.TermInsideWord | dream_interpreter.py:74-76 | the scanner reports the entry for "car" in the text "Scary" |
| Examples.ChaseBeatsFlying | dream_interpreter.py:126-128 | a text with "dog", "chasing" and "flying" gets the dog-chase fragment |
| Examples.EmptyDreamIsGeneric | dream_interpreter.py:150-151 | the empty dream gets the generic fragment |
| Examples.FallingHasLaterMeaning | dream_interpreter.py:45 | "falling" is found with its later meaning |
| Examples.OceanDreamFindsFlying | dream_interpreter.py:74-76 | the test dream about the ocean finds "flying" |
| Examples.OceanDreamFindsOcean | dream_interpreter.py:74-76 | the test dream about the ocean finds "ocean" |
| Examples.OceanDreamFindsSnake | dream_interpreter.py:74-76 | the test dream about the ocean finds "snake" |
| Examples.SpiderDreamFindsChase | dream_interpreter.py:74-76 | the term "chase" is found inside "chased" |
| Examples.CircularDream | dream_interpreter.py:199 | "back" together with "where" fires the loop test |
| Examples.ContextThenLoopDoubleBlank | dream_interpreter.py:199-202 | an exam context, an emotion without a sentence and a circular dream give the context sentence, two blanks and the loop sentence |
| Examples.NothingFires | dream_interpreter.py:202 | no context, no emotion sentence and no loop give the empty annotation |
| Examples.EmptyDreamInterpretation | dream_interpreter.py:117 | the empty dream is interpreted as the generic fragment followed by a blank |
| Examples.EmptyTextGetsEllipsis | dream_interpreter.py:97 | cleaning the empty text gives `"..."` |

## Left out

- The Streamlit user interface in `main` is not modelled: forms, sidebar, styling, display-only insight branches and the session journal list. It is presentation.
- `setup_model` and the language-model, tokenizer and torch imports are not modelled. They are calls into foreign libraries and do not influence any output of the modelled functions.
- The clock is not read: `create_dream_journal_entry` takes the moment of saving as a parameter. Its formatting is modelled for four-digit years only. Years below 1000 depend on the platform's `strftime`.
- Case conversion, `isupper` and whitespace are ASCII only; non-ASCII letters and Unicode whitespace are kept as they are.
- The constructor of the interpreter class, which only loads the model, is not modelled.
- `test_dreams.py` is not modelled. It checks installed packages and prints results; two of its dream texts appear as worked examples.
- Examples.OceanDreamFindsFlying: the worked examples state that the named symbols are found, not the whole result list in order. The order follows from Scanner.ScanSpec.

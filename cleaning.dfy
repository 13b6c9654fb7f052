/** The post-processor `clean_interpretation`: split the text at full stops,
    keep the stripped pieces that look like sentences, and rebuild the text
    from the first three of them; when none qualifies, fall back to the
    first 200 characters and an ellipsis. */
module Cleaning {
  import opened Text

  /** A stripped piece is kept when it is longer than ten characters and
      starts with an ASCII capital. */
  predicate Qualifies(sentence: string) {
    |sentence| > 10 && IsUpperChar(sentence[0])
  }

  /** The stripped pieces that qualify, in order. */
  function Kept(pieces: seq<string>): seq<string>
    decreases |pieces|
  {
    if pieces == [] then []
    else
      var sentence := Strip(pieces[|pieces| - 1]);
      Kept(pieces[..|pieces| - 1]) + (if Qualifies(sentence) then [sentence] else [])
  }

  /** What `clean_interpretation(text)` returns. */
  function Cleaned(text: string): string {
    var kept := Kept(Split(text, '.'));
    if kept != [] then Join(Take(kept, 3), ". ") + "." else Take(text, 200) + "..."
  }

  /** A sentence is kept exactly when it qualifies and is the stripped form
      of one of the pieces. */
  lemma {:induction false} KeptMembership(pieces: seq<string>, t: string)
    ensures t in Kept(pieces) <==>
      Qualifies(t) && exists i :: 0 <= i < |pieces| && Strip(pieces[i]) == t
    decreases |pieces|
  {
    if pieces != [] {
      var front := pieces[..|pieces| - 1];
      var last := pieces[|pieces| - 1];
      KeptMembership(front, t);
      assert Kept(pieces) == Kept(front) + (if Qualifies(Strip(last)) then [Strip(last)] else []);
      assert forall i :: 0 <= i < |front| ==> pieces[i] == front[i];
      if Qualifies(t) && (exists i :: 0 <= i < |pieces| && Strip(pieces[i]) == t) {
        var i :| 0 <= i < |pieces| && Strip(pieces[i]) == t;
        if i < |front| {
          assert Strip(front[i]) == t;
        }
      }
    }
  }

  /** Keeping distributes over a piece added in front. */
  lemma {:induction false} KeptCons(x: string, rest: seq<string>)
    ensures Kept([x] + rest) == (if Qualifies(Strip(x)) then [Strip(x)] else []) + Kept(rest)
    decreases |rest|
  {
    if rest == [] {
      assert ([x] + rest)[..0] == [];
    } else {
      var pieces := [x] + rest;
      var front := rest[..|rest| - 1];
      assert pieces[..|pieces| - 1] == [x] + front;
      KeptCons(x, front);
    }
  }

  /** A stripped string is a slice of the original, so it holds no character
      the original does not. */
  lemma StripAbsent(s: string, c: char)
    requires c !in s
    ensures c !in Strip(s)
  {
    StripSpec(s);
    var i, j :| 0 <= i <= j <= |s| && Strip(s) == s[i..j] && AllSpace(s[..i]) && AllSpace(s[j..]);
  }

  /** Every kept sentence qualifies, is trimmed, and holds no full stop when
      the pieces hold none. */
  lemma {:induction false} KeptSentencesProperties(pieces: seq<string>)
    requires forall i :: 0 <= i < |pieces| ==> '.' !in pieces[i]
    ensures forall i :: 0 <= i < |Kept(pieces)| ==>
      Qualifies(Kept(pieces)[i]) && Trimmed(Kept(pieces)[i]) && '.' !in Kept(pieces)[i]
    decreases |pieces|
  {
    if pieces != [] {
      var front := pieces[..|pieces| - 1];
      var last := pieces[|pieces| - 1];
      KeptSentencesProperties(front);
      var sentence := Strip(last);
      if Qualifies(sentence) {
        StripSpec(last);
        StripAbsent(last, '.');
        var k := Kept(pieces);
        assert k == Kept(front) + [sentence];
        forall i | 0 <= i < |k| ensures Qualifies(k[i]) && Trimmed(k[i]) && '.' !in k[i] {
          if i < |Kept(front)| {
            assert k[i] == Kept(front)[i];
          }
        }
      }
    }
  }

  /** Splitting at a separator that the first part lacks. */
  lemma {:induction false} SplitAfter(a: string, sep: char, b: string)
    requires sep !in a
    ensures Split(a + [sep] + b, sep) == [a] + Split(b, sep)
    decreases |a|
  {
    var s := a + [sep] + b;
    if a == [] {
      assert s == [sep] + b;
      assert s[1..] == b;
    } else {
      assert s[0] == a[0];
      assert s[1..] == a[1..] + [sep] + b;
      SplitAfter(a[1..], sep, b);
      var rest := Split(s[1..], sep);
      assert rest == [a[1..]] + Split(b, sep);
      assert [s[0]] + rest[0] == a;
    }
  }

  /** A qualifying sentence without full stops, closed by one, comes back
      as the first kept sentence. */
  lemma KeptOfRebuiltHead(prefix: string, head: string, restText: string)
    requires prefix == "" || prefix == " "
    requires Qualifies(head) && Trimmed(head) && '.' !in head
    ensures Kept(Split(prefix + head + "." + restText, '.')) == [head] + Kept(Split(restText, '.'))
  {
    assert '.' !in prefix + head;
    StripFrame(prefix, head, "");
    assert prefix + head + "" == prefix + head;
    assert prefix + head + "." + restText == (prefix + head) + ['.'] + restText;
    SplitAfter(prefix + head, '.', restText);
    KeptCons(prefix + head, Split(restText, '.'));
  }

  /** The text rebuilt from sentences without full stops splits back into
      pieces whose kept sentences are those sentences. */
  lemma {:induction false} KeptOfRebuilt(prefix: string, k: seq<string>)
    requires prefix == "" || prefix == " "
    requires k != []
    requires forall i :: 0 <= i < |k| ==> Qualifies(k[i]) && Trimmed(k[i]) && '.' !in k[i]
    ensures Kept(Split(prefix + Join(k, ". ") + ".", '.')) == k
    decreases |k|
  {
    var head := k[0];
    if |k| == 1 {
      assert prefix + Join(k, ". ") + "." == prefix + head + "." + "";
      KeptOfRebuiltHead(prefix, head, "");
      assert Kept(Split("", '.')) == Kept([""]) == Kept([]) + [];
    } else {
      var rest := k[1..];
      var restText := " " + Join(rest, ". ") + ".";
      assert prefix + Join(k, ". ") + "." == prefix + head + "." + restText;
      KeptOfRebuiltHead(prefix, head, restText);
      KeptOfRebuilt(" ", rest);
      assert k == [head] + rest;
    }
  }

  /** The output has one of two forms. When some sentence qualifies, it is
      at most three kept sentences, each qualifying, joined by ". " and
      closed by a full stop. Otherwise it is the first 200 characters of the
      text and "...", so at most 203 characters long. */
  lemma CleanedShape(text: string)
    ensures var r, kept := Cleaned(text), Kept(Split(text, '.'));
      && (kept != [] ==>
            && r == Join(Take(kept, 3), ". ") + "."
            && r[|r| - 1] == '.'
            && r[..|kept[0]|] == kept[0]
            && forall i :: 0 <= i < |kept| ==> Qualifies(kept[i]) && '.' !in kept[i])
      && (kept == [] ==>
            && |r| <= 203
            && r == text[..|Take(text, 200)|] + "..."
            && (|text| <= 200 ==> r == text + "..."))
  {
    var kept := Kept(Split(text, '.'));
    SplitPiecesHaveNoSeparator(text, '.');
    KeptSentencesProperties(Split(text, '.'));
    if kept != [] {
      JoinPrefix(Take(kept, 3), ". ");
    }
  }

  /** Cleaning is idempotent on text in which some sentence qualifies: the
      cleaned text splits back into exactly the sentences it was built
      from. */
  lemma CleanedIdempotent(text: string)
    requires Kept(Split(text, '.')) != []
    ensures Cleaned(Cleaned(text)) == Cleaned(text)
  {
    var kept := Kept(Split(text, '.'));
    SplitPiecesHaveNoSeparator(text, '.');
    KeptSentencesProperties(Split(text, '.'));
    var k := Take(kept, 3);
    forall i | 0 <= i < |k| ensures Qualifies(k[i]) && Trimmed(k[i]) && '.' !in k[i] {
      assert k[i] == kept[i];
    }
    KeptOfRebuilt("", k);
    assert "" + Join(k, ". ") + "." == Cleaned(text);
  }

  /** `clean_interpretation`: strips each piece in a loop and collects the
      ones that qualify, then rebuilds the text. */
  method CleanInterpretation(text: string) returns (r: string)
    ensures r == Cleaned(text)
  {
    var sentences := Split(text, '.');
    var cleanedSentences: seq<string> := [];
    for i := 0 to |sentences|
      invariant cleanedSentences == Kept(sentences[..i])
    {
      var sentence := Strip(sentences[i]);
      assert sentences[..i + 1][..i] == sentences[..i];
      if |sentence| > 10 && IsUpperChar(sentence[0]) {
        cleanedSentences := cleanedSentences + [sentence];
      }
    }
    assert sentences[..|sentences|] == sentences;
    if |cleanedSentences| > 0 {
      r := Join(Take(cleanedSentences, 3), ". ") + ".";
    } else {
      r := Take(text, 200) + "...";
    }
  }
}

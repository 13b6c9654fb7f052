/** The symbol table `DREAM_SYMBOLS`. The source writes it as a dictionary
    display with 34 entries in which the key "falling" appears twice; a
    dictionary display keeps a repeated key at its first position and gives
    it the last value written. The model writes the display as it stands,
    builds the dictionary with those rules, and proves what table results. */
module Symbols {

  /** A (term, meaning) pair, as the dictionary's `items()` yields it. */
  type Entry = (string, string)

  /** The dictionary display, entry for entry, in source order. */
  const DictDisplay: seq<Entry> := [
    ("flying", "freedom, liberation, rising above challenges, spiritual ascension"),
    ("falling", "loss of control, fear of failure, anxiety, insecurity"),
    ("water", "emotions, subconscious, purification, life changes"),
    ("ocean", "vast emotions, the unconscious mind, feeling overwhelmed"),
    ("fire", "passion, destruction, transformation, anger"),
    ("animals", "instincts, natural self, specific traits of the animal"),
    ("dog", "loyalty, friendship, protection, or something pursuing you"),
    ("cat", "independence, mystery, feminine energy, intuition"),
    ("snake", "transformation, healing, hidden knowledge, sexuality"),
    ("spider", "creativity, feminine power, feeling trapped, web of relationships"),
    ("death", "transformation, ending of a phase, rebirth"),
    ("dying", "transformation, ending of a phase, rebirth"),
    ("chase", "avoidance, running from problems, fear, being pursued"),
    ("chasing", "avoidance, running from problems, fear, being pursued"),
    ("running", "trying to escape, avoidance, urgency"),
    ("house", "self, psyche, different aspects of personality"),
    ("home", "security, family, your inner self"),
    ("car", "control over life direction, personal drive"),
    ("driving", "control over life direction, personal autonomy"),
    ("bridge", "transition, connection, overcoming obstacles"),
    ("door", "opportunities, new beginnings, the unknown"),
    ("lost", "confusion, searching for direction, feeling overwhelmed"),
    ("mirror", "self-reflection, truth, self-awareness"),
    ("school", "learning, being tested, childhood memories"),
    ("exam", "being tested, performance anxiety, evaluation"),
    ("teacher", "authority, learning, guidance"),
    ("family", "relationships, support systems, childhood influences"),
    ("friend", "aspects of yourself, social connections"),
    ("stranger", "unknown aspects of self, new experiences"),
    ("darkness", "unknown, fear, subconscious, hidden aspects"),
    ("light", "knowledge, clarity, hope, spiritual guidance"),
    ("forest", "the unknown, natural self, getting lost"),
    ("mountain", "challenges, goals, spiritual ascension"),
    ("falling", "loss of control, fear of failure, anxiety")
  ]

  /** No key occurs twice. */
  predicate DistinctKeys(d: seq<Entry>) {
    forall i, j :: 0 <= i < j < |d| ==> d[i].0 != d[j].0
  }

  /** The position of key `k` in `d`, or `|d|` when `k` is absent. */
  function FindKey(d: seq<Entry>, k: string): (i: nat)
    ensures i <= |d|
    ensures i < |d| ==> d[i].0 == k
    ensures forall j :: 0 <= j < i ==> d[j].0 != k
    decreases |d|
  {
    if d == [] then 0
    else if d[0].0 == k then 0
    else 1 + FindKey(d[1..], k)
  }

  /** `d[k] = v`: a present key keeps its place and takes the new value,
      a new key goes to the end. */
  function DictInsert(d: seq<Entry>, k: string, v: string): seq<Entry> {
    var i := FindKey(d, k);
    if i < |d| then d[i := (k, v)] else d + [(k, v)]
  }

  /** The dictionary a display builds, inserting its entries left to right. */
  function DictFromDisplay(display: seq<Entry>): seq<Entry>
    decreases |display|
  {
    if display == [] then []
    else
      var last := display[|display| - 1];
      DictInsert(DictFromDisplay(display[..|display| - 1]), last.0, last.1)
  }

  /** Every insertion keeps the keys distinct. */
  lemma {:induction false} DictFromDisplayDistinct(display: seq<Entry>)
    ensures DistinctKeys(DictFromDisplay(display))
    decreases |display|
  {
    if display != [] {
      var front := DictFromDisplay(display[..|display| - 1]);
      DictFromDisplayDistinct(display[..|display| - 1]);
      var k := display[|display| - 1].0;
      var i := FindKey(front, k);
      if i == |front| {
        var r := front + [(k, display[|display| - 1].1)];
        forall a, b | 0 <= a < b < |r| ensures r[a].0 != r[b].0 {
          if b == |front| { assert r[a] == front[a]; }
        }
      }
    }
  }

  /** A display without repeated keys builds exactly itself. */
  lemma {:induction false} DictFromDistinctDisplay(display: seq<Entry>)
    requires DistinctKeys(display)
    ensures DictFromDisplay(display) == display
    decreases |display|
  {
    if display != [] {
      var n := |display| - 1;
      var front := display[..n];
      assert DistinctKeys(front);
      DictFromDistinctDisplay(front);
      assert forall j :: 0 <= j < n ==> front[j].0 != display[n].0;
      assert front + [display[n]] == display;
    }
  }

  /** `DREAM_SYMBOLS` as the interpreter iterates it. */
  const DreamSymbols: seq<Entry> := DictFromDisplay(DictDisplay)

  /** The line-45 meaning of "falling", which overrides the line-13 one. */
  const FallingMeaning: string := "loss of control, fear of failure, anxiety"

  /** The key at position `k` differs from every key before it. */
  predicate NewKey(d: seq<Entry>, k: nat)
    requires k < |d|
  {
    forall j :: 0 <= j < k ==> d[j].0 != d[k].0
  }

  /** Each of the first `n` keys of `d` is new when it is reached. */
  predicate NewKeysUpTo(d: seq<Entry>, n: nat)
    requires n <= |d|
    decreases n
  {
    n == 0 || (NewKeysUpTo(d, n - 1) && NewKey(d, n - 1))
  }

  /** Keys that are each new when reached are distinct. */
  lemma {:induction false} NewKeysDistinct(d: seq<Entry>, n: nat)
    requires n <= |d| && NewKeysUpTo(d, n)
    ensures DistinctKeys(d[..n])
    decreases n
  {
    if n > 0 {
      NewKeysDistinct(d, n - 1);
      assert d[..n][..n - 1] == d[..n - 1];
      forall i, j | 0 <= i < j < n ensures d[..n][i].0 != d[..n][j].0 {
        if j < n - 1 {
          assert d[..n - 1][i] == d[..n][i] && d[..n - 1][j] == d[..n][j];
        }
      }
    }
  }

  // Each key of the display against the keys written before it, one key
  // per lemma so that each proof stays small.
  lemma DisplayNewKey0() ensures NewKey(DictDisplay, 0) {}
  lemma DisplayNewKey1() ensures NewKey(DictDisplay, 1) {}
  lemma DisplayNewKey2() ensures NewKey(DictDisplay, 2) {}
  lemma DisplayNewKey3() ensures NewKey(DictDisplay, 3) {}
  lemma DisplayNewKey4() ensures NewKey(DictDisplay, 4) {}
  lemma DisplayNewKey5() ensures NewKey(DictDisplay, 5) {}
  lemma DisplayNewKey6() ensures NewKey(DictDisplay, 6) {}
  lemma DisplayNewKey7() ensures NewKey(DictDisplay, 7) {}
  lemma DisplayNewKey8() ensures NewKey(DictDisplay, 8) {}
  lemma DisplayNewKey9() ensures NewKey(DictDisplay, 9) {}
  lemma DisplayNewKey10() ensures NewKey(DictDisplay, 10) {}
  lemma DisplayNewKey11() ensures NewKey(DictDisplay, 11) {}
  lemma DisplayNewKey12() ensures NewKey(DictDisplay, 12) {}
  lemma DisplayNewKey13() ensures NewKey(DictDisplay, 13) {}
  lemma DisplayNewKey14() ensures NewKey(DictDisplay, 14) {}
  lemma DisplayNewKey15() ensures NewKey(DictDisplay, 15) {}
  lemma DisplayNewKey16() ensures NewKey(DictDisplay, 16) {}
  lemma DisplayNewKey17() ensures NewKey(DictDisplay, 17) {}
  lemma DisplayNewKey18() ensures NewKey(DictDisplay, 18) {}
  lemma DisplayNewKey19() ensures NewKey(DictDisplay, 19) {}
  lemma DisplayNewKey20() ensures NewKey(DictDisplay, 20) {}
  lemma DisplayNewKey21() ensures NewKey(DictDisplay, 21) {}
  lemma DisplayNewKey22() ensures NewKey(DictDisplay, 22) {}
  lemma DisplayNewKey23() ensures NewKey(DictDisplay, 23) {}
  lemma DisplayNewKey24() ensures NewKey(DictDisplay, 24) {}
  lemma DisplayNewKey25() ensures NewKey(DictDisplay, 25) {}
  lemma DisplayNewKey26() ensures NewKey(DictDisplay, 26) {}
  lemma DisplayNewKey27() ensures NewKey(DictDisplay, 27) {}
  lemma DisplayNewKey28() ensures NewKey(DictDisplay, 28) {}
  lemma DisplayNewKey29() ensures NewKey(DictDisplay, 29) {}
  lemma DisplayNewKey30() ensures NewKey(DictDisplay, 30) {}
  lemma DisplayNewKey31() ensures NewKey(DictDisplay, 31) {}
  lemma DisplayNewKey32() ensures NewKey(DictDisplay, 32) {}

  lemma DisplayNewKeysUpTo9()
    ensures NewKeysUpTo(DictDisplay, 9)
  {
    var d := DictDisplay;
    DisplayNewKey0(); DisplayNewKey1(); DisplayNewKey2(); DisplayNewKey3(); DisplayNewKey4();
    DisplayNewKey5(); DisplayNewKey6(); DisplayNewKey7(); DisplayNewKey8();
    assert NewKeysUpTo(d, 1);
    assert NewKeysUpTo(d, 2);
    assert NewKeysUpTo(d, 3);
    assert NewKeysUpTo(d, 4);
    assert NewKeysUpTo(d, 5);
    assert NewKeysUpTo(d, 6);
    assert NewKeysUpTo(d, 7);
    assert NewKeysUpTo(d, 8);
    assert NewKeysUpTo(d, 9);
  }

  lemma DisplayNewKeysUpTo17()
    requires NewKeysUpTo(DictDisplay, 9)
    ensures NewKeysUpTo(DictDisplay, 17)
  {
    var d := DictDisplay;
    DisplayNewKey9(); DisplayNewKey10(); DisplayNewKey11(); DisplayNewKey12(); DisplayNewKey13();
    DisplayNewKey14(); DisplayNewKey15(); DisplayNewKey16();
    assert NewKeysUpTo(d, 10);
    assert NewKeysUpTo(d, 11);
    assert NewKeysUpTo(d, 12);
    assert NewKeysUpTo(d, 13);
    assert NewKeysUpTo(d, 14);
    assert NewKeysUpTo(d, 15);
    assert NewKeysUpTo(d, 16);
    assert NewKeysUpTo(d, 17);
  }

  lemma DisplayNewKeysUpTo25()
    requires NewKeysUpTo(DictDisplay, 17)
    ensures NewKeysUpTo(DictDisplay, 25)
  {
    var d := DictDisplay;
    DisplayNewKey17(); DisplayNewKey18(); DisplayNewKey19(); DisplayNewKey20(); DisplayNewKey21();
    DisplayNewKey22(); DisplayNewKey23(); DisplayNewKey24();
    assert NewKeysUpTo(d, 18);
    assert NewKeysUpTo(d, 19);
    assert NewKeysUpTo(d, 20);
    assert NewKeysUpTo(d, 21);
    assert NewKeysUpTo(d, 22);
    assert NewKeysUpTo(d, 23);
    assert NewKeysUpTo(d, 24);
    assert NewKeysUpTo(d, 25);
  }

  lemma DisplayNewKeysUpTo33()
    requires NewKeysUpTo(DictDisplay, 25)
    ensures NewKeysUpTo(DictDisplay, 33)
  {
    var d := DictDisplay;
    DisplayNewKey25(); DisplayNewKey26(); DisplayNewKey27(); DisplayNewKey28(); DisplayNewKey29();
    DisplayNewKey30(); DisplayNewKey31(); DisplayNewKey32();
    assert NewKeysUpTo(d, 26);
    assert NewKeysUpTo(d, 27);
    assert NewKeysUpTo(d, 28);
    assert NewKeysUpTo(d, 29);
    assert NewKeysUpTo(d, 30);
    assert NewKeysUpTo(d, 31);
    assert NewKeysUpTo(d, 32);
    assert NewKeysUpTo(d, 33);
  }

  lemma DisplayFirst33Distinct()
    ensures DistinctKeys(DictDisplay[..33])
  {
    DisplayNewKeysUpTo9();
    DisplayNewKeysUpTo17();
    DisplayNewKeysUpTo25();
    DisplayNewKeysUpTo33();
    NewKeysDistinct(DictDisplay, 33);
  }

  /** Every key of the display is a non-empty string. */
  lemma DisplayKeysNonEmpty()
    ensures forall i :: 0 <= i < |DictDisplay| ==> DictDisplay[i].0 != []
  {
  }

  /** The table has 33 distinct keys; "falling" is the second of them,
      with its later meaning, and every other entry is written once. */
  lemma TableShape()
    ensures |DreamSymbols| == 33
    ensures DreamSymbols == DictDisplay[..33][1 := ("falling", FallingMeaning)]
    ensures DistinctKeys(DreamSymbols)
    ensures DreamSymbols[1] == ("falling", FallingMeaning)
    ensures forall i :: 0 <= i < |DreamSymbols| && DreamSymbols[i].0 == "falling" ==> i == 1
    ensures forall i :: 0 <= i < |DreamSymbols| ==> DreamSymbols[i].0 != []
  {
    var front := DictDisplay[..33];
    DisplayFirst33Distinct();
    DictFromDistinctDisplay(front);
    assert DictDisplay[..|DictDisplay| - 1] == front;
    assert DictDisplay[0].0 == "flying" && DictDisplay[1].0 == "falling";
    assert front[0].0 == "flying" && front[1].0 == "falling";
    assert FindKey(front[1..], "falling") == 0;
    assert FindKey(front, "falling") == 1;
    assert DictDisplay[33] == ("falling", FallingMeaning);
    DictFromDisplayDistinct(DictDisplay);
    DisplayKeysNonEmpty();
    assert forall i :: 0 <= i < 33 ==> DreamSymbols[i].0 == DictDisplay[i].0;
  }
}

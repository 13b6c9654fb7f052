/** The symbol scanner `identify_symbols`: every table entry whose term
    occurs anywhere in the lowercased dream text, in table order. The scan
    is written for any table; `Scan` and `IdentifySymbols` use
    `DREAM_SYMBOLS`. */
module Scanner {
  import opened Text
  import opened Symbols

  /** The entries of `table` whose key occurs in `lower`, in table order. */
  function ScanTable(table: seq<Entry>, lower: string): (r: seq<Entry>)
    decreases |table|
  {
    if table == [] then []
    else
      var last := table[|table| - 1];
      ScanTable(table[..|table| - 1], lower) + (if Contains(lower, last.0) then [last] else [])
  }

  /** What `identify_symbols(dream_text)` returns. */
  function Scan(dreamText: string): seq<Entry> {
    ScanTable(DreamSymbols, ToLower(dreamText))
  }

  /** `xs` is `ys` with some entries left out, the rest kept in order. */
  predicate IsSubsequence(xs: seq<Entry>, ys: seq<Entry>)
    decreases |ys|
  {
    if xs == [] then true
    else if ys == [] then false
    else if xs[|xs| - 1] == ys[|ys| - 1] then IsSubsequence(xs[..|xs| - 1], ys[..|ys| - 1])
    else IsSubsequence(xs, ys[..|ys| - 1])
  }

  /** An entry is found exactly when it is in the table and its term occurs
      in the text. */
  lemma {:induction false} ScanMembership(table: seq<Entry>, lower: string, p: Entry)
    ensures p in ScanTable(table, lower) <==> p in table && Contains(lower, p.0)
    decreases |table|
  {
    if table != [] {
      var front := table[..|table| - 1];
      ScanMembership(front, lower, p);
      assert table == front + [table[|table| - 1]];
    }
  }

  /** The entries found keep the table's order. */
  lemma {:induction false} ScanKeepsOrder(table: seq<Entry>, lower: string)
    ensures IsSubsequence(ScanTable(table, lower), table)
    decreases |table|
  {
    if table != [] {
      var front := table[..|table| - 1];
      var last := table[|table| - 1];
      ScanKeepsOrder(front, lower);
      var s := ScanTable(front, lower);
      var r := ScanTable(table, lower);
      if Contains(lower, last.0) {
        assert r == s + [last];
        assert r[..|r| - 1] == s;
      } else {
        assert r == s + [] == s;
        SubsequenceOfFront(s, front, last);
        assert table == front + [last];
      }
    }
  }

  /** A subsequence of a list is a subsequence of that list extended. */
  lemma {:induction false} SubsequenceOfFront(xs: seq<Entry>, ys: seq<Entry>, y: Entry)
    requires IsSubsequence(xs, ys)
    ensures IsSubsequence(xs, ys + [y])
    decreases |ys|, 1
  {
    if xs != [] {
      var zs := ys + [y];
      assert zs[..|zs| - 1] == ys;
      if xs[|xs| - 1] == y {
        SubsequenceDropLast(xs, ys);
      }
    }
  }

  /** Leaving out the last entry of a subsequence keeps it a subsequence. */
  lemma {:induction false} SubsequenceDropLast(xs: seq<Entry>, ys: seq<Entry>)
    requires xs != [] && IsSubsequence(xs, ys)
    ensures IsSubsequence(xs[..|xs| - 1], ys)
    decreases |ys|, 0
  {
    var front := ys[..|ys| - 1];
    var last := ys[|ys| - 1];
    assert ys == front + [last];
    if xs[|xs| - 1] != last {
      SubsequenceDropLast(xs, front);
    }
    SubsequenceOfFront(xs[..|xs| - 1], front, last);
  }

  /** Over a table without repeated keys, no term is found twice. */
  lemma {:induction false} ScanNoRepeats(table: seq<Entry>, lower: string)
    requires DistinctKeys(table)
    ensures DistinctKeys(ScanTable(table, lower))
    decreases |table|
  {
    if table != [] {
      var front := table[..|table| - 1];
      var last := table[|table| - 1];
      assert DistinctKeys(front);
      ScanNoRepeats(front, lower);
      var s := ScanTable(front, lower);
      if Contains(lower, last.0) {
        var r := s + [last];
        forall i, j | 0 <= i < j < |r| ensures r[i].0 != r[j].0 {
          if j == |s| {
            ScanMembership(front, lower, r[i]);
            var k :| 0 <= k < |front| && front[k] == r[i];
            assert table[k] == front[k];
          } else {
            assert r[i] == s[i] && r[j] == s[j];
          }
        }
      }
    }
  }

  /** Over a table of non-empty terms, empty text finds nothing. */
  lemma {:induction false} ScanEmptyText(table: seq<Entry>)
    requires forall i :: 0 <= i < |table| ==> table[i].0 != []
    ensures ScanTable(table, []) == []
    decreases |table|
  {
    if table != [] {
      ScanEmptyText(table[..|table| - 1]);
      EmptyContainsNothing(table[|table| - 1].0);
    }
  }

  /** In a table without repeated keys, a term has one meaning. */
  lemma OneMeaningPerTerm(table: seq<Entry>, k: string, m1: string, m2: string)
    requires DistinctKeys(table)
    requires (k, m1) in table && (k, m2) in table
    ensures m1 == m2
  {
    var i :| 0 <= i < |table| && table[i] == (k, m1);
    var j :| 0 <= j < |table| && table[j] == (k, m2);
    assert i == j;
  }

  /** The scanner over `DREAM_SYMBOLS`: a pair is found exactly when it is a
      table entry whose term occurs in the lowercased text; the result keeps
      table order, holds no term twice, and is empty for empty text. */
  lemma ScanSpec(dreamText: string)
    ensures forall p :: p in Scan(dreamText) <==> p in DreamSymbols && Contains(ToLower(dreamText), p.0)
    ensures IsSubsequence(Scan(dreamText), DreamSymbols)
    ensures DistinctKeys(Scan(dreamText))
    ensures dreamText == [] ==> Scan(dreamText) == []
  {
    TableShape();
    var lower := ToLower(dreamText);
    forall p ensures p in Scan(dreamText) <==> p in DreamSymbols && Contains(lower, p.0) {
      ScanMembership(DreamSymbols, lower, p);
    }
    ScanKeepsOrder(DreamSymbols, lower);
    ScanNoRepeats(DreamSymbols, lower);
    if dreamText == [] {
      assert lower == [];
      ScanEmptyText(DreamSymbols);
    }
  }

  /** Scanning one more entry of a table. */
  lemma ScanTableStep(table: seq<Entry>, i: nat, lower: string)
    requires i < |table|
    ensures ScanTable(table[..i + 1], lower) ==
      ScanTable(table[..i], lower) + (if Contains(lower, table[i].0) then [table[i]] else [])
  {
    assert table[..i + 1][..i] == table[..i];
  }

  /** `identify_symbols`: walks the table in order and collects each entry
      whose term occurs in the lowercased text. */
  method IdentifySymbols(dreamText: string) returns (foundSymbols: seq<Entry>)
    ensures foundSymbols == Scan(dreamText)
    ensures forall p :: p in foundSymbols <==>
      p in DreamSymbols && Contains(ToLower(dreamText), p.0)
  {
    foundSymbols := [];
    var dreamLower := ToLower(dreamText);
    for i := 0 to |DreamSymbols|
      invariant foundSymbols == ScanTable(DreamSymbols[..i], dreamLower)
    {
      var (symbol, meaning) := DreamSymbols[i];
      ScanTableStep(DreamSymbols, i, dreamLower);
      if Contains(dreamLower, symbol) {
        foundSymbols := foundSymbols + [(symbol, meaning)];
      }
    }
    assert DreamSymbols[..|DreamSymbols|] == DreamSymbols;
    ScanSpec(dreamText);
  }
}

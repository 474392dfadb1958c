/** Column standardisation: maps the columns of an uploaded table onto the
    unified transaction schema (Date, Description, Amount, Category) by
    matching normalised column names against fixed pattern lists. A table is
    modelled by its list of column names. */
module Standardizer {
  import opened Common

  // ---------------------------------------------------------------------
  // Name normalisation

  /** Python `str.lower` on one character, as far as it can produce a
      character in `[a-z0-9]`: ASCII capitals, U+0130 (capital I with dot
      above, lowered to "i" plus a combining dot) and U+212A (Kelvin sign,
      lowered to "k"). Every other character is kept as it is: its lower-case
      form is never an ASCII letter or digit, so the filter that follows
      drops it either way. */
  function LowerChar(c: char): string {
    if 'A' <= c <= 'Z' then [(c as int + 32) as char]
    else if c == '\U{0130}' then ['i', '\U{0307}']
    else if c == '\U{212A}' then ['k']
    else [c]
  }

  function Lower(s: string): string
    decreases |s|
  {
    if s == [] then [] else LowerChar(s[0]) + Lower(s[1..])
  }

  /** The characters the normalisation keeps: `[a-z0-9]`. */
  predicate IsKept(c: char) {
    'a' <= c <= 'z' || '0' <= c <= '9'
  }

  predicate AllKept(s: string) {
    forall i :: 0 <= i < |s| ==> IsKept(s[i])
  }

  /** What normalisation leaves of one character: its lower-case form with
      everything outside `[a-z0-9]` removed. */
  function NormalizeChar(c: char): (r: string)
    ensures AllKept(r) && |r| <= 1
  {
    if 'A' <= c <= 'Z' then [(c as int + 32) as char]
    else if IsKept(c) then [c]
    else if c == '\U{0130}' then ['i']
    else if c == '\U{212A}' then ['k']
    else []
  }

  /** `normalize_column_name`, computed character by character. */
  function NormalizeColumnName(name: string): (r: string)
    ensures AllKept(r)
    ensures |r| <= |name|
    decreases |name|
  {
    if name == [] then [] else NormalizeChar(name[0]) + NormalizeColumnName(name[1..])
  }

  lemma NormalizeCharIsLowerThenFilter(c: char)
    ensures NormalizeChar(c) == Filter(LowerChar(c), IsKept)
  {
    var l := LowerChar(c);
    if |l| == 1 {
      assert l[1..] == [];
    } else {
      assert l == ['i', '\U{0307}'];
      assert l[1..][1..] == [];
    }
  }

  /** The source's order of operations: lower-case the whole name, then drop
      every character outside `[a-z0-9]`. */
  lemma {:induction false} NormalizeIsLowerThenFilter(name: string)
    ensures NormalizeColumnName(name) == Filter(Lower(name), IsKept)
    decreases |name|
  {
    if name != [] {
      NormalizeIsLowerThenFilter(name[1..]);
      NormalizeCharIsLowerThenFilter(name[0]);
      FilterAppend(LowerChar(name[0]), Lower(name[1..]), IsKept);
    }
  }

  /** Normalising twice is normalising once. */
  lemma {:induction false} NormalizeIdempotent(name: string)
    ensures NormalizeColumnName(NormalizeColumnName(name)) == NormalizeColumnName(name)
  {
    var n := NormalizeColumnName(name);
    NormalizeKept(n);
  }

  lemma {:induction false} NormalizeKept(s: string)
    requires AllKept(s)
    ensures NormalizeColumnName(s) == s
    decreases |s|
  {
    if s != [] {
      NormalizeKept(s[1..]);
      assert s == [s[0]] + s[1..];
    }
  }

  /** Normalisation works character by character. */
  lemma {:induction false} NormalizeAppend(a: string, b: string)
    ensures NormalizeColumnName(a + b) == NormalizeColumnName(a) + NormalizeColumnName(b)
    decreases |a|
  {
    if a == [] {
      assert a + b == b;
    } else {
      assert (a + b)[0] == a[0];
      assert (a + b)[1..] == a[1..] + b;
      NormalizeAppend(a[1..], b);
    }
  }

  /** A capitalised word of kept characters normalises to its lower-case form. */
  lemma NormalizeCapitalised(c: char, rest: string)
    requires 'A' <= c <= 'Z' && AllKept(rest)
    ensures NormalizeColumnName([c] + rest) == [(c as int + 32) as char] + rest
  {
    assert ([c] + rest)[1..] == rest;
    NormalizeKept(rest);
  }

  /** Two capitalised words joined by a dropped separator normalise to the
      two lower-case words run together. */
  lemma NormalizeTwoWords(c1: char, r1: string, sep: char, c2: char, r2: string)
    requires 'A' <= c1 <= 'Z' && 'A' <= c2 <= 'Z' && AllKept(r1) && AllKept(r2)
    requires NormalizeChar(sep) == []
    ensures NormalizeColumnName([c1] + r1 + ([sep, c2] + r2))
         == [(c1 as int + 32) as char] + r1 + ([(c2 as int + 32) as char] + r2)
  {
    var second := [sep, c2] + r2;
    assert second == [sep] + ([c2] + r2);
    NormalizeAppend([c1] + r1, second);
    NormalizeCapitalised(c1, r1);
    NormalizeDropped(sep, [c2] + r2);
    NormalizeCapitalised(c2, r2);
  }

  /** A character that normalises to nothing leaves no trace. */
  lemma NormalizeDropped(c: char, rest: string)
    requires NormalizeChar(c) == []
    ensures NormalizeColumnName([c] + rest) == NormalizeColumnName(rest)
  {
    assert ([c] + rest)[1..] == rest;
  }

  /** Lower-casing happens before filtering, so capitals survive as small
      letters while punctuation disappears: "Txn-Date" normalises to
      "txndate". The name is written as the literals it is made of, joined. */
  lemma NormalizeExample()
    ensures NormalizeColumnName("T" + "xn" + ("-D" + "ate")) == "t" + "xn" + ("d" + "ate")
  {
    var r1, r2 := "xn", "ate";
    assert AllKept(r1) by {
      forall i | 0 <= i < |r1|
        ensures IsKept(r1[i])
      {
      }
    }
    assert AllKept(r2) by {
      forall i | 0 <= i < |r2|
        ensures IsKept(r2[i])
      {
      }
    }
    NormalizeTwoWords('T', r1, '-', 'D', r2);
  }

  // ---------------------------------------------------------------------
  // Patterns

  datatype StandardColumn = Date | Description | Amount | Category

  /** The schema's column names. */
  function Name(c: StandardColumn): string {
    match c
    case Date => "Date"
    case Description => "Description"
    case Amount => "Amount"
    case Category => "Category"
  }

  /** The order in which the pattern table is tried. */
  const StandardOrder: seq<StandardColumn> := [Date, Description, Amount, Category]

  function Rank(c: StandardColumn): (r: nat)
    ensures r < 4 && StandardOrder[r] == c
  {
    match c
    case Date => 0
    case Description => 1
    case Amount => 2
    case Category => 3
  }

  /** A search pattern: a literal, or `before.*after`. On a normalised name,
      which holds no line break, `.` matches every character. */
  datatype Pattern = Literal(text: string) | Gap(before: string, after: string)

  /** `re.search(pattern, s)` finds a match. */
  predicate Matches(p: Pattern, s: string) {
    match p
    case Literal(t) => Contains(s, t)
    case Gap(a, b) =>
      exists i, j :: 0 <= i && i + |a| <= j <= |s| && OccursAt(s, a, i) && OccursAt(s, b, j)
  }

  function Patterns(c: StandardColumn): seq<Pattern> {
    match c
    case Date =>
      [Literal("date"), Gap("txn", "date"), Literal("timestamp"), Literal("day"), Literal("time")]
    case Description =>
      [Literal("desc"), Literal("narrative"), Literal("particulars"), Literal("details"),
       Literal("memo"), Literal("transaction")]
    case Amount =>
      [Literal("amount"), Literal("amt"), Literal("debit"), Literal("credit"), Literal("value"),
       Literal("cost")]
    case Category => [Literal("category"), Literal("type"), Literal("class")]
  }

  /** Some pattern of the list finds a match. */
  predicate AnyMatch(pats: seq<Pattern>, s: string)
    decreases |pats|
  {
    pats != [] && (Matches(pats[0], s) || AnyMatch(pats[1..], s))
  }

  lemma {:induction false} AnyMatchIsSomeMatch(pats: seq<Pattern>, s: string)
    ensures AnyMatch(pats, s) <==> exists k :: 0 <= k < |pats| && Matches(pats[k], s)
    decreases |pats|
  {
    if pats != [] {
      AnyMatchIsSomeMatch(pats[1..], s);
      assert forall k :: 1 <= k < |pats| ==> pats[k] == pats[1..][k - 1];
    }
  }

  /** A match of `before.*after` is a match of `after`. */
  lemma GapMatchContainsAfter(a: string, b: string, s: string)
    requires Matches(Gap(a, b), s)
    ensures Contains(s, b)
  {
    var i, j :| 0 <= i && i + |a| <= j <= |s| && OccursAt(s, a, i) && OccursAt(s, b, j);
    ContainsWitness(s, b, j);
  }

  /** The one non-literal pattern, `txn.*date`, never decides anything: the
      Date patterns match exactly when one of the literals does. */
  lemma DatePatternsAreLiteral(s: string)
    ensures AnyMatch(Patterns(Date), s)
        <==> Contains(s, "date") || Contains(s, "timestamp") || Contains(s, "day") || Contains(s, "time")
  {
    var pats := Patterns(Date);
    if Matches(pats[1], s) {
      GapMatchContainsAfter("txn", "date", s);
    }
    AnyMatchIsSomeMatch(pats, s);
    if Contains(s, "date") { assert Matches(pats[0], s); }
    if Contains(s, "timestamp") { assert Matches(pats[2], s); }
    if Contains(s, "day") { assert Matches(pats[3], s); }
    if Contains(s, "time") { assert Matches(pats[4], s); }
  }

  // ---------------------------------------------------------------------
  // Greedy assignment

  /** `c` can still be given to a column named `name`: no column has claimed
      it and one of its patterns matches. */
  predicate Eligible(claimed: set<StandardColumn>, c: StandardColumn, name: string) {
    c !in claimed && AnyMatch(Patterns(c), name)
  }

  /** The first standard column, from position `s` of the fixed order on,
      that is eligible. */
  function ChooseFrom(claimed: set<StandardColumn>, name: string, s: nat): (r: Option<StandardColumn>)
    requires s <= 4
    ensures r.Some? ==> s <= Rank(r.value) && Eligible(claimed, r.value, name)
    ensures forall c :: s <= Rank(c) && (r.Some? ==> Rank(c) < Rank(r.value)) ==> !Eligible(claimed, c, name)
    decreases 4 - s
  {
    if s == 4 then None
    else if Eligible(claimed, StandardOrder[s], name) then Some(StandardOrder[s])
    else ChooseFrom(claimed, name, s + 1)
  }

  /** The standard column a normalised name is given, if any: the first one
      in the order Date, Description, Amount, Category that is unclaimed and
      has a matching pattern. */
  function ChooseStandard(claimed: set<StandardColumn>, name: string): (r: Option<StandardColumn>)
    ensures r.Some? ==> Eligible(claimed, r.value, name)
    ensures r.Some? ==> forall c :: Rank(c) < Rank(r.value) ==> !Eligible(claimed, c, name)
    ensures r.None? <==> forall c :: !Eligible(claimed, c, name)
  {
    ChooseFrom(claimed, name, 0)
  }

  /** One pass of the outer loop: the column either claims a standard column
      or is left alone. */
  function Step(m: seq<(string, StandardColumn)>, col: string): seq<(string, StandardColumn)> {
    var c := ChooseStandard(Values(m), NormalizeColumnName(col));
    if c.None? then m else DictSet(m, col, c.value)
  }

  /** `column_mapping` after the columns have been scanned in order.
      `reverse_mapping` is written with the same key and value at the same
      moment, so its values are the values of this mapping. */
  function MappingOf(columns: seq<string>): seq<(string, StandardColumn)>
    decreases |columns|
  {
    if columns == [] then []
    else Step(MappingOf(columns[..|columns| - 1]), columns[|columns| - 1])
  }

  /** `df.rename(columns=column_mapping)` on the column names: a mapped
      column takes its standard name, every other column keeps its own. */
  function Rename(columns: seq<string>, mapping: seq<(string, StandardColumn)>): (r: seq<string>)
    ensures |r| == |columns|
    ensures forall i :: 0 <= i < |columns| && Lookup(mapping, columns[i]).None? ==> r[i] == columns[i]
    ensures forall i :: 0 <= i < |columns| && Lookup(mapping, columns[i]).Some? ==>
      r[i] == Name(Lookup(mapping, columns[i]).value)
  {
    seq(|columns|, i requires 0 <= i < |columns| =>
      match Lookup(mapping, columns[i])
      case None => columns[i]
      case Some(c) => Name(c))
  }

  /** The loop over one standard column's patterns: stops at the first one
      that matches. */
  method SearchPatterns(patterns: seq<Pattern>, name: string) returns (matched: bool)
    ensures matched == AnyMatch(patterns, name)
  {
    matched := false;
    var p := 0;
    while p < |patterns| && !matched
      invariant 0 <= p <= |patterns|
      invariant matched || AnyMatch(patterns, name) == AnyMatch(patterns[p..], name)
      invariant matched ==> AnyMatch(patterns, name)
      decreases |patterns| - p
    {
      assert patterns[p..][1..] == patterns[p + 1..];
      if Matches(patterns[p], name) {
        matched := true;
      }
      p := p + 1;
    }
  }

  /** One pass of the outer loop: tries the standard columns in order,
      skipping those already claimed, and records the first whose patterns
      match. */
  method ClaimColumn(mapping: seq<(string, StandardColumn)>, col: string) returns (updated: seq<(string, StandardColumn)>)
    ensures updated == Step(mapping, col)
  {
    var normalized := NormalizeColumnName(col);
    var claimed := Values(mapping);
    updated := mapping;
    var matched := false;
    var s := 0;
    while s < |StandardOrder| && !matched
      invariant 0 <= s <= 4
      invariant !matched ==>
        (updated == mapping && ChooseStandard(claimed, normalized) == ChooseFrom(claimed, normalized, s))
      invariant matched ==> updated == Step(mapping, col)
      decreases 4 - s
    {
      var standard := StandardOrder[s];
      if standard !in claimed {
        matched := SearchPatterns(Patterns(standard), normalized);
        if matched {
          updated := DictSet(mapping, col, standard);
        }
      }
      s := s + 1;
    }
  }

  /** `standardize_columns` on a table's column names: scans the columns in
      order, lets each claim at most one standard column, and returns the
      renamed column names and `column_mapping`. */
  method StandardizeColumns(columns: seq<string>) returns (renamed: seq<string>, mapping: seq<(string, StandardColumn)>)
    ensures mapping == MappingOf(columns)
    ensures renamed == Rename(columns, mapping)
  {
    mapping := [];
    for i := 0 to |columns|
      invariant mapping == MappingOf(columns[..i])
    {
      mapping := ClaimColumn(mapping, columns[i]);
      assert columns[..i + 1][..i] == columns[..i];
    }
    assert columns[..|columns|] == columns;
    renamed := Rename(columns, mapping);
  }

  // ---------------------------------------------------------------------
  // What the mapping satisfies

  /** A claim of `e.1` by the column named `e.0` is backed by one of its patterns. */
  predicate Claims(e: (string, StandardColumn)) {
    AnyMatch(Patterns(e.1), NormalizeColumnName(e.0))
  }

  /** Every claim is justified by a matching pattern. */
  predicate Justified(m: seq<(string, StandardColumn)>) {
    forall i :: 0 <= i < |m| ==> Claims(m[i])
  }

  lemma StepDistinctValues(m: seq<(string, StandardColumn)>, col: string)
    requires DistinctKeys(m) && DistinctValues(m)
    ensures DistinctKeys(Step(m, col)) && DistinctValues(Step(m, col))
  {
    var c := ChooseStandard(Values(m), NormalizeColumnName(col));
    if c.Some? {
      DictSetDistinct(m, col, c.value);
      DictSetDistinctValues(m, col, c.value);
    }
  }

  /** Storing a justified claim keeps the mapping justified. */
  lemma SetJustified(m: seq<(string, StandardColumn)>, col: string, c: StandardColumn)
    requires DistinctKeys(m) && Justified(m) && Claims((col, c))
    ensures Justified(DictSet(m, col, c))
  {
    DictSetPreserves(m, col, c, Claims);
  }

  lemma StepJustified(m: seq<(string, StandardColumn)>, col: string)
    requires DistinctKeys(m) && Justified(m)
    ensures Justified(Step(m, col))
  {
    var c := ChooseStandard(Values(m), NormalizeColumnName(col));
    if c.Some? {
      SetJustified(m, col, c.value);
    }
  }

  /** A step keeps every other entry where it was. */
  lemma StepKeys(m: seq<(string, StandardColumn)>, col: string)
    ensures forall i :: 0 <= i < |Step(m, col)| ==>
      Step(m, col)[i].0 == col || (i < |m| && Step(m, col)[i].0 == m[i].0)
  {
  }

  lemma {:induction false} MappingDistinct(columns: seq<string>)
    ensures DistinctKeys(MappingOf(columns)) && DistinctValues(MappingOf(columns))
    decreases |columns|
  {
    if columns != [] {
      var init := columns[..|columns| - 1];
      MappingDistinct(init);
      StepDistinctValues(MappingOf(init), columns[|columns| - 1]);
    }
  }

  lemma {:induction false} MappingKeys(columns: seq<string>)
    ensures forall i :: 0 <= i < |MappingOf(columns)| ==> MappingOf(columns)[i].0 in columns
    decreases |columns|
  {
    if columns != [] {
      var init, last := columns[..|columns| - 1], columns[|columns| - 1];
      MappingKeys(init);
      assert columns == init + [last];
      StepKeys(MappingOf(init), last);
    }
  }

  lemma {:induction false} MappingJustified(columns: seq<string>)
    ensures Justified(MappingOf(columns))
    decreases |columns|
  {
    if columns != [] {
      var init := columns[..|columns| - 1];
      MappingJustified(init);
      MappingDistinct(init);
      StepJustified(MappingOf(init), columns[|columns| - 1]);
    }
  }

  /** Every original column maps to at most one standard column, every
      standard column is claimed by at most one original column, every key is
      an original column and every claim is justified by a matching pattern. */
  lemma MappingWellFormed(columns: seq<string>)
    ensures var m := MappingOf(columns);
      && DistinctKeys(m)
      && DistinctValues(m)
      && (forall i :: 0 <= i < |m| ==> m[i].0 in columns)
      && Justified(m)
  {
    MappingDistinct(columns);
    MappingKeys(columns);
    MappingJustified(columns);
  }

  /** No column name occurs twice. */
  predicate DistinctNames(columns: seq<string>) {
    forall i, j :: 0 <= i < j < |columns| ==> columns[i] != columns[j]
  }

  /** The standard columns claimed by the first `i` columns. */
  function EarlierClaims(columns: seq<string>, m: seq<(string, StandardColumn)>, i: nat): set<StandardColumn>
    requires i <= |columns|
  {
    set j | 0 <= j < i && Lookup(m, columns[j]).Some? :: Lookup(m, columns[j]).value
  }

  lemma EarlierClaimsAgree(c1: seq<string>, m1: seq<(string, StandardColumn)>,
                           c2: seq<string>, m2: seq<(string, StandardColumn)>, i: nat)
    requires i <= |c1| && i <= |c2|
    requires forall j :: 0 <= j < i ==> Lookup(m1, c1[j]) == Lookup(m2, c2[j])
    ensures EarlierClaims(c1, m1, i) == EarlierClaims(c2, m2, i)
  {
    forall v | v in EarlierClaims(c1, m1, i)
      ensures v in EarlierClaims(c2, m2, i)
    {
      var j :| 0 <= j < i && Lookup(m1, c1[j]).Some? && Lookup(m1, c1[j]).value == v;
      assert Lookup(m2, c2[j]).Some? && Lookup(m2, c2[j]).value == v;
    }
    forall v | v in EarlierClaims(c2, m2, i)
      ensures v in EarlierClaims(c1, m1, i)
    {
      var j :| 0 <= j < i && Lookup(m2, c2[j]).Some? && Lookup(m2, c2[j]).value == v;
      assert Lookup(m1, c1[j]).Some? && Lookup(m1, c1[j]).value == v;
    }
  }

  /** The values of a mapping built from some columns are the standard
      columns those columns look up. */
  lemma ValuesAreClaims(columns: seq<string>)
    ensures Values(MappingOf(columns)) == EarlierClaims(columns, MappingOf(columns), |columns|)
  {
    var m := MappingOf(columns);
    MappingWellFormed(columns);
    forall v | v in Values(m)
      ensures v in EarlierClaims(columns, m, |columns|)
    {
      var p :| 0 <= p < |m| && m[p].1 == v;
      var j :| 0 <= j < |columns| && columns[j] == m[p].0;
      LookupDistinct(m, p);
    }
  }

  /** Column `i` got what the greedy rule gives it. */
  predicate GreedyAt(columns: seq<string>, m: seq<(string, StandardColumn)>, i: nat)
    requires i < |columns|
  {
    Lookup(m, columns[i]) == ChooseStandard(EarlierClaims(columns, m, i), NormalizeColumnName(columns[i]))
  }

  /** Scanning one more column leaves the earlier columns' entries and claims
      as they were. */
  lemma GreedyKeepsEarlier(init: seq<string>, last: string, i: nat)
    requires DistinctNames(init + [last]) && i < |init|
    requires GreedyAt(init, MappingOf(init), i)
    ensures GreedyAt(init + [last], MappingOf(init + [last]), i)
  {
    var columns := init + [last];
    assert columns[..|columns| - 1] == init;
    var before := MappingOf(init);
    var m := MappingOf(columns);
    assert m == Step(before, last);
    forall j | 0 <= j < |init|
      ensures Lookup(m, columns[j]) == Lookup(before, init[j])
    {
      assert columns[j] == init[j] && init[j] != last;
      StepLookupOther(before, last, init[j]);
    }
    EarlierClaimsAgree(columns, m, init, before, i);
  }

  /** A column not among the scanned ones has no entry yet. */
  lemma NewColumnUnmapped(init: seq<string>, last: string)
    requires last !in init
    ensures Lookup(MappingOf(init), last).None?
  {
    var before := MappingOf(init);
    MappingWellFormed(init);
    forall p | 0 <= p < |before|
      ensures before[p].0 != last
    {
    }
  }

  lemma StepLookupOther(m: seq<(string, StandardColumn)>, col: string, k: string)
    requires k != col
    ensures Lookup(Step(m, col), k) == Lookup(m, k)
  {
    var c := ChooseStandard(Values(m), NormalizeColumnName(col));
    if c.Some? {
      DictSetLookup(m, col, c.value);
    }
  }

  lemma StepLookupNew(m: seq<(string, StandardColumn)>, col: string)
    requires Lookup(m, col).None?
    ensures Lookup(Step(m, col), col) == ChooseStandard(Values(m), NormalizeColumnName(col))
  {
    var c := ChooseStandard(Values(m), NormalizeColumnName(col));
    if c.Some? {
      DictSetLookup(m, col, c.value);
    }
  }

  /** The newly scanned column is judged against the claims made so far. */
  lemma GreedyLast(init: seq<string>, last: string)
    requires DistinctNames(init + [last])
    ensures GreedyAt(init + [last], MappingOf(init + [last]), |init|)
  {
    var columns := init + [last];
    assert columns[..|columns| - 1] == init;
    var before := MappingOf(init);
    var m := MappingOf(columns);
    assert m == Step(before, last);
    forall j | 0 <= j < |init|
      ensures Lookup(m, columns[j]) == Lookup(before, init[j])
    {
      assert columns[j] == init[j] && init[j] != last;
      StepLookupOther(before, last, init[j]);
    }
    EarlierClaimsAgree(columns, m, init, before, |init|);
    ValuesAreClaims(init);
    NewColumnUnmapped(init, last);
    StepLookupNew(before, last);
  }

  /** The greedy rule: with distinct column names, each column is given the
      first standard column, in the order Date, Description, Amount,
      Category, that no earlier column has claimed and whose patterns match
      its normalised name; it is given none when there is no such column. */
  lemma {:induction false} GreedyAssignment(columns: seq<string>)
    requires DistinctNames(columns)
    ensures forall i :: 0 <= i < |columns| ==> GreedyAt(columns, MappingOf(columns), i)
    decreases |columns|
  {
    if columns != [] {
      var n := |columns|;
      var init, last := columns[..n - 1], columns[n - 1];
      assert columns == init + [last];
      GreedyAssignment(init);
      forall i | 0 <= i < n
        ensures GreedyAt(columns, MappingOf(columns), i)
      {
        if i < n - 1 {
          GreedyKeepsEarlier(init, last, i);
        } else {
          GreedyLast(init, last);
        }
      }
    }
  }

  /** With distinct column names no standard column is claimed twice. */
  lemma SingleClaimant(columns: seq<string>, i: nat, j: nat, c: StandardColumn)
    requires DistinctNames(columns) && i < |columns| && j < |columns| && i != j
    requires Lookup(MappingOf(columns), columns[i]) == Some(c)
    ensures Lookup(MappingOf(columns), columns[j]) != Some(c)
  {
    MappingWellFormed(columns);
  }

  /** A standard column held by a later column is not among the claims of
      the columns before an earlier one. */
  lemma NotClaimedEarlier(columns: seq<string>, i: nat, j: nat, c: StandardColumn)
    requires DistinctNames(columns) && j < i < |columns|
    requires Lookup(MappingOf(columns), columns[i]) == Some(c)
    ensures c !in EarlierClaims(columns, MappingOf(columns), j)
  {
    forall k | 0 <= k < j
      ensures Lookup(MappingOf(columns), columns[k]) != Some(c)
    {
      SingleClaimant(columns, i, k, c);
    }
  }

  /** The greedy choice is never later in the order than an eligible column. */
  lemma ChooseNoLater(claimed: set<StandardColumn>, name: string, c: StandardColumn)
    requires Eligible(claimed, c, name)
    ensures ChooseStandard(claimed, name).Some?
    ensures Rank(ChooseStandard(claimed, name).value) <= Rank(c)
  {
  }

  lemma EarlierColumnRanked(columns: seq<string>, i: nat, j: nat, c: StandardColumn)
    requires DistinctNames(columns) && j < i < |columns|
    requires Lookup(MappingOf(columns), columns[i]) == Some(c)
    requires GreedyAt(columns, MappingOf(columns), j)
    requires AnyMatch(Patterns(c), NormalizeColumnName(columns[j]))
    ensures Lookup(MappingOf(columns), columns[j]).Some?
    ensures Rank(Lookup(MappingOf(columns), columns[j]).value) < Rank(c)
  {
    var m := MappingOf(columns);
    var claims := EarlierClaims(columns, m, j);
    NotClaimedEarlier(columns, i, j, c);
    ChooseNoLater(claims, NormalizeColumnName(columns[j]), c);
    SingleClaimant(columns, i, j, c);
  }

  /** Each standard column goes to the earliest column it can: every earlier
      column either does not match it or was given a standard column tried
      before it. The claim itself rests on a matching pattern. */
  lemma EarliestClaimant(columns: seq<string>, i: nat, c: StandardColumn)
    requires DistinctNames(columns) && i < |columns|
    requires Lookup(MappingOf(columns), columns[i]) == Some(c)
    ensures AnyMatch(Patterns(c), NormalizeColumnName(columns[i]))
    ensures forall j :: 0 <= j < i ==>
      !AnyMatch(Patterns(c), NormalizeColumnName(columns[j]))
      || (Lookup(MappingOf(columns), columns[j]).Some?
          && Rank(Lookup(MappingOf(columns), columns[j]).value) < Rank(c))
  {
    var m := MappingOf(columns);
    GreedyAssignment(columns);
    assert GreedyAt(columns, m, i);
    forall j | 0 <= j < i && AnyMatch(Patterns(c), NormalizeColumnName(columns[j]))
      ensures Lookup(m, columns[j]).Some? && Rank(Lookup(m, columns[j]).value) < Rank(c)
    {
      EarlierColumnRanked(columns, i, j, c);
    }
  }

  // ---------------------------------------------------------------------
  // Validation

  /** `UnifiedTransaction.REQUIRED_COLUMNS`. */
  const RequiredColumns: seq<StandardColumn> := [Date, Amount]

  function AbsentFrom(columns: seq<string>): string -> bool {
    name => name !in columns
  }

  /** The required column names that are not among `columns`, in the order
      of the required list. */
  function MissingRequired(columns: seq<string>): seq<string> {
    Filter(MapSeq(Name, RequiredColumns), AbsentFrom(columns))
  }

  /** `validate_standardized_data` on the column names of a table. */
  method ValidateStandardizedData(columns: seq<string>) returns (missing: seq<string>)
    ensures missing == MissingRequired(columns)
  {
    var required := MapSeq(Name, RequiredColumns);
    missing := [];
    for k := 0 to |required|
      invariant missing == Filter(required[..k], AbsentFrom(columns))
    {
      var col := required[k];
      assert required[..k + 1] == required[..k] + [col];
      FilterAppend(required[..k], [col], AbsentFrom(columns));
      if col !in columns {
        missing := missing + [col];
      }
    }
    assert required[..|required|] == required;
  }

  /** "Date" is reported first when missing, then "Amount"; nothing is
      reported exactly when both are present. */
  lemma MissingRequiredCases(columns: seq<string>)
    ensures MissingRequired(columns)
         == (if "Date" in columns then [] else ["Date"]) + (if "Amount" in columns then [] else ["Amount"])
    ensures MissingRequired(columns) == [] <==> "Date" in columns && "Amount" in columns
  {
    var required := MapSeq(Name, RequiredColumns);
    assert required == ["Date"] + ["Amount"];
    FilterAppend(["Date"], ["Amount"], AbsentFrom(columns));
    assert ["Date"][1..] == [] && ["Amount"][1..] == [];
  }

  lemma NameInjective(a: StandardColumn, b: StandardColumn)
    requires Name(a) == Name(b)
    ensures a == b
  {
    assert Name(a)[0] == Name(b)[0];
  }

  lemma ClaimedNamePresent(columns: seq<string>, c: StandardColumn)
    requires c in Values(MappingOf(columns))
    ensures Name(c) in Rename(columns, MappingOf(columns))
  {
    var m := MappingOf(columns);
    MappingWellFormed(columns);
    var p :| 0 <= p < |m| && m[p].1 == c;
    var i :| 0 <= i < |columns| && columns[i] == m[p].0;
    LookupDistinct(m, p);
    assert Rename(columns, m)[i] == Name(c);
  }

  lemma PresentNameSource(columns: seq<string>, c: StandardColumn, i: nat)
    requires i < |columns| && Rename(columns, MappingOf(columns))[i] == Name(c)
    ensures c in Values(MappingOf(columns)) || (columns[i] == Name(c) && Lookup(MappingOf(columns), columns[i]).None?)
  {
    var m := MappingOf(columns);
    if Lookup(m, columns[i]).Some? {
      var v := Lookup(m, columns[i]).value;
      NameInjective(v, c);
      var p :| 0 <= p < |m| && m[p] == (columns[i], v);
    }
  }

  /** After standardisation a standard name is present exactly when some
      column claimed it or an unmapped column already carried that name. */
  lemma StandardNamePresent(columns: seq<string>, c: StandardColumn)
    ensures var m := MappingOf(columns);
      (Name(c) in Rename(columns, m))
        <==> (c in Values(m) || exists i :: 0 <= i < |columns| && columns[i] == Name(c) && Lookup(m, columns[i]).None?)
  {
    var m := MappingOf(columns);
    var renamed := Rename(columns, m);
    if Name(c) in renamed {
      var i :| 0 <= i < |renamed| && renamed[i] == Name(c);
      PresentNameSource(columns, c, i);
    }
    if c in Values(m) {
      ClaimedNamePresent(columns, c);
    }
  }

  // ---------------------------------------------------------------------
  // Examples

  /** Names without a 'd' or an 'e' match no Date pattern. */
  lemma NoDateMatch(s: string)
    requires 'd' !in s && 'e' !in s
    ensures !AnyMatch(Patterns(Date), s)
  {
    DatePatternsAreLiteral(s);
    NotContainsWithoutChar(s, "date", 0);
    NotContainsWithoutChar(s, "timestamp", 3);
    NotContainsWithoutChar(s, "day", 0);
    NotContainsWithoutChar(s, "time", 3);
  }

  /** Names without an 's', 'n', 'r', 'i' or 'm' match no Description pattern. */
  lemma NoDescriptionMatch(s: string)
    requires 's' !in s && 'n' !in s && 'r' !in s && 'i' !in s && 'm' !in s
    ensures !AnyMatch(Patterns(Description), s)
  {
    var pats := Patterns(Description);
    AnyMatchIsSomeMatch(pats, s);
    NotContainsWithoutChar(s, pats[0].text, 2);
    NotContainsWithoutChar(s, pats[1].text, 0);
    NotContainsWithoutChar(s, pats[2].text, 2);
    NotContainsWithoutChar(s, pats[3].text, 4);
    NotContainsWithoutChar(s, pats[4].text, 0);
    NotContainsWithoutChar(s, pats[5].text, 1);
  }

  /** Names without an 'm', 'b', 'c' or 'v' match no Amount pattern. */
  lemma NoAmountMatch(s: string)
    requires 'm' !in s && 'b' !in s && 'c' !in s && 'v' !in s
    ensures !AnyMatch(Patterns(Amount), s)
  {
    var pats := Patterns(Amount);
    AnyMatchIsSomeMatch(pats, s);
    NotContainsWithoutChar(s, pats[0].text, 1);
    NotContainsWithoutChar(s, pats[1].text, 1);
    NotContainsWithoutChar(s, pats[2].text, 2);
    NotContainsWithoutChar(s, pats[3].text, 0);
    NotContainsWithoutChar(s, pats[4].text, 0);
    NotContainsWithoutChar(s, pats[5].text, 0);
  }

  /** A pattern occurring in a name makes its list match. */
  lemma PatternOccurs(pats: seq<Pattern>, k: nat, s: string, i: nat)
    requires k < |pats| && pats[k].Literal? && OccursAt(s, pats[k].text, i)
    ensures AnyMatch(pats, s)
  {
    AnyMatchIsSomeMatch(pats, s);
    ContainsWitness(s, pats[k].text, i);
    assert Matches(pats[k], s);
  }

  lemma SingleColumn(col: string)
    ensures MappingOf([col]) == Step([], col)
  {
    assert [col][..0] == [];
  }

  /** "Transaction Amount" normalises to "transactionamount". */
  lemma NormalizeTransactionAmount()
    ensures NormalizeColumnName("T" + "ransaction" + (" A" + "mount")) == "t" + "ransaction" + ("a" + "mount")
  {
    var r1, r2 := "ransaction", "mount";
    assert AllKept(r1) by {
      forall i | 0 <= i < |r1|
        ensures IsKept(r1[i])
      {
      }
    }
    assert AllKept(r2) by {
      forall i | 0 <= i < |r2|
        ensures IsKept(r2[i])
      {
      }
    }
    NormalizeTwoWords('T', r1, ' ', 'A', r2);
  }

  lemma TransactionAmountFacts(s: string)
    requires s == "t" + "ransaction" + ("a" + "mount")
    ensures 'd' !in s && 'e' !in s
    ensures OccursAt(s, "transaction", 0)
  {
    var r1 := "ransaction";
    assert 'd' !in r1 && 'e' !in r1 by {
      forall i | 0 <= i < |r1|
        ensures r1[i] != 'd' && r1[i] != 'e'
      {
      }
    }
    assert s[..11] == "t" + r1;
    assert "t" + r1 == "transaction";
  }

  /** "Transaction Amount" is taken for a Description column: the
      Description pattern "transaction" is tried before the Amount pattern
      "amount", and no Date pattern matches. The name is written as the
      literals it is made of, joined. */
  lemma TransactionAmountIsDescription()
    ensures var col := "T" + "ransaction" + (" A" + "mount");
      MappingOf([col]) == [(col, Description)]
  {
    var col := "T" + "ransaction" + (" A" + "mount");
    NormalizeTransactionAmount();
    var s := NormalizeColumnName(col);
    TransactionAmountFacts(s);
    NoDateMatch(s);
    PatternOccurs(Patterns(Description), 5, s, 0);
    assert ChooseStandard({}, s) == Some(Description);
    SingleColumn(col);
  }

  lemma DatetypeFacts(s: string)
    requires s == "date" + "type"
    ensures NormalizeColumnName(s) == s
    ensures OccursAt(s, "date", 0) && OccursAt(s, "type", 4)
    ensures 's' !in s && 'n' !in s && 'r' !in s && 'i' !in s && 'm' !in s
    ensures 'b' !in s && 'c' !in s && 'v' !in s
  {
    DatetypeNormal(s);
    DatetypeLetters(s);
    assert s[..4] == "date" && s[4..] == "type";
  }

  lemma DatetypeNormal(s: string)
    requires s == "date" + "type"
    ensures NormalizeColumnName(s) == s
  {
    assert AllKept(s) by {
      forall i | 0 <= i < |s|
        ensures IsKept(s[i])
      {
      }
    }
    NormalizeKept(s);
  }

  lemma DatetypeLetters(s: string)
    requires s == "date" + "type"
    ensures forall c :: c in s ==> c in {'d', 'a', 't', 'e', 'y', 'p'}
  {
    forall i | 0 <= i < |s|
      ensures s[i] in {'d', 'a', 't', 'e', 'y', 'p'}
    {
    }
  }

  lemma DatetypeFirst(col: string)
    requires col == "date" + "type"
    ensures MappingOf([col]) == [(col, Date)]
  {
    DatetypeFacts(col);
    PatternOccurs(Patterns(Date), 0, col, 0);
    assert ChooseStandard({}, col) == Some(Date);
    SingleColumn(col);
  }

  lemma DatetypeSecond(col: string)
    requires col == "date" + "type"
    ensures ChooseStandard({Date}, NormalizeColumnName(col)) == Some(Category)
  {
    DatetypeFacts(col);
    NoDescriptionMatch(col);
    NoAmountMatch(col);
    PatternOccurs(Patterns(Category), 1, col, 4);
    SecondChoiceCategory(col);
  }

  /** With Date taken, a name matching neither Description nor Amount but
      Category gets Category. */
  lemma SecondChoiceCategory(name: string)
    requires !AnyMatch(Patterns(Description), name) && !AnyMatch(Patterns(Amount), name)
    requires AnyMatch(Patterns(Category), name)
    ensures ChooseStandard({Date}, name) == Some(Category)
  {
  }

  /** A column name seen a second time overwrites its own first entry. */
  lemma RepeatOverwrites(col: string, first: StandardColumn, second: StandardColumn)
    requires MappingOf([col]) == [(col, first)]
    requires ChooseStandard({first}, NormalizeColumnName(col)) == Some(second)
    ensures MappingOf([col, col]) == [(col, second)]
  {
    assert [col, col][..1] == [col];
    ValuesSingle(col, first);
    DictSetSingle(col, first, second);
  }

  /** A repeated column name loses its first claim: the second occurrence of
      "datetype" cannot take Date (already claimed), takes Category through
      "type", and the shared key is overwritten, so no column ends up as
      Date. */
  lemma RepeatedNameLosesDate()
    ensures var col := "date" + "type";
      && MappingOf([col, col]) == [(col, Category)]
      && Date !in Values(MappingOf([col, col]))
  {
    var col := "date" + "type";
    DatetypeFirst(col);
    DatetypeSecond(col);
    RepeatOverwrites(col, Date, Category);
    ValuesSingle(col, Category);
  }
}

/**
 * Post-processing of InterProScan domain hits before plotting (pdpbiogen.py):
 * the database filter, the minimum-length filter, grouping of repeated
 * neighbouring domains, the default plot height, the colour assignment and
 * the name of the CSV written next to the HTML plot.
 */
module DomainPlot {
  import opened Wrappers
  import opened Text

  /** One row of the InterProScan TSV, with `start` and `end` already converted to integers. */
  datatype Domain = Domain(
    protein: string, md5: string, length: string, database: string, name: string,
    accession: string, start: int, end: int, evalue: string, date: string, description: string)

  // ------------------------------------------------------------ filtering

  /** A boolean-mask selection: the rows that pass, in their original order. */
  function Filter<T>(xs: seq<T>, keep: T -> bool): (r: seq<T>)
    ensures |r| <= |xs|
    ensures forall i :: 0 <= i < |r| ==> keep(r[i])
  {
    if xs == [] then [] else (if keep(xs[0]) then [xs[0]] else []) + Filter(xs[1..], keep)
  }

  /** `ys` is `xs` with some elements left out. */
  ghost predicate IsSubsequence<T>(ys: seq<T>, xs: seq<T>)
    decreases |xs|
  {
    ys == [] || (xs != [] && if ys[0] == xs[0] then IsSubsequence(ys[1..], xs[1..]) else IsSubsequence(ys, xs[1..]))
  }

  /**
   * The selection keeps the input order and keeps every passing row as
   * often as it occurs, and no other row.
   */
  lemma {:induction false} FilterExact<T>(xs: seq<T>, keep: T -> bool)
    ensures IsSubsequence(Filter(xs, keep), xs)
    ensures forall x :: multiset(Filter(xs, keep))[x] == if keep(x) then multiset(xs)[x] else 0
  {
    if xs != [] {
      var rest := Filter(xs[1..], keep);
      FilterExact(xs[1..], keep);
      assert xs == [xs[0]] + xs[1..];
      assert multiset(xs) == multiset{xs[0]} + multiset(xs[1..]);
      if keep(xs[0]) {
        assert Filter(xs, keep) == [xs[0]] + rest;
        assert Filter(xs, keep)[1..] == rest;
      } else {
        assert Filter(xs, keep) == rest;
        assert rest != [] ==> rest[0] != xs[0];
      }
    }
  }

  /** The member databases whose hits are domains. */
  const DomainDatabases: seq<string> := ["Pfam", "SMART", "PROSITE", "PANTHER", "CDD", "TIGRFAM"]

  predicate FromDomainDatabase(d: Domain) {
    d.database in DomainDatabases
  }

  /** The `isin(domain_databases)` selection of `parse_interpro_output`. */
  function KeepDomainDatabases(rows: seq<Domain>): seq<Domain> {
    Filter(rows, FromDomainDatabase)
  }

  /** Exactly the rows from the six domain databases survive, in order. */
  lemma KeepDomainDatabasesExact(rows: seq<Domain>)
    ensures IsSubsequence(KeepDomainDatabases(rows), rows)
    ensures forall d :: multiset(KeepDomainDatabases(rows))[d] ==
                         if d.database in DomainDatabases then multiset(rows)[d] else 0
  {
    FilterExact(rows, FromDomainDatabase);
  }

  /** The minimum-length step of `filter_domains`. */
  function FilterByLength(rows: seq<Domain>, minLength: int): seq<Domain> {
    if minLength > 0 then Filter(rows, (d: Domain) => d.end - d.start >= minLength) else rows
  }

  /**
   * With a positive minimum exactly the rows spanning at least that many
   * residues survive, in order; otherwise nothing is removed.
   */
  lemma FilterByLengthExact(rows: seq<Domain>, minLength: int)
    ensures minLength <= 0 ==> FilterByLength(rows, minLength) == rows
    ensures IsSubsequence(FilterByLength(rows, minLength), rows)
    ensures minLength > 0 ==>
              forall d :: multiset(FilterByLength(rows, minLength))[d] ==
                          if d.end - d.start >= minLength then multiset(rows)[d] else 0
  {
    if minLength > 0 {
      FilterExact(rows, (d: Domain) => d.end - d.start >= minLength);
    } else {
      SubsequenceReflexive(rows);
    }
  }

  lemma {:induction false} SubsequenceReflexive<T>(xs: seq<T>)
    ensures IsSubsequence(xs, xs)
  {
    if xs != [] {
      SubsequenceReflexive(xs[1..]);
    }
  }

  // -------------------------------------------------------------- sorting

  ghost predicate SortedByStart(s: seq<Domain>) {
    forall i, j :: 0 <= i < j < |s| ==> s[i].start <= s[j].start
  }

  /** Inserts `x` after every row that does not start later than it. */
  function InsertByStart(x: Domain, s: seq<Domain>): (r: seq<Domain>)
    requires SortedByStart(s)
    ensures SortedByStart(r)
    ensures multiset(r) == multiset(s) + multiset{x}
  {
    if s == [] then [x]
    else if x.start < s[0].start then [x] + s
    else
      var rest := InsertByStart(x, s[1..]);
      StartsFrom(x, s, rest);
      PrependSorted(s[0], rest);
      assert s == [s[0]] + s[1..];
      [s[0]] + rest
  }

  /** What is inserted behind the first row of a sorted list starts no earlier than that row. */
  lemma StartsFrom(x: Domain, s: seq<Domain>, rest: seq<Domain>)
    requires s != [] && SortedByStart(s) && s[0].start <= x.start
    requires multiset(rest) == multiset(s[1..]) + multiset{x}
    ensures forall i :: 0 <= i < |rest| ==> s[0].start <= rest[i].start
  {
    forall i | 0 <= i < |rest|
      ensures s[0].start <= rest[i].start
    {
      assert rest[i] in multiset(rest);
      if rest[i] != x {
        assert rest[i] in multiset(s[1..]);
        var k :| 0 <= k < |s[1..]| && s[1..][k] == rest[i];
        assert s[k + 1] == rest[i];
      }
    }
  }

  /** A row starting no later than every row of a sorted list can go in front of it. */
  lemma PrependSorted(h: Domain, t: seq<Domain>)
    requires SortedByStart(t) && forall i :: 0 <= i < |t| ==> h.start <= t[i].start
    ensures SortedByStart([h] + t)
  {
    var r := [h] + t;
    forall i, j | 0 <= i < j < |r|
      ensures r[i].start <= r[j].start
    {
      assert r[j] == t[j - 1];
      if i > 0 {
        assert r[i] == t[i - 1];
      }
    }
  }

  /**
   * `sort_values('start')`, as a stable sort. (The pandas default is an
   * unstable quicksort, so the order of rows with equal starts is not
   * fixed by the source; every property below holds for any sorted
   * permutation.)
   */
  function SortByStart(xs: seq<Domain>): (r: seq<Domain>)
    ensures SortedByStart(r)
    ensures multiset(r) == multiset(xs)
  {
    if xs == [] then []
    else
      var init := xs[..|xs| - 1];
      assert xs == init + [xs[|xs| - 1]];
      InsertByStart(xs[|xs| - 1], SortByStart(init))
  }

  // ------------------------------------------------------------- grouping

  /** Rows closer than this (start minus the previous row's end) may be grouped. */
  const MaxGap := 50

  /** Row `j` extends the run that starts at row `i`. */
  predicate Continues(s: seq<Domain>, i: nat, j: nat)
    requires i < |s| && 0 < j < |s|
  {
    s[j].name == s[i].name && s[j].start - s[j - 1].end < MaxGap
  }

  /** The end (exclusive) of the run starting at `i`, scanning on from `j`: runs are maximal. */
  function RunEnd(s: seq<Domain>, i: nat, j: nat): (k: nat)
    requires i < j <= |s|
    ensures j <= k <= |s|
    ensures forall m :: j <= m < k ==> Continues(s, i, m)
    ensures k == |s| || !Continues(s, i, k)
    decreases |s| - j
  {
    if j < |s| && Continues(s, i, j) then RunEnd(s, i, j + 1) else j
  }

  /** The row emitted for the run `s[i..k]`. */
  function Merge(s: seq<Domain>, i: nat, k: nat): Domain
    requires i < k <= |s|
  {
    if k - i > 1 then s[i].(end := s[k - 1].end, name := s[i].name + " (x" + NatToString(k - i) + ")")
    else s[i]
  }

  /** The rows emitted for the runs starting at `i`. */
  function Grouped(s: seq<Domain>, i: nat): seq<Domain>
    requires i <= |s|
    decreases |s| - i
  {
    if i == |s| then [] else var k := RunEnd(s, i, i + 1); [Merge(s, i, k)] + Grouped(s, k)
  }

  /** The sizes of the runs starting at `i`. */
  function RunSizes(s: seq<Domain>, i: nat): seq<nat>
    requires i <= |s|
    decreases |s| - i
  {
    if i == |s| then [] else var k := RunEnd(s, i, i + 1); [k - i] + RunSizes(s, k)
  }

  function Sum(xs: seq<nat>): nat {
    if xs == [] then 0 else xs[0] + Sum(xs[1..])
  }

  /**
   * Every row lands in exactly one run: one output row per run, every run
   * non-empty, run sizes adding up to the number of rows.
   */
  lemma {:induction false} GroupedPartition(s: seq<Domain>, i: nat)
    requires i <= |s|
    ensures |Grouped(s, i)| == |RunSizes(s, i)| <= |s| - i
    ensures Sum(RunSizes(s, i)) == |s| - i
    ensures forall m :: 0 <= m < |RunSizes(s, i)| ==> RunSizes(s, i)[m] >= 1
    decreases |s| - i
  {
    if i < |s| {
      GroupedPartition(s, RunEnd(s, i, i + 1));
    }
  }

  /** A merged row keeps the first row's fields except `end` (the last row's) and the counted name. */
  lemma MergeFields(s: seq<Domain>, i: nat, k: nat)
    requires i < k <= |s|
    ensures Merge(s, i, k).start == s[i].start && Merge(s, i, k).protein == s[i].protein
    ensures Merge(s, i, k).database == s[i].database && Merge(s, i, k).accession == s[i].accession
    ensures Merge(s, i, k).end == s[k - 1].end
    ensures k - i == 1 ==> Merge(s, i, k) == s[i]
    ensures k - i > 1 ==>
              var suffix := Merge(s, i, k).name[|s[i].name| + 3..|Merge(s, i, k).name| - 1];
              && Merge(s, i, k).name == s[i].name + " (x" + suffix + ")"
              && (forall c :: 0 <= c < |suffix| ==> IsDigit(suffix[c]))
              && ParseDigits(suffix) == k - i
  {
    if k - i > 1 {
      var name := Merge(s, i, k).name;
      var digits := NatToString(k - i);
      assert name == s[i].name + " (x" + digits + ")";
      assert name[|s[i].name| + 3..|name| - 1] == digits;
      ParseNatToString(k - i);
    }
  }

  /** Grouping sorted rows keeps them sorted by start, each group starting where its first row does. */
  lemma {:induction false} GroupedSorted(s: seq<Domain>, i: nat)
    requires i <= |s| && SortedByStart(s)
    ensures SortedByStart(Grouped(s, i))
    ensures i < |s| ==> forall m :: 0 <= m < |Grouped(s, i)| ==> Grouped(s, i)[m].start >= s[i].start
    decreases |s| - i
  {
    if i < |s| {
      var k := RunEnd(s, i, i + 1);
      GroupedSorted(s, k);
    }
  }

  /** Without neighbouring repeats nothing is merged: every row is emitted unchanged. */
  lemma {:induction false} GroupedWithoutRepeats(s: seq<Domain>, i: nat)
    requires i <= |s|
    requires forall j :: i < j < |s| ==> !(s[j].name == s[j - 1].name && s[j].start - s[j - 1].end < MaxGap)
    ensures Grouped(s, i) == s[i..]
    decreases |s| - i
  {
    if i < |s| {
      if i + 1 < |s| {
        assert !Continues(s, i, i + 1);
      }
      GroupedWithoutRepeats(s, i + 1);
    }
  }

  /** The `while i < len(filtered_df)` loop of `filter_domains`. */
  method GroupRuns(s: seq<Domain>) returns (grouped: seq<Domain>)
    ensures grouped == Grouped(s, 0)
  {
    grouped := [];
    var i := 0;
    while i < |s|
      invariant 0 <= i <= |s|
      invariant grouped + Grouped(s, i) == Grouped(s, 0)
    {
      var count := CountRun(s, i);
      var emitted := EmitRun(s, i, count);
      GroupedStep(s, i, count);
      grouped := grouped + [emitted];
      i := i + count;
    }
  }

  /** The row the outer loop appends for a run of `count` rows from `i`: the first row, merged when the run repeats. */
  method EmitRun(s: seq<Domain>, i: nat, count: nat) returns (emitted: Domain)
    requires i < |s| && 1 <= count && i + count <= |s|
    ensures emitted == Merge(s, i, i + count)
  {
    var current := s[i];
    if count > 1 {
      emitted := current.(end := s[i + count - 1].end, name := current.name + " (x" + NatToString(count) + ")");
    } else {
      emitted := current;
    }
  }

  lemma GroupedStep(s: seq<Domain>, i: nat, count: nat)
    requires i < |s| && count >= 1 && i + count == RunEnd(s, i, i + 1)
    ensures Grouped(s, i) == [Merge(s, i, i + count)] + Grouped(s, i + count)
  {
  }

  /** The inner `while` of `filter_domains`: how many rows the run starting at `i` spans. */
  method CountRun(s: seq<Domain>, i: nat) returns (count: nat)
    requires i < |s|
    ensures count >= 1 && i + count == RunEnd(s, i, i + 1)
  {
    var current := s[i];
    count := 1;
    while i + count < |s| && s[i + count].name == current.name && s[i + count].start - s[i + count - 1].end < MaxGap
      invariant 1 <= count && i + count <= |s|
      invariant RunEnd(s, i, i + count) == RunEnd(s, i, i + 1)
      decreases |s| - count
    {
      count := count + 1;
    }
  }

  /** `filter_domains`. */
  method FilterDomains(rows: seq<Domain>, minLength: int, groupRepeats: bool) returns (r: seq<Domain>)
    ensures var kept := FilterByLength(rows, minLength);
            r == if groupRepeats && |kept| > 1 then Grouped(SortByStart(kept), 0) else kept
  {
    r := FilterByLength(rows, minLength);
    if groupRepeats && |r| > 1 {
      var sorted := SortByStart(r);
      r := GroupRuns(sorted);
    }
  }

  // ----------------------------------------------------------- plot height

  /** `max(400, n * 30 + 150)`. */
  function DefaultHeight(n: nat): (h: int)
    ensures h >= 400 && h >= 30 * n + 150
    ensures h == 400 || h == 30 * n + 150
  {
    if 30 * n + 150 > 400 then 30 * n + 150 else 400
  }

  /** The figure height in `create_protein_domain_plot` (`if height is None`). */
  function FigureHeight(height: Option<int>, n: nat): int {
    match height
    case None => DefaultHeight(n)
    case Some(h) => h
  }

  /** The static-export height in `generate_protein_domain_plot` (`height if height else ...`). */
  function ExportHeight(height: Option<int>, n: nat): int {
    match height
    case Some(h) => if h != 0 then h else DefaultHeight(n)
    case None => DefaultHeight(n)
  }

  /** The two heights agree except for an explicit height of 0, which only the export replaces. */
  lemma HeightsAgree(height: Option<int>, n: nat)
    ensures FigureHeight(height, n) == ExportHeight(height, n) <==> height != Some(0)
    ensures height.None? ==> FigureHeight(height, n) >= 400
  {
  }

  // --------------------------------------------------------------- colours

  /** The 24-colour scheme. */
  const Palette: seq<string> := [
    "#1f77b4", "#ff7f0e", "#2ca02c", "#d62728", "#9467bd", "#8c564b",
    "#e377c2", "#7f7f7f", "#bcbd22", "#17becf", "#393b79", "#637939",
    "#8c6d31", "#843c39", "#7b4173", "#5254a3", "#6b6ecf", "#9c9ede",
    "#3182bd", "#e6550d", "#31a354", "#756bb1", "#636363", "#bd9e39"]

  /** `Series.unique()`: each value once, in order of first appearance. */
  function Unique(xs: seq<string>): (u: seq<string>)
    ensures forall x :: x in u <==> x in xs
    ensures forall i, j :: 0 <= i < j < |u| ==> u[i] != u[j]
  {
    if xs == [] then []
    else
      var p := Unique(xs[..|xs| - 1]);
      var x := xs[|xs| - 1];
      assert xs == xs[..|xs| - 1] + [x];
      if x in p then p else p + [x]
  }

  /** Where `x` first occurs in `xs`. */
  function FirstIndex(x: string, xs: seq<string>): (i: nat)
    requires x in xs
    ensures i < |xs| && xs[i] == x && x !in xs[..i]
  {
    if xs[0] == x then 0 else 1 + FirstIndex(x, xs[1..])
  }

  lemma {:induction false} FirstIndexAppend(y: string, xs: seq<string>, x: string)
    requires y in xs
    ensures FirstIndex(y, xs + [x]) == FirstIndex(y, xs)
  {
    if xs[0] != y {
      assert (xs + [x])[1..] == xs[1..] + [x];
      FirstIndexAppend(y, xs[1..], x);
    }
  }

  /** The values come out in order of their first appearance. */
  lemma {:induction false} UniqueFirstAppearance(xs: seq<string>)
    ensures forall i, j :: 0 <= i < j < |Unique(xs)| ==>
              FirstIndex(Unique(xs)[i], xs) < FirstIndex(Unique(xs)[j], xs)
  {
    if xs != [] {
      var init := xs[..|xs| - 1];
      var x := xs[|xs| - 1];
      assert xs == init + [x];
      UniqueFirstAppearance(init);
      var p := Unique(init);
      forall y | y in p ensures FirstIndex(y, xs) == FirstIndex(y, init) {
        FirstIndexAppend(y, init, x);
      }
      if x !in p {
        assert x !in init;
        forall y | y in p ensures FirstIndex(y, xs) < FirstIndex(x, xs) {
          assert FirstIndex(x, xs) == |init| by {
            assert x !in xs[..|init|];
          }
        }
      }
    }
  }

  /** The colour-mapping loop of `create_protein_domain_plot`. */
  method ColorMapping(names: seq<string>) returns (m: map<string, string>)
    ensures forall x :: x in m <==> x in names
    ensures forall k :: 0 <= k < |Unique(names)| ==> m[Unique(names)[k]] == Palette[k % |Palette|]
  {
    var unique := Unique(names);
    m := map[];
    for i := 0 to |unique|
      invariant forall x :: x in m <==> x in unique[..i]
      invariant forall k :: 0 <= k < i ==> m[unique[k]] == Palette[k % |Palette|]
    {
      m := m[unique[i] := Palette[i % |Palette|]];
      assert unique[..i + 1] == unique[..i] + [unique[i]];
    }
    assert unique[..|unique|] == unique;
  }

  lemma PaletteDistinct()
    ensures forall i, j :: 0 <= i < j < |Palette| ==> Palette[i] != Palette[j]
  {
    forall i, j | 0 <= i < j < |Palette| ensures Palette[i] != Palette[j] {
      assert Palette[i][1..3] != Palette[j][1..3] || Palette[i][3..] != Palette[j][3..];
    }
  }

  /**
   * With at most 24 distinct names, the mapping `ColorMapping` builds gives
   * distinct names distinct colours.
   */
  lemma DistinctNamesDistinctColors(names: seq<string>, m: map<string, string>, a: string, b: string)
    requires forall k :: 0 <= k < |Unique(names)| ==> Unique(names)[k] in m && m[Unique(names)[k]] == Palette[k % |Palette|]
    requires |Unique(names)| <= |Palette|
    requires a in names && b in names && a != b
    ensures a in m && b in m && m[a] != m[b]
  {
    var u := Unique(names);
    assert a in u && b in u;
    var i :| 0 <= i < |u| && u[i] == a;
    var j :| 0 <= j < |u| && u[j] == b;
    PaletteIndex(i);
    PaletteIndex(j);
    assert Palette[i] != Palette[j] by {
      PaletteDistinct();
    }
  }

  lemma PaletteIndex(i: nat)
    requires i < |Palette|
    ensures i % |Palette| == i
  {
  }

  // --------------------------------------------------------------- CSV name

  const HtmlSuffix: string := ".html"
  const CsvSuffix: string := "_domains.csv"

  /** `output_html.replace('.html', '_domains.csv')`. */
  function CsvName(outputHtml: string): string {
    ReplaceAll(outputHtml, HtmlSuffix, CsvSuffix)
  }

  lemma HtmlNoBorder()
    ensures NoBorder(HtmlSuffix)
  {
    forall k | 0 < k < |HtmlSuffix| ensures !IsBorder(HtmlSuffix, k) {
      assert HtmlSuffix[..k][0] == '.';
      assert HtmlSuffix[|HtmlSuffix| - k..][0] != '.';
    }
  }

  /** Each `.html` is replaced, left to right; a name without one is kept. */
  lemma CsvNameReplacesEach(stem: string, rest: string)
    requires !IsSubstring(HtmlSuffix, stem)
    ensures CsvName(stem + HtmlSuffix + rest) == stem + CsvSuffix + CsvName(rest)
    ensures CsvName(stem) == stem
  {
    HtmlNoBorder();
    ReplaceAllSplit(stem, HtmlSuffix, CsvSuffix, rest);
    ReplaceAllAbsent(stem, HtmlSuffix, CsvSuffix);
  }

  /** The usual case: `plot.html` becomes `plot_domains.csv`. */
  lemma CsvNameOfHtmlFile(stem: string)
    requires !IsSubstring(HtmlSuffix, stem)
    ensures CsvName(stem + HtmlSuffix) == stem + CsvSuffix
  {
    CsvNameReplacesEach(stem, []);
    assert stem + HtmlSuffix + [] == stem + HtmlSuffix;
  }
}

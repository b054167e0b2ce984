/**
 * The per-window summary row built from the parsed report, the p-value filter
 * on clusters 2 and 3, and the filtered, sorted view of the whole table.
 */
module Summary {
  import opened Wrappers
  import opened Text
  import opened ReportParser

  /** The four cells of one cluster in a row: enrichment, p-value, terms, size. */
  datatype Slot = Slot(enrich: Option<real>, pval: Option<real>, terms: string, size: Option<int>)

  /** A row of the full table: the window label and the cells of clusters 1, 2 and 3. */
  datatype Record = Record(window: string, c1: Slot, c2: Slot, c3: Slot)

  /** What a filtered-out cluster's cells become. */
  const EmptySlot := Slot(None, None, "", None)

  /** The cells of the `i`-th cluster of a parse, `i` 0-based. */
  function SlotAt(cols: Columns, i: nat): Slot
    requires i < |cols.scores| && i < |cols.pvals| && i < |cols.terms| && i < |cols.sizes|
  {
    Slot(cols.scores[i], cols.pvals[i], cols.terms[i], cols.sizes[i])
  }

  /**
   * The row literal, which indexes each column at 0, 1 and 2: `None` stands
   * for the `IndexError` raised when some column is shorter than three.
   */
  function BuildRecord(name: string, cols: Columns): (r: Option<Record>)
    ensures r.Some? <==> |cols.scores| >= 3 && |cols.pvals| >= 3 && |cols.terms| >= 3 && |cols.sizes| >= 3
    ensures r.Some? ==> r.value.window == name
  {
    if |cols.scores| >= 3 && |cols.pvals| >= 3 && |cols.terms| >= 3 && |cols.sizes| >= 3 then
      Some(Record(name, SlotAt(cols, 0), SlotAt(cols, 1), SlotAt(cols, 2)))
    else None
  }

  /** A parse asked for at least three clusters yields a row; one asked for fewer raises. */
  lemma RowNeedsThreeClusters(name: string, file: Option<seq<string>>, k: int, num: Numerals)
    requires k >= 0
    requires Extract(file, k, num).Extracted?
    ensures var cols := Extract(file, k, num).columns;
      && (BuildRecord(name, cols).Some? <==> k >= 3)
      && (k >= 3 ==>
            BuildRecord(name, cols) == Some(Record(name, SlotAt(cols, 0), SlotAt(cols, 1), SlotAt(cols, 2))))
  {
    ColumnsHaveRequestedLength(file, k, num);
  }

  /** A secondary cluster is dropped when its p-value is missing or above the threshold. */
  predicate Rejected(p: Option<real>, threshold: real) {
    p.None? || p.value > threshold
  }

  function FilterSlot(s: Slot, threshold: real): Slot {
    if Rejected(s.pval, threshold) then EmptySlot else s
  }

  /** Cluster `i` (1-based, 1 to 3) of a row. */
  function SlotOf(rec: Record, i: int): Slot
    requires 1 <= i <= 3
  {
    if i == 1 then rec.c1 else if i == 2 then rec.c2 else rec.c3
  }

  function WithSlot(rec: Record, i: int, s: Slot): Record
    requires 1 <= i <= 3
  {
    if i == 1 then rec.(c1 := s) else if i == 2 then rec.(c2 := s) else rec.(c3 := s)
  }

  /**
   * The row after the threshold filter: the label and cluster 1 are never
   * touched; cluster 2 or 3 keeps a p-value exactly when it had one not above
   * the threshold, and is otherwise emptied.
   */
  function Filtered(rec: Record, threshold: real): (r: Record)
    ensures r.window == rec.window && r.c1 == rec.c1
    ensures forall i :: 2 <= i <= 3 ==>
      && (SlotOf(r, i).pval.Some? <==> SlotOf(rec, i).pval.Some? && SlotOf(rec, i).pval.value <= threshold)
      && (SlotOf(r, i).pval.Some? ==> SlotOf(r, i) == SlotOf(rec, i))
      && (SlotOf(r, i).pval.None? ==> SlotOf(r, i) == EmptySlot)
  {
    rec.(c2 := FilterSlot(rec.c2, threshold), c3 := FilterSlot(rec.c3, threshold))
  }

  /** The `for i in [2, 3]` loop that empties the rejected secondary clusters of the row in place. */
  method FilterSecondary(rec: Record, threshold: real) returns (r: Record)
    ensures r == Filtered(rec, threshold)
  {
    r := rec;
    for i := 2 to 4
      invariant r.window == rec.window && r.c1 == rec.c1
      invariant forall j :: 2 <= j <= 3 ==>
        SlotOf(r, j) == if j < i then FilterSlot(SlotOf(rec, j), threshold) else SlotOf(rec, j)
    {
      var p := SlotOf(r, i).pval;
      if p.None? || p.value > threshold {
        r := WithSlot(r, i, EmptySlot);
      }
    }
    assert SlotOf(r, 2) == r.c2 && SlotOf(r, 3) == r.c3;
  }

  /** Filtering twice is filtering once. */
  lemma FilterIdempotent(rec: Record, threshold: real)
    ensures Filtered(Filtered(rec, threshold), threshold) == Filtered(rec, threshold)
  {
  }

  /** A cluster kept under one threshold is kept under any larger threshold. */
  lemma FilterMonotone(rec: Record, t: real, t': real)
    requires t <= t'
    ensures Filtered(rec, t).c2.pval.Some? ==> Filtered(rec, t').c2 == rec.c2
    ensures Filtered(rec, t).c3.pval.Some? ==> Filtered(rec, t').c3 == rec.c3
  {
  }

  // ---------------------------------------------------------------------
  // The filtered sheet
  // ---------------------------------------------------------------------

  /** A row of the filtered sheet: its columns in sheet order, p-values dropped. */
  datatype ViewRow = ViewRow(
    window: string,
    enrich1: Option<real>, enrich2: Option<real>, enrich3: Option<real>,
    terms1: string, terms2: string, terms3: string,
    size1: Option<int>, size2: Option<int>, size3: Option<int>)

  /** `dropna(how="all")` on the three p-value columns keeps the rows with at least one p-value. */
  predicate HasPval(rec: Record) {
    rec.c1.pval.Some? || rec.c2.pval.Some? || rec.c3.pval.Some?
  }

  /**
   * The rows kept, in table order: every row with a p-value as often as the
   * table holds it, and no other row.
   */
  function Kept(table: seq<Record>): (r: seq<Record>)
    ensures |r| <= |table|
    ensures forall x :: x in r <==> x in table && HasPval(x)
    ensures forall x :: multiset(r)[x] == if HasPval(x) then multiset(table)[x] else 0
    decreases |table|
  {
    if table == [] then []
    else
      var rest := Kept(table[..|table| - 1]);
      var last := table[|table| - 1];
      assert table == table[..|table| - 1] + [last];
      if HasPval(last) then rest + [last] else rest
  }

  /** `dropna` keeps the table's order: the rows kept from two tables one after the other are those of each, in turn. */
  lemma {:induction false} KeptAppend(a: seq<Record>, b: seq<Record>)
    ensures Kept(a + b) == Kept(a) + Kept(b)
    decreases |b|
  {
    if b != [] {
      var b' := b[..|b| - 1];
      assert (a + b)[..|a + b| - 1] == a + b';
      KeptAppend(a, b');
    } else {
      assert a + b == a;
    }
  }

  /** The column selection. */
  function Project(rec: Record): ViewRow {
    ViewRow(rec.window, rec.c1.enrich, rec.c2.enrich, rec.c3.enrich,
      rec.c1.terms, rec.c2.terms, rec.c3.terms, rec.c1.size, rec.c2.size, rec.c3.size)
  }

  function ProjectAll(rows: seq<Record>): (v: seq<ViewRow>)
    ensures |v| == |rows|
    ensures forall i :: 0 <= i < |rows| ==> v[i] == Project(rows[i])
  {
    seq(|rows|, i requires 0 <= i < |rows| => Project(rows[i]))
  }

  /** `x` may come before `y` when sorting descending with missing values last. */
  predicate Before(x: Option<real>, y: Option<real>) {
    if x.None? then y.None? else y.None? || x.value >= y.value
  }

  /** Ordered by `Enrich1`, largest first, rows without one at the end. */
  predicate SortedByEnrich1(v: seq<ViewRow>) {
    forall i, j :: 0 <= i < j < |v| ==> Before(v[i].enrich1, v[j].enrich1)
  }

  /** Insert one row in front of the first row it may precede. */
  function Insert(x: ViewRow, s: seq<ViewRow>): seq<ViewRow>
    decreases |s|
  {
    if s == [] || Before(x.enrich1, s[0].enrich1) then [x] + s
    else [s[0]] + Insert(x, s[1..])
  }

  /**
   * `sort_values(by="Enrich1", ascending=False, na_position="last")`. The order
   * among rows with equal `Enrich1` is not promised by the library (its default
   * sort is not stable), and `SortViewCorrect` promises none either.
   */
  function SortView(v: seq<ViewRow>): seq<ViewRow>
    decreases |v|
  {
    if v == [] then [] else Insert(v[0], SortView(v[1..]))
  }

  /** A row that may precede every row of an ordered sheet may head it. */
  lemma ConsSorted(h: ViewRow, rest: seq<ViewRow>)
    requires SortedByEnrich1(rest)
    requires forall k :: 0 <= k < |rest| ==> Before(h.enrich1, rest[k].enrich1)
    ensures SortedByEnrich1([h] + rest)
  {
    var v := [h] + rest;
    forall i, j | 0 <= i < j < |v|
      ensures Before(v[i].enrich1, v[j].enrich1)
    {
      if i == 0 {
        assert v[j] == rest[j - 1];
      } else {
        assert v[i] == rest[i - 1] && v[j] == rest[j - 1];
      }
    }
  }

  /** Inserting adds exactly the one row. */
  lemma {:induction false} InsertMultiset(x: ViewRow, s: seq<ViewRow>)
    ensures multiset(Insert(x, s)) == multiset(s) + multiset{x}
    decreases |s|
  {
    if s != [] {
      assert s == [s[0]] + s[1..];
      if !Before(x.enrich1, s[0].enrich1) {
        InsertMultiset(x, s[1..]);
      }
    }
  }

  /** Inserting into an ordered sheet keeps it ordered and adds exactly the one row. */
  lemma {:induction false} InsertSorted(x: ViewRow, s: seq<ViewRow>)
    requires SortedByEnrich1(s)
    ensures SortedByEnrich1(Insert(x, s))
    ensures multiset(Insert(x, s)) == multiset(s) + multiset{x}
    decreases |s|
  {
    InsertMultiset(x, s);
    if s == [] {
      ConsSorted(x, s);
    } else if Before(x.enrich1, s[0].enrich1) {
      forall k | 0 <= k < |s|
        ensures Before(x.enrich1, s[k].enrich1)
      {
        if k > 0 {
          assert Before(s[0].enrich1, s[k].enrich1);
        }
      }
      ConsSorted(x, s);
    } else {
      var tail := s[1..];
      assert SortedByEnrich1(tail) by {
        forall i, j | 0 <= i < j < |tail|
          ensures Before(tail[i].enrich1, tail[j].enrich1)
        {
          assert tail[i] == s[i + 1] && tail[j] == s[j + 1];
        }
      }
      InsertSorted(x, tail);
      var rest := Insert(x, tail);
      forall k | 0 <= k < |rest|
        ensures Before(s[0].enrich1, rest[k].enrich1)
      {
        assert rest[k] in multiset(rest);
        if rest[k] != x {
          assert rest[k] in multiset(tail);
          var m :| 0 <= m < |tail| && tail[m] == rest[k];
          assert s[m + 1] == rest[k];
        }
      }
      ConsSorted(s[0], rest);
    }
  }

  /** The sorted sheet is ordered and holds the same rows, each as often. */
  lemma {:induction false} SortViewCorrect(v: seq<ViewRow>)
    ensures SortedByEnrich1(SortView(v))
    ensures multiset(SortView(v)) == multiset(v)
    decreases |v|
  {
    if v != [] {
      SortViewCorrect(v[1..]);
      InsertSorted(v[0], SortView(v[1..]));
      assert v == [v[0]] + v[1..];
    }
  }

  /**
   * The filtered sheet of the table, or `None` for the `KeyError` an empty
   * table (no column at all) raises when its p-value columns are looked up.
   */
  function FilteredView(table: seq<Record>): Option<seq<ViewRow>> {
    if table == [] then None else Some(SortView(ProjectAll(Kept(table))))
  }

  /**
   * The filtered sheet of a non-empty table is ordered by `Enrich1` and holds
   * exactly the projections of the rows with some p-value, each as often as
   * such rows occur: no row is lost, invented or duplicated.
   */
  lemma FilteredViewContents(table: seq<Record>)
    ensures FilteredView(table).None? <==> table == []
    ensures table != [] ==>
      var v := FilteredView(table).value;
      && SortedByEnrich1(v)
      && multiset(v) == multiset(ProjectAll(Kept(table)))
      && (forall row :: row in v <==> exists rec :: rec in table && HasPval(rec) && Project(rec) == row)
  {
    if table != [] {
      var v := FilteredView(table).value;
      var p := ProjectAll(Kept(table));
      SortViewCorrect(p);
      forall row
        ensures row in v <==> exists rec :: rec in table && HasPval(rec) && Project(rec) == row
      {
        assert row in v <==> row in multiset(p);
        if row in p {
          var i :| 0 <= i < |p| && p[i] == row;
          assert Kept(table)[i] in Kept(table);
        }
        if exists rec :: rec in table && HasPval(rec) && Project(rec) == row {
          var rec :| rec in table && HasPval(rec) && Project(rec) == row;
          var i :| 0 <= i < |Kept(table)| && Kept(table)[i] == rec;
          assert p[i] == row;
        }
      }
    }
  }
}

/**
 * Saving a cluster report and reading the file back: when every field is
 * written so that the reader can find it again, the parse recovers, cluster
 * by cluster, the score, the first record's p-value and count, and the first
 * three term names (cleaned), and pads the rest with nulls.
 */
module ReportRoundTrip {
  import opened Wrappers
  import opened Text
  import opened ClusterReport
  import opened ReportParser

  /**
   * A record whose row the reader takes for a data row with the same 13
   * fields: no field holds a tab, or a newline or carriage return at which
   * reading the file in text mode would break the row; the row neither
   * starts nor ends with whitespace that `strip()` would remove, and it does
   * not begin like a header or the "no clusters" marker.
   */
  predicate WritableRecord(rec: ChartRecord, num: Numerals) {
    var row := Render(DataRow(rec), num);
    && (forall i :: 0 <= i < 13 ==> '\t' !in Fields(rec, num)[i] && '\n' !in Fields(rec, num)[i] && '\r' !in Fields(rec, num)[i])
    && rec.categoryName != [] && !IsSpace(rec.categoryName[0])
    && rec.afdr != [] && !IsSpace(rec.afdr[|rec.afdr| - 1])
    && !StartsWith(row, ClusterPrefix) && !StartsWith(row, ColumnsPrefix) && !StartsWith(row, MarkerPrefix)
  }

  /**
   * A score whose printed form the header's regular expression reads back
   * whole, non-empty and made only of `-`, digits, `.`, `e` and `E` (so not,
   * for instance, `1e+16`), and which `float()` turns back into the score.
   */
  predicate ReadableScore(score: Option<real>, num: Numerals) {
    score.Some? ==>
      var t := num.showReal(score.value);
      && t != [] && (forall i :: 0 <= i < |t| ==> InScoreClass(t[i]))
      && num.parseReal(t) == Some(score.value)
  }

  /**
   * A cluster the reader gets back: it has a record, its score reads back,
   * every record is written so that its row reads back, and the first
   * record's p-value and count go through `float()` and `int()` unchanged.
   */
  predicate WritableCluster(c: Cluster, num: Numerals) {
    && |c.records| >= 1
    && ReadableScore(c.score, num)
    && (forall j :: 0 <= j < |c.records| ==> WritableRecord(c.records[j], num))
    && num.parseReal(num.showReal(c.records[0].ease)) == Some(c.records[0].ease)
    && num.parseInt(IntToDecimal(c.records[0].listHits)) == Some(c.records[0].listHits)
  }

  function TermNames(recs: seq<ChartRecord>): (names: seq<string>)
    ensures |names| == |recs|
    ensures forall j :: 0 <= j < |recs| ==> names[j] == recs[j].termName
  {
    seq(|recs|, j requires 0 <= j < |recs| => recs[j].termName)
  }

  /** The p-value the reader should report for a cluster: its first record's. */
  function FirstPvalOf(c: Cluster): Option<real> {
    if c.records == [] then None else Some(c.records[0].ease)
  }

  /** The size the reader should report for a cluster: its first record's count. */
  function FirstSizeOf(c: Cluster): Option<int> {
    if c.records == [] then None else Some(c.records[0].listHits)
  }

  /** The clusters of a report, none for a missing report. */
  function ClustersOf(report: Option<seq<Cluster>>): seq<Cluster> {
    if report.None? then [] else report.value
  }

  // ---------------------------------------------------------------------
  // Single lines
  // ---------------------------------------------------------------------

  /** The text before the score key of a cluster header holds no `E`. */
  lemma HeaderPrefixHasNoE(digits: string)
    requires forall j :: 0 <= j < |digits| ==> IsDigit(digits[j])
    ensures 'E' !in "Annotation Cluster " + digits + "\t"
  {
    var pre := "Annotation Cluster " + digits + "\t";
    forall j | 0 <= j < |pre|
      ensures pre[j] != 'E'
    {
      if 19 <= j < 19 + |digits| {
        assert pre[j] == digits[j - 19];
      }
    }
  }

  /** A cluster header is read as a header, and its score comes back. */
  lemma HeaderReadBack(i: nat, score: Option<real>, num: Numerals)
    requires i >= 1 && ReadableScore(score, num)
    ensures StartsWith(Render(ClusterHeader(i, score), num), ClusterPrefix)
    ensures ReadScore(Render(ClusterHeader(i, score), num), num) ==
      (if score.Some? then ScoreValue(score.value) else NoScore)
  {
    var h := Render(ClusterHeader(i, score), num);
    var digits := IntToDecimal(i);
    var pre := "Annotation Cluster " + digits + "\t";
    var t := ScoreText(score, num);
    assert h == pre + ScoreKey + t;
    HeaderPrefixHasNoE(digits);
    ScoreAfterPrefix(pre, t);
    assert h[..|ClusterPrefix|] == ClusterPrefix;
    if score.None? {
      assert t == "None";
      assert t[0] == 'N';
    }
  }

  /** A data row is read as a data row with the record's own 13 fields. */
  lemma RowReadBack(rec: ChartRecord, num: Numerals)
    requires WritableRecord(rec, num)
    ensures IsDataLine(Render(DataRow(rec), num))
    ensures RowFields(Render(DataRow(rec), num)) == Fields(rec, num)
  {
    var f := Fields(rec, num);
    var row := Render(DataRow(rec), num);
    JoinEnds(f, "\t");
    assert f[0] == rec.categoryName && f[12] == rec.afdr;
    StripKeepsTrimmed(row);
    RowHasThirteenFields(rec, num);
  }

  lemma FileTextAppend(a: seq<ReportLine>, b: seq<ReportLine>, num: Numerals)
    ensures FileText(a + b, num) == FileText(a, num) + FileText(b, num)
  {
    var l := FileText(a + b, num);
    var r := FileText(a, num) + FileText(b, num);
    assert |l| == |r|;
    forall i | 0 <= i < |l|
      ensures l[i] == r[i]
    {
      if i < |a| {
        assert (a + b)[i] == a[i];
      } else {
        assert (a + b)[i] == b[i - |a|];
      }
    }
  }

  // ---------------------------------------------------------------------
  // One cluster's block
  // ---------------------------------------------------------------------

  /** The data rows of the first `n` records read back as their fields, all of them wide. */
  lemma {:induction false} RowsReadBack(recs: seq<ChartRecord>, n: nat, num: Numerals)
    requires n <= |recs|
    requires forall j :: 0 <= j < |recs| ==> WritableRecord(recs[j], num)
    ensures WideRows(FileText(RowLines(recs, n), num)) == seq(n, j requires 0 <= j < n => Fields(recs[j], num))
    decreases n
  {
    if n > 0 {
      RowsReadBack(recs, n - 1, num);
      var rows := FileText(RowLines(recs, n), num);
      FileTextAppend(RowLines(recs, n - 1), [DataRow(recs[n - 1])], num);
      assert rows[..n - 1] == FileText(RowLines(recs, n - 1), num);
      RowReadBack(recs[n - 1], num);
    }
  }

  /** No data row of a writable cluster looks like a header. */
  lemma RowsAreNotHeaders(recs: seq<ChartRecord>, num: Numerals)
    requires forall j :: 0 <= j < |recs| ==> WritableRecord(recs[j], num)
    ensures var rows := FileText(RowLines(recs, |recs|), num);
      forall i :: 0 <= i < |rows| ==> !StartsWith(rows[i], ClusterPrefix) && !StartsWith(rows[i], ColumnsPrefix)
  {
  }

  /** The accumulator after a writable cluster's rows holds its term names, first p-value and first count. */
  lemma RowsAccumulate(st: ParserState, c: Cluster, num: Numerals)
    requires WritableCluster(c, num)
    requires st.insideData && st.current == EmptyAcc
    ensures RunFrom(st, FileText(RowLines(c.records, |c.records|), num), num) ==
      Some(st.(current := Acc(TermNames(c.records), FirstPvalOf(c), FirstSizeOf(c))))
  {
    var recs := c.records;
    RowsAreNotHeaders(recs, num);
    RowsReadBack(recs, |recs|, num);
    SummaryOfRows(st, FileText(RowLines(recs, |recs|), num), recs, num);
  }

  /** The accumulation step of `RowsAccumulate`, from the facts it needs about the rows. */
  lemma SummaryOfRows(st: ParserState, rows: seq<string>, recs: seq<ChartRecord>, num: Numerals)
    requires st.insideData && st.current == EmptyAcc
    requires forall i :: 0 <= i < |rows| ==> !StartsWith(rows[i], ClusterPrefix) && !StartsWith(rows[i], ColumnsPrefix)
    requires |recs| >= 1
    requires WideRows(rows) == seq(|recs|, j requires 0 <= j < |recs| => Fields(recs[j], num))
    requires num.parseReal(num.showReal(recs[0].ease)) == Some(recs[0].ease)
    requires num.parseInt(IntToDecimal(recs[0].listHits)) == Some(recs[0].listHits)
    ensures RunFrom(st, rows, num) == Some(st.(current := Acc(TermNames(recs), Some(recs[0].ease), Some(recs[0].listHits))))
  {
    ClusterAccumulation(st, rows, num);
    var acc := RunFrom(st, rows, num).value.current;
    var w := WideRows(rows);
    assert w[0] == Fields(recs[0], num);
    assert FirstParsable(w, num) == Some(0);
    assert acc.terms == TermNames(recs) by {
      forall j | 0 <= j < |recs|
        ensures acc.terms[j] == recs[j].termName
      {
        assert w[j] == Fields(recs[j], num);
      }
    }
  }

  /** The column-header line switches the reader to data rows and is not taken for a cluster header. */
  lemma ColumnHeaderRead()
    ensures StartsWith(ColumnHeader, ColumnsPrefix) && !StartsWith(ColumnHeader, ClusterPrefix)
  {
    var rest := "\tCount\t%\tPvalue\tGenes\tList Total\tPop Hits\tPop Total\tFold Enrichment\tBonferroni\tBenjamini\tFDR";
    assert (ColumnsPrefix + rest)[..|ColumnsPrefix|] == ColumnsPrefix;
    assert ColumnHeader[0] != ClusterPrefix[0];
  }

  /** The two header lines of a saved cluster: the previous cluster is closed and the score appended. */
  lemma HeaderLinesRead(st: ParserState, n: nat, score: Option<real>, num: Numerals) returns (r: ParserState)
    requires ReadableScore(score, num) && n >= 1
    ensures RunFrom(st, [Render(ClusterHeader(n, score), num), ColumnHeader], num) == Some(r)
    ensures r == Flush(st).(scores := Flush(st).scores + [score], insideData := true)
  {
    var h := Render(ClusterHeader(n, score), num);
    HeaderReadBack(n, score, num);
    ColumnHeaderRead();
    r := OpenCluster(st, h, ColumnHeader, num);
  }

  /**
   * Reading one saved cluster block: the previous cluster is closed, the
   * score is appended and the new cluster's terms, p-value and size are
   * gathered.
   */
  lemma BlockReadBack(st: ParserState, n: nat, c: Cluster, num: Numerals)
    requires WritableCluster(c, num) && n >= 1
    requires st.current.terms != [] || st.current == EmptyAcc
    ensures var f := Flush(st);
      RunFrom(st, FileText(Block(n, c), num), num) ==
        Some(f.(scores := f.scores + [c.score],
                current := Acc(TermNames(c.records), FirstPvalOf(c), FirstSizeOf(c)),
                insideData := true))
  {
    var h := Render(ClusterHeader(n, c.score), num);
    var rows := FileText(RowLines(c.records, |c.records|), num);
    FileTextAppend([ClusterHeader(n, c.score), ColumnNames], RowLines(c.records, |c.records|), num);
    assert FileText([ClusterHeader(n, c.score), ColumnNames], num) == [h, ColumnHeader];
    var r := HeaderLinesRead(st, n, c.score, num);
    RowsAccumulate(r, c, num);
    RunAppend(st, [h, ColumnHeader], rows, num);
  }

  // ---------------------------------------------------------------------
  // The whole file
  // ---------------------------------------------------------------------

  /** The scores of the first `n` clusters. */
  function ScoresOf(cs: seq<Cluster>, n: nat): (r: seq<Option<real>>)
    requires n <= |cs|
    ensures |r| == n && forall i :: 0 <= i < n ==> r[i] == cs[i].score
  {
    if n == 0 then [] else ScoresOf(cs, n - 1) + [cs[n - 1].score]
  }

  /** The first p-values of the first `n` clusters. */
  function PvalsOf(cs: seq<Cluster>, n: nat): (r: seq<Option<real>>)
    requires n <= |cs|
    ensures |r| == n && forall i :: 0 <= i < n ==> r[i] == FirstPvalOf(cs[i])
  {
    if n == 0 then [] else PvalsOf(cs, n - 1) + [FirstPvalOf(cs[n - 1])]
  }

  /** The first three term names of the first `n` clusters. */
  function TermListsOf(cs: seq<Cluster>, n: nat): (r: seq<seq<string>>)
    requires n <= |cs|
    ensures |r| == n && forall i :: 0 <= i < n ==> r[i] == PyPrefix(TermNames(cs[i].records), 3)
  {
    if n == 0 then [] else TermListsOf(cs, n - 1) + [PyPrefix(TermNames(cs[n - 1].records), 3)]
  }

  /** The first counts of the first `n` clusters. */
  function SizesOf(cs: seq<Cluster>, n: nat): (r: seq<Option<int>>)
    requires n <= |cs|
    ensures |r| == n && forall i :: 0 <= i < n ==> r[i] == FirstSizeOf(cs[i])
  {
    if n == 0 then [] else SizesOf(cs, n - 1) + [FirstSizeOf(cs[n - 1])]
  }

  /** The parser state after the first `n` saved blocks: cluster `n` is still being read. */
  ghost function Expected(cs: seq<Cluster>, n: nat): ParserState
    requires 1 <= n <= |cs|
  {
    ParserState(
      ScoresOf(cs, n), PvalsOf(cs, n - 1), TermListsOf(cs, n - 1), SizesOf(cs, n - 1),
      Acc(TermNames(cs[n - 1].records), FirstPvalOf(cs[n - 1]), FirstSizeOf(cs[n - 1])),
      true)
  }

  /** Closing the cluster being read lists every cluster read so far. */
  lemma ExpectedFlushed(cs: seq<Cluster>, n: nat)
    requires 1 <= n <= |cs| && |cs[n - 1].records| >= 1
    ensures Flush(Expected(cs, n)) ==
      ParserState(ScoresOf(cs, n), PvalsOf(cs, n), TermListsOf(cs, n), SizesOf(cs, n), EmptyAcc, true)
  {
    assert TermNames(cs[n - 1].records) != [];
  }

  lemma {:induction false} BlocksReadBack(cs: seq<Cluster>, n: nat, num: Numerals)
    requires 1 <= n <= |cs|
    requires forall i :: 0 <= i < |cs| ==> WritableCluster(cs[i], num)
    ensures RunFrom(Init, FileText(Blocks(cs, n), num), num) == Some(Expected(cs, n))
    decreases n
  {
    var prevText := FileText(Blocks(cs, n - 1), num);
    var blockText := FileText(Block(n, cs[n - 1]), num);
    assert FileText(Blocks(cs, n), num) == prevText + blockText by {
      assert Blocks(cs, n) == Blocks(cs, n - 1) + Block(n, cs[n - 1]);
      FileTextAppend(Blocks(cs, n - 1), Block(n, cs[n - 1]), num);
    }
    var prev := if n == 1 then Init else Expected(cs, n - 1);
    assert RunFrom(Init, prevText, num) == Some(prev) by {
      if n == 1 {
        assert prevText == [];
      } else {
        BlocksReadBack(cs, n - 1, num);
      }
    }
    RunAppend(Init, prevText, blockText, num);
    assert WritableCluster(cs[n - 1], num);
    BlockReadBack(prev, n, cs[n - 1], num);
    if n > 1 {
      ExpectedFlushed(cs, n - 1);
    }
    assert Flush(prev).scores + [cs[n - 1].score] == ScoresOf(cs, n);
  }

  /** A column padded with `x` and cut to `k >= 0` entries: its first entries, then `x`. */
  lemma PaddedColumn<T>(s: seq<T>, k: nat, x: T)
    ensures |PyPrefix(Pad(s, k, x), k)| == k
    ensures forall i :: 0 <= i < k ==> PyPrefix(Pad(s, k, x), k)[i] == if i < |s| then s[i] else x
  {
    forall i | 0 <= i < k
      ensures PyPrefix(Pad(s, k, x), k)[i] == if i < |s| then s[i] else x
    {
      assert i < |Pad(s, k, x)|;
    }
  }

  /**
   * The number columns of a flushed parse state `f` that has read the
   * clusters `cs`, padded with null and cut to `k`, as `Finish` builds them.
   */
  lemma FinishedNumbers(f: ParserState, cs: seq<Cluster>, k: nat)
    requires f.scores == ScoresOf(cs, |cs|) && f.pvals == PvalsOf(cs, |cs|) && f.sizes == SizesOf(cs, |cs|)
    ensures forall i :: 0 <= i < k ==>
      PyPrefix(Pad(f.scores, k, None), k)[i] == if i < |cs| then cs[i].score else None
    ensures forall i :: 0 <= i < k ==>
      PyPrefix(Pad(f.pvals, k, None), k)[i] == if i < |cs| then FirstPvalOf(cs[i]) else None
    ensures forall i :: 0 <= i < k ==>
      PyPrefix(Pad(f.sizes, k, None), k)[i] == if i < |cs| then FirstSizeOf(cs[i]) else None
  {
    PaddedColumn(f.scores, k, None);
    PaddedColumn(f.pvals, k, None);
    PaddedColumn(f.sizes, k, None);
  }

  /** The terms column of a flushed parse state `f` that has read the clusters `cs`, padded and cut to `k`. */
  lemma FinishedTerms(f: ParserState, cs: seq<Cluster>, k: nat)
    requires f.termsList == TermListsOf(cs, |cs|)
    ensures |TermsCells(PyPrefix(Pad(f.termsList, k, []), k))| == k
    ensures forall i :: 0 <= i < k ==>
      TermsCells(PyPrefix(Pad(f.termsList, k, []), k))[i] == if i < |cs| then TermsCell(PyPrefix(TermNames(cs[i].records), 3)) else ""
  {
    assert TermsCell([]) == "";
    PaddedColumn(f.termsList, k, []);
  }

  /** The file of a non-empty report parses to the finished state of its blocks. */
  lemma ExtractBlocks(cs: seq<Cluster>, k: nat, num: Numerals)
    requires cs != []
    requires forall i :: 0 <= i < |cs| ==> WritableCluster(cs[i], num)
    ensures Extract(Some(FileText(ReportLines(Some(cs)), num)), k, num) == Extracted(Finish(Expected(cs, |cs|), k))
  {
    BlocksReadBack(cs, |cs|, num);
  }

  /**
   * What parsing with `max_clusters = k >= 0` gives back for the clusters
   * `cs`: position `i` of each column holds the `i`-th cluster's score, first
   * p-value, first three cleaned term names and first count, and null (or
   * `""`) past the last cluster.
   */
  predicate ReadBack(e: Extraction, cs: seq<Cluster>, k: nat) {
    && e.Extracted?
    && |e.columns.scores| == k && |e.columns.pvals| == k && |e.columns.terms| == k && |e.columns.sizes| == k
    && (forall i :: 0 <= i < k ==> e.columns.scores[i] == if i < |cs| then cs[i].score else None)
    && (forall i :: 0 <= i < k ==> e.columns.pvals[i] == if i < |cs| then FirstPvalOf(cs[i]) else None)
    && (forall i :: 0 <= i < k ==>
          e.columns.terms[i] == if i < |cs| then TermsCell(PyPrefix(TermNames(cs[i].records), 3)) else "")
    && (forall i :: 0 <= i < k ==> e.columns.sizes[i] == if i < |cs| then FirstSizeOf(cs[i]) else None)
  }

  /** A missing report and an empty one are saved as the no-clusters line, which reads back as all null. */
  lemma NoClustersReadBack(report: Option<seq<Cluster>>, k: nat, num: Numerals)
    requires ClustersOf(report) == []
    ensures ReadBack(Extract(Some(FileText(ReportLines(report), num)), k, num), [], k)
  {
    var text := FileText(ReportLines(report), num);
    ColumnsHaveRequestedLength(Some(text), k, num);
    assert text == [NoClustersLine];
    assert NoClustersLine[0] != ClusterPrefix[0] && NoClustersLine[0] != ColumnsPrefix[0];
    WithoutHeadersLikeMissing(text, k, num);
  }

  /** A non-empty report of writable clusters reads back cluster by cluster. */
  lemma ClustersReadBack(cs: seq<Cluster>, k: nat, num: Numerals)
    requires cs != []
    requires forall i :: 0 <= i < |cs| ==> WritableCluster(cs[i], num)
    ensures ReadBack(Extract(Some(FileText(ReportLines(Some(cs)), num)), k, num), cs, k)
  {
    ColumnsHaveRequestedLength(Some(FileText(ReportLines(Some(cs)), num)), k, num);
    ExtractBlocks(cs, k, num);
    ExpectedFlushed(cs, |cs|);
    var f := Flush(Expected(cs, |cs|));
    FinishedNumbers(f, cs, k);
    FinishedTerms(f, cs, k);
  }

  /**
   * Save, then parse with `max_clusters = k >= 0`: every cluster of the report
   * reads back in its column position, and a missing report reads back like
   * an empty one.
   */
  lemma SaveThenExtract(report: Option<seq<Cluster>>, k: nat, num: Numerals)
    requires forall i :: 0 <= i < |ClustersOf(report)| ==> WritableCluster(ClustersOf(report)[i], num)
    ensures ReadBack(Extract(Some(FileText(ReportLines(report), num)), k, num), ClustersOf(report), k)
  {
    if ClustersOf(report) == [] {
      NoClustersReadBack(report, k, num);
    } else {
      ClustersReadBack(report.value, k, num);
    }
  }

  // ---------------------------------------------------------------------
  // A report that meets every read-back hypothesis
  // ---------------------------------------------------------------------

  /** Conversions that print every float as `0.5` and read any text back as 0.5 and 4. */
  function ExampleNumerals(): Numerals {
    Numerals(x => "0.5", t => Some(0.5), t => Some(4))
  }

  /** A KEGG record for the term `term`, with count 4 and p-value 0.5. */
  function ExampleRecord(term: string): ChartRecord {
    ChartRecord("KEGG_PATHWAY", term, 4, "1", 0.5, "1", "1", "1", "1", "1", "1", "1", "1")
  }

  /** A row that starts with `K` is not taken for a header or for the "no clusters" marker. */
  lemma StartsWithK(row: string)
    requires row != [] && row[0] == 'K'
    ensures !StartsWith(row, ClusterPrefix) && !StartsWith(row, ColumnsPrefix) && !StartsWith(row, MarkerPrefix)
  {
    assert ClusterPrefix[0] == 'A' && ColumnsPrefix[0] == 'C' && MarkerPrefix[0] == 'N';
  }

  /** No field of the example record holds a tab or a line break. */
  lemma ExampleFieldsClean(term: string)
    requires '\t' !in term && '\n' !in term && '\r' !in term
    ensures forall i :: 0 <= i < 13 ==>
      var x := Fields(ExampleRecord(term), ExampleNumerals())[i]; '\t' !in x && '\n' !in x && '\r' !in x
  {
    var f := Fields(ExampleRecord(term), ExampleNumerals());
    assert f[2] == "4";
    forall i | 0 <= i < 13 && i != 1
      ensures '\t' !in f[i] && '\n' !in f[i] && '\r' !in f[i]
    {
      assert f[i] in {"KEGG_PATHWAY", "4", "1", "0.5"};
    }
  }

  /** The example cluster meets every read-back hypothesis. */
  lemma ExampleWritable(term: string)
    requires '\t' !in term && '\n' !in term && '\r' !in term
    ensures WritableCluster(Cluster(Some(0.5), [ExampleRecord(term)]), ExampleNumerals())
  {
    var num := ExampleNumerals();
    var rec := ExampleRecord(term);
    var f := Fields(rec, num);
    JoinEnds(f, "\t");
    ExampleFieldsClean(term);
    StartsWithK(Render(DataRow(rec), num));
    assert WritableRecord(rec, num);
  }

  /**
   * The read-back hypotheses can be met: a report of one cluster with score
   * 0.5 and a record for any term without a tab or
   * line break is saved and parsed back with
   * `max_clusters = 3` as its score, p-value, count and cleaned term, then
   * nulls.
   */
  lemma ExampleReadsBack(term: string)
    requires '\t' !in term && '\n' !in term && '\r' !in term
    ensures var num := ExampleNumerals();
      var c := Cluster(Some(0.5), [ExampleRecord(term)]);
      ReadBack(Extract(Some(FileText(ReportLines(Some([c])), num)), 3, num), [c], 3)
  {
    var c := Cluster(Some(0.5), [ExampleRecord(term)]);
    ExampleWritable(term);
    SaveThenExtract(Some([c]), 3, ExampleNumerals());
  }
}

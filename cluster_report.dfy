/**
 * The term-cluster report the enrichment service returns, and its
 * persistence as a tab-separated text file (`save_cluster_report`).
 * A file is modelled as its sequence of lines, without line terminators.
 */
module ClusterReport {
  import opened Wrappers
  import opened Text

  /**
   * One chart record of a cluster. `listHits` (the count) and `ease` (the
   * p-value) are kept as numbers because the parser reads them back; the
   * other columns are kept as the text `str()` gives for them.
   */
  datatype ChartRecord = ChartRecord(
    categoryName: string,
    termName: string,
    listHits: int,
    percent: string,
    ease: real,
    geneIds: string,
    listTotals: string,
    popHits: string,
    popTotals: string,
    foldEnrichment: string,
    bonferroni: string,
    benjamini: string,
    afdr: string)

  /** An annotation cluster: its enrichment score (`None` when absent) and its records. */
  datatype Cluster = Cluster(score: Option<real>, records: seq<ChartRecord>)

  const NoClustersLine: string := "No clusters returned."
  /** The fixed column-header line; its first two names are what the reader looks for. */
  const ColumnHeader: string :=
    "Category\tTerm" + "\tCount\t%\tPvalue\tGenes\tList Total\tPop Hits\tPop Total\tFold Enrichment\tBonferroni\tBenjamini\tFDR"

  /** `f"{score}"`: Python prints a missing score as `None`. */
  function ScoreText(score: Option<real>, num: Numerals): string {
    match score
    case None => "None"
    case Some(x) => num.showReal(x)
  }

  /** The 13 columns of a record, in file order. */
  function Fields(rec: ChartRecord, num: Numerals): (f: seq<string>)
    ensures |f| == 13
    ensures f[1] == rec.termName && f[2] == IntToDecimal(rec.listHits) && f[4] == num.showReal(rec.ease)
  {
    [rec.categoryName, rec.termName, IntToDecimal(rec.listHits), rec.percent,
     num.showReal(rec.ease), rec.geneIds, rec.listTotals, rec.popHits, rec.popTotals,
     rec.foldEnrichment, rec.bonferroni, rec.benjamini, rec.afdr]
  }

  /** The kinds of line the writer emits, before they are rendered as text. */
  datatype ReportLine =
    | NoClusters                                      // the whole file of an empty report
    | ClusterHeader(index: int, score: Option<real>)  // `Annotation Cluster {i}\tEnrichmentScore:{score}`
    | ColumnNames                                     // the fixed column-header line
    | DataRow(rec: ChartRecord)                       // one record, its 13 fields tab-joined

  /** The text `fout.write` puts on the line (without its newline). */
  function Render(line: ReportLine, num: Numerals): string {
    match line
    case NoClusters => NoClustersLine
    case ClusterHeader(i, score) =>
      "Annotation Cluster " + IntToDecimal(i) + "\tEnrichmentScore:" + ScoreText(score, num)
    case ColumnNames => ColumnHeader
    case DataRow(rec) => Join(Fields(rec, num), "\t")
  }

  /** The text lines of a file, line by line. */
  function FileText(lines: seq<ReportLine>, num: Numerals): (text: seq<string>)
    ensures |text| == |lines|
    ensures forall i :: 0 <= i < |lines| ==> text[i] == Render(lines[i], num)
  {
    seq(|lines|, i requires 0 <= i < |lines| => Render(lines[i], num))
  }

  /** The data lines of the first `n` records, one per record, in order. */
  function RowLines(recs: seq<ChartRecord>, n: nat): (lines: seq<ReportLine>)
    requires n <= |recs|
    ensures |lines| == n
    ensures forall j :: 0 <= j < n ==> lines[j] == DataRow(recs[j])
    decreases n
  {
    if n == 0 then [] else RowLines(recs, n - 1) + [DataRow(recs[n - 1])]
  }

  /** The lines written for the 1-based cluster `i`. */
  function Block(i: int, c: Cluster): seq<ReportLine> {
    [ClusterHeader(i, c.score), ColumnNames] + RowLines(c.records, |c.records|)
  }

  /** The blocks of the first `n` clusters, numbered from 1. */
  function Blocks(cs: seq<Cluster>, n: nat): seq<ReportLine>
    requires n <= |cs|
    decreases n
  {
    if n == 0 then [] else Blocks(cs, n - 1) + Block(n, cs[n - 1])
  }

  /** The whole file: `None` and the empty report both give the single "no clusters" line. */
  function ReportLines(report: Option<seq<Cluster>>): seq<ReportLine> {
    if report.None? || report.value == [] then [NoClusters]
    else Blocks(report.value, |report.value|)
  }

  /** How many lines the clusters before index `k` take up. */
  function Offset(cs: seq<Cluster>, k: nat): nat
    requires k <= |cs|
    decreases k
  {
    if k == 0 then 0 else Offset(cs, k - 1) + 2 + |cs[k - 1].records|
  }

  /** `save_cluster_report`: writes the report line by line; `text` is what the file then holds. */
  method SaveClusterReport(report: Option<seq<Cluster>>, num: Numerals) returns (lines: seq<ReportLine>, text: seq<string>)
    ensures lines == ReportLines(report)
    ensures text == FileText(lines, num)
  {
    if report.None? || report.value == [] {
      lines := [NoClusters];
    } else {
      var cs := report.value;
      lines := [];
      var i := 0;
      while i < |cs|
        invariant 0 <= i <= |cs|
        invariant lines == Blocks(cs, i)
      {
        var c := cs[i];
        lines := lines + [ClusterHeader(i + 1, c.score), ColumnNames];
        var j := 0;
        while j < |c.records|
          invariant 0 <= j <= |c.records|
          invariant lines == Blocks(cs, i) + [ClusterHeader(i + 1, c.score), ColumnNames] + RowLines(c.records, j)
        {
          lines := lines + [DataRow(c.records[j])];
          j := j + 1;
        }
        i := i + 1;
      }
    }
    text := FileText(lines, num);
  }

  /** The first `n` saved clusters take `Offset(cs, n)` lines. */
  lemma {:induction false} BlocksLength(cs: seq<Cluster>, n: nat)
    requires n <= |cs|
    ensures |Blocks(cs, n)| == Offset(cs, n)
    decreases n
  {
    if n > 0 {
      BlocksLength(cs, n - 1);
    }
  }

  /** Saving more clusters only appends lines: the first `m` blocks stay in front. */
  lemma {:induction false} BlocksPrefix(cs: seq<Cluster>, m: nat, n: nat)
    requires m <= n <= |cs|
    ensures Offset(cs, m) <= |Blocks(cs, n)|
    ensures Blocks(cs, n)[..Offset(cs, m)] == Blocks(cs, m)
    decreases n
  {
    BlocksLength(cs, m);
    if m < n {
      BlocksPrefix(cs, m, n - 1);
      BlocksLength(cs, n - 1);
      assert Blocks(cs, n) == Blocks(cs, n - 1) + Block(n, cs[n - 1]);
    }
  }

  /**
   * Cluster `k` (0-based) occupies exactly the lines from `Offset(cs, k)` to
   * `Offset(cs, k + 1)`: its header numbered `k + 1`, the column header, then
   * one row per record in order.
   */
  lemma SavedLayout(cs: seq<Cluster>, k: nat, n: nat)
    requires k < n <= |cs|
    ensures Offset(cs, k + 1) <= |Blocks(cs, n)|
    ensures Blocks(cs, n)[Offset(cs, k)..Offset(cs, k + 1)] == Block(k + 1, cs[k])
  {
    BlocksPrefix(cs, k + 1, n);
    BlocksLength(cs, k);
    var all := Blocks(cs, n);
    assert all[..Offset(cs, k + 1)] == Blocks(cs, k) + Block(k + 1, cs[k]);
    assert all[Offset(cs, k)..Offset(cs, k + 1)] == all[..Offset(cs, k + 1)][Offset(cs, k)..];
  }

  /** Each data row has exactly 13 tab-separated fields when no field holds a tab. */
  lemma RowHasThirteenFields(rec: ChartRecord, num: Numerals)
    requires forall i :: 0 <= i < 13 ==> '\t' !in Fields(rec, num)[i]
    ensures Split(Render(DataRow(rec), num), '\t') == Fields(rec, num)
  {
    SplitJoin(Fields(rec, num), '\t');
  }
}

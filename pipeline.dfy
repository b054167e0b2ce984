/**
 * The driver's scan along the genome (`main`, from the window check to the
 * filtered sheet): each window's genes are submitted, the report is saved and
 * parsed back, a filtered row is added to the table, and the table's filtered
 * view is built at the end.
 */
module Pipeline {
  import opened Wrappers
  import opened Text
  import opened Windows
  import opened ClusterReport
  import opened ReportParser
  import opened EnrichmentClient
  import opened Summary

  /** The command-line settings the scan depends on. */
  datatype Settings = Settings(
    windowSize: int,
    stepSize: int,
    retries: int,
    wait: real,
    pvalThreshold: real,
    maxClusters: int)

  /** What attempt `a` at submitting a gene list under a list name gives. */
  type Service = (seq<int>, string, nat) -> Attempt

  /** How the scan ends. */
  datatype Run =
    | GenesTooFew                      // logged, then `sys.exit(1)`, before any request
    | StepZero                         // `range()` raises `ValueError`
    | ScoreRaised(window: string)      // `float()` on a saved score raises `ValueError`
    | TooFewClusters(window: string)   // the row literal raises `IndexError`
    | NoTable                          // no window at all: the empty table raises `KeyError`
    | Tabulated(table: seq<Record>, view: seq<ViewRow>)

  /** Python's slice index for a list of length `n`: negative counts from the end, then clamped. */
  function SliceIndex(i: int, n: nat): (r: nat)
    ensures r <= n
  {
    if i < 0 then (if n + i < 0 then 0 else n + i) else if i > n then n else i
  }

  /** Python's `s[i:j]`. */
  function PySlice(s: seq<int>, i: int, j: int): (r: seq<int>)
    ensures 0 <= i <= j <= |s| ==> r == s[i..j]
  {
    var lo := SliceIndex(i, |s|);
    var hi := SliceIndex(j, |s|);
    if lo < hi then s[lo..hi] else []
  }

  /** The attempts made for one window: its genes, under its list name. */
  function AttemptsFor(service: Service, genes: seq<int>, name: string): nat -> Attempt {
    (a: nat) => service(genes, name, a)
  }

  /** One window's row, or how processing it failed. */
  datatype WindowResult = Row(rec: Record) | ScoreFailed | RowFailed

  /** The lines of the report file saved for a window, after its requests. */
  function WindowFile(genes: seq<int>, win: Window, service: Service, cfg: Settings, num: Numerals): seq<string> {
    var o := Retry(AttemptsFor(service, PySlice(genes, win.start, win.end), FilePrefix(win)), cfg.retries, cfg.wait);
    FileText(ReportLines(o.report), num)
  }

  /** The row built from a parse and filtered, or how building it failed. */
  function RowFrom(e: Extraction, name: string, threshold: real): WindowResult {
    match e
    case ScoreNotNumeric => ScoreFailed
    case Extracted(cols) =>
      match BuildRecord(name, cols)
      case None => RowFailed
      case Some(rec) => Row(Filtered(rec, threshold))
  }

  /** Submit, save, parse back, build the row and filter it. */
  function ProcessWindow(genes: seq<int>, win: Window, service: Service, cfg: Settings, num: Numerals): WindowResult {
    RowFrom(Extract(Some(WindowFile(genes, win, service, cfg, num)), cfg.maxClusters, num), Label(win), cfg.pvalThreshold)
  }

  /** How each window of a scan is processed. */
  function Processor(genes: seq<int>, service: Service, cfg: Settings, num: Numerals): Window -> WindowResult {
    win => ProcessWindow(genes, win, service, cfg, num)
  }

  /** `proc` gives each window the result `ProcessWindow` gives it. */
  ghost predicate ProcessesWindows(proc: Window -> WindowResult, genes: seq<int>, service: Service, cfg: Settings, num: Numerals) {
    forall win {:trigger ProcessWindow(genes, win, service, cfg, num)} ::
      proc(win) == ProcessWindow(genes, win, service, cfg, num)
  }

  /** The table after the first `n` windows, or the failure that ended the scan. */
  datatype Progress = Rows(table: seq<Record>) | Stopped(failure: Run)

  function TableOf(ws: seq<Window>, n: nat, proc: Window -> WindowResult): (p: Progress)
    requires n <= |ws|
    ensures p.Stopped? ==> p.failure.ScoreRaised? || p.failure.TooFewClusters?
    decreases n
  {
    if n == 0 then Rows([])
    else
      match TableOf(ws, n - 1, proc)
      case Stopped(f) => Stopped(f)
      case Rows(t) =>
        match proc(ws[n - 1])
        case Row(rec) => Rows(t + [rec])
        case ScoreFailed => Stopped(ScoreRaised(Label(ws[n - 1])))
        case RowFailed => Stopped(TooFewClusters(Label(ws[n - 1])))
  }

  /** The scan of `n` genes, each window being processed by `proc`. */
  function ScanWith(n: nat, cfg: Settings, proc: Window -> WindowResult): (r: Run)
    ensures r.GenesTooFew? <==> n < cfg.windowSize
    ensures r.StepZero? <==> n >= cfg.windowSize && cfg.stepSize == 0
  {
    match PlanWindows(n, cfg.windowSize, cfg.stepSize)
    case TooFewGenes => GenesTooFew
    case StepIsZero => StepZero
    case Planned(ws) =>
      match TableOf(ws, |ws|, proc)
      case Stopped(f) => f
      case Rows(t) =>
        match FilteredView(t)
        case None => NoTable
        case Some(v) => Tabulated(t, v)
  }

  /** The whole scan: what `main` ends with, from the gene list on. */
  function Scan(genes: seq<int>, service: Service, cfg: Settings, num: Numerals): Run {
    ScanWith(|genes|, cfg, Processor(genes, service, cfg, num))
  }

  /** The table depends on the windows' results only. */
  lemma {:induction false} TableAgrees(ws: seq<Window>, n: nat, p: Window -> WindowResult, q: Window -> WindowResult)
    requires n <= |ws|
    requires forall i :: 0 <= i < n ==> p(ws[i]) == q(ws[i])
    ensures TableOf(ws, n, p) == TableOf(ws, n, q)
    decreases n
  {
    if n > 0 {
      TableAgrees(ws, n - 1, p, q);
    }
  }

  /** Any `proc` that processes the windows as `ProcessWindow` does gives the scan `Scan`. */
  lemma ScanAgrees(genes: seq<int>, service: Service, cfg: Settings, num: Numerals, proc: Window -> WindowResult)
    requires ProcessesWindows(proc, genes, service, cfg, num)
    ensures Scan(genes, service, cfg, num) == ScanWith(|genes|, cfg, proc)
  {
    var plan := PlanWindows(|genes|, cfg.windowSize, cfg.stepSize);
    if plan.Planned? {
      var ws := plan.windows;
      var q := Processor(genes, service, cfg, num);
      forall i | 0 <= i < |ws|
        ensures proc(ws[i]) == q(ws[i])
      {
        assert q(ws[i]) == ProcessWindow(genes, ws[i], service, cfg, num);
      }
      TableAgrees(ws, |ws|, proc, q);
    }
  }

  /** The body of the driver's loop: one window's request, saved report, parse and row. */
  method ScanWindow(genes: seq<int>, win: Window, service: Service, cfg: Settings, num: Numerals,
                    ghost proc: Window -> WindowResult)
    returns (result: WindowResult)
    requires cfg.wait >= 0.0
    requires ProcessesWindows(proc, genes, service, cfg, num)
    ensures result == proc(win)
  {
    var subset := PySlice(genes, win.start, win.end);
    var report, attempts, sleeps := AnalyzeGeneList(AttemptsFor(service, subset, FilePrefix(win)), cfg.retries, cfg.wait);
    var lines, text := SaveClusterReport(report, num);
    assert text == WindowFile(genes, win, service, cfg, num);
    var e := ExtractClusters(Some(text), cfg.maxClusters, num);
    if e.ScoreNotNumeric? {
      result := ScoreFailed;
    } else {
      var row := BuildRecord(Label(win), e.columns);
      if row.None? {
        result := RowFailed;
      } else {
        var rec := FilterSecondary(row.value, cfg.pvalThreshold);
        result := Row(rec);
      }
    }
    assert result == ProcessWindow(genes, win, service, cfg, num);
  }

  /** The driver's loop over the windows, one request, one saved report and one row per window. */
  method ScanWindows(genes: seq<int>, starts: seq<int>, service: Service, cfg: Settings, num: Numerals,
                     ghost proc: Window -> WindowResult)
    returns (progress: Progress)
    requires cfg.wait >= 0.0
    requires ProcessesWindows(proc, genes, service, cfg, num)
    ensures progress == TableOf(WindowsAt(starts, cfg.windowSize), |starts|, proc)
  {
    ghost var ws := WindowsAt(starts, cfg.windowSize);
    var table: seq<Record> := [];
    for i := 0 to |starts|
      invariant TableOf(ws, i, proc) == Rows(table)
    {
      var win := Window(starts[i], starts[i] + cfg.windowSize);
      assert win == ws[i];
      var result := ScanWindow(genes, win, service, cfg, num, proc);
      TableStep(ws, i, proc, table);
      match result
      case ScoreFailed =>
        return Stopped(ScoreRaised(Label(win)));
      case RowFailed =>
        return Stopped(TooFewClusters(Label(win)));
      case Row(rec) =>
        table := table + [rec];
    }
    return Rows(table);
  }

  /** `main` from the gene list on: the window check, the scan, and the filtered sheet. */
  method ScanGenome(genes: seq<int>, service: Service, cfg: Settings, num: Numerals, ghost proc: Window -> WindowResult)
    returns (run: Run)
    requires cfg.wait >= 0.0
    requires ProcessesWindows(proc, genes, service, cfg, num)
    ensures run == ScanWith(|genes|, cfg, proc)
  {
    if |genes| < cfg.windowSize {
      return GenesTooFew;
    }
    if cfg.stepSize == 0 {
      return StepZero;
    }
    var starts := PyRange(0, |genes| - cfg.windowSize + 1, cfg.stepSize);
    assert PlanWindows(|genes|, cfg.windowSize, cfg.stepSize) == Planned(WindowsAt(starts, cfg.windowSize));
    var progress := ScanWindows(genes, starts, service, cfg, num, proc);
    match progress
    case Stopped(failure) =>
      return failure;
    case Rows(table) =>
      var view := FilteredView(table);
      if view.None? {
        return NoTable;
      }
      return Tabulated(table, view.value);
  }

  /** One more window: its row extends the table, or its failure is where the whole scan stops. */
  lemma TableStep(ws: seq<Window>, i: nat, proc: Window -> WindowResult, table: seq<Record>)
    requires i < |ws| && TableOf(ws, i, proc) == Rows(table)
    ensures proc(ws[i]).Row? ==> TableOf(ws, i + 1, proc) == Rows(table + [proc(ws[i]).rec])
    ensures proc(ws[i]).ScoreFailed? ==> TableOf(ws, |ws|, proc) == Stopped(ScoreRaised(Label(ws[i])))
    ensures proc(ws[i]).RowFailed? ==> TableOf(ws, |ws|, proc) == Stopped(TooFewClusters(Label(ws[i])))
  {
    if !proc(ws[i]).Row? {
      StoppedStays(ws, i + 1, |ws|, proc);
    }
  }

  /** A scan that has stopped stays stopped with the same failure. */
  lemma {:induction false} StoppedStays(ws: seq<Window>, m: nat, n: nat, proc: Window -> WindowResult)
    requires m <= n <= |ws|
    requires TableOf(ws, m, proc).Stopped?
    ensures TableOf(ws, n, proc) == TableOf(ws, m, proc)
    decreases n
  {
    if m < n {
      StoppedStays(ws, m, n - 1, proc);
    }
  }

  /** A table that was built has one row per window, the `i`-th being window `i`'s processed row. */
  lemma {:induction false} TableRows(ws: seq<Window>, n: nat, proc: Window -> WindowResult)
    requires n <= |ws|
    requires TableOf(ws, n, proc).Rows?
    ensures var t := TableOf(ws, n, proc).table;
      |t| == n && forall i :: 0 <= i < n ==> proc(ws[i]) == Row(t[i])
    decreases n
  {
    if n > 0 {
      TableRows(ws, n - 1, proc);
    }
  }

  /** A row that carries its window's label and only secondary clusters within the threshold. */
  predicate RowFits(res: WindowResult, win: Window, threshold: real) {
    res.Row? ==>
      && res.rec.window == Label(win)
      && (res.rec.c2.pval.Some? ==> res.rec.c2.pval.value <= threshold)
      && (res.rec.c3.pval.Some? ==> res.rec.c3.pval.value <= threshold)
  }

  /** Whatever the parse gave, a row built from it is labelled and filtered. */
  lemma RowFromFits(e: Extraction, win: Window, threshold: real)
    ensures RowFits(RowFrom(e, Label(win), threshold), win, threshold)
  {
    if RowFrom(e, Label(win), threshold).Row? {
      var rec := RowFrom(e, Label(win), threshold).rec;
      assert SlotOf(rec, 2) == rec.c2 && SlotOf(rec, 3) == rec.c3;
    }
  }

  /** A processed row is labelled with its window and passed the p-value filter on clusters 2 and 3. */
  lemma RowOfWindow(genes: seq<int>, win: Window, service: Service, cfg: Settings, num: Numerals)
    ensures RowFits(ProcessWindow(genes, win, service, cfg, num), win, cfg.pvalThreshold)
  {
    RowFromFits(Extract(Some(WindowFile(genes, win, service, cfg, num)), cfg.maxClusters, num), win, cfg.pvalThreshold);
  }

  /** Every row of a processor that processes the windows as the driver does fits its window. */
  lemma ProcessorFits(genes: seq<int>, service: Service, cfg: Settings, num: Numerals, proc: Window -> WindowResult)
    requires ProcessesWindows(proc, genes, service, cfg, num)
    ensures forall win :: RowFits(proc(win), win, cfg.pvalThreshold)
  {
    forall win
      ensures RowFits(proc(win), win, cfg.pvalThreshold)
    {
      RowOfWindow(genes, win, service, cfg, num);
    }
  }

  /** A finished table of a processor whose rows fit their windows: row `i` fits window `i`. */
  lemma TableFits(ws: seq<Window>, proc: Window -> WindowResult, threshold: real)
    requires forall win :: RowFits(proc(win), win, threshold)
    requires TableOf(ws, |ws|, proc).Rows?
    ensures var t := TableOf(ws, |ws|, proc).table;
      && |t| == |ws|
      && forall i :: 0 <= i < |t| ==>
        && t[i].window == Label(ws[i])
        && (t[i].c2.pval.Some? ==> t[i].c2.pval.value <= threshold)
        && (t[i].c3.pval.Some? ==> t[i].c3.pval.value <= threshold)
  {
    TableRows(ws, |ws|, proc);
    var t := TableOf(ws, |ws|, proc).table;
    forall i | 0 <= i < |t|
      ensures RowFits(Row(t[i]), ws[i], threshold)
    {
      assert RowFits(proc(ws[i]), ws[i], threshold);
    }
  }

  /** A scan that completes went through a plan of windows, a table of rows, and the sheet of that table. */
  lemma TabulatedParts(n: nat, cfg: Settings, proc: Window -> WindowResult)
    requires ScanWith(n, cfg, proc).Tabulated?
    ensures PlanWindows(n, cfg.windowSize, cfg.stepSize).Planned?
    ensures var r := ScanWith(n, cfg, proc);
      var ws := PlanWindows(n, cfg.windowSize, cfg.stepSize).windows;
      && TableOf(ws, |ws|, proc) == Rows(r.table)
      && FilteredView(r.table) == Some(r.view)
  {
  }

  /**
   * A scan that completes, by any processor whose rows fit their windows (the
   * driver's does, by `ProcessorFits`), has one row per planned window, in
   * window order, labelled with its window and filtered at the threshold.
   */
  lemma CompletedTable(n: nat, cfg: Settings, proc: Window -> WindowResult)
    requires forall win :: RowFits(proc(win), win, cfg.pvalThreshold)
    requires ScanWith(n, cfg, proc).Tabulated?
    ensures PlanWindows(n, cfg.windowSize, cfg.stepSize).Planned?
    ensures var t := ScanWith(n, cfg, proc).table;
      var ws := PlanWindows(n, cfg.windowSize, cfg.stepSize).windows;
      && |t| == |ws|
      && (forall i :: 0 <= i < |t| ==>
            && t[i].window == Label(ws[i])
            && (t[i].c2.pval.Some? ==> t[i].c2.pval.value <= cfg.pvalThreshold)
            && (t[i].c3.pval.Some? ==> t[i].c3.pval.value <= cfg.pvalThreshold))
  {
    TabulatedParts(n, cfg, proc);
    TableFits(PlanWindows(n, cfg.windowSize, cfg.stepSize).windows, proc, cfg.pvalThreshold);
  }

  /**
   * A scan that completes had at least `W` genes and a positive step, so its
   * windows are those `WindowEnumeration` lists, and its table has one row
   * for each of them: `(N - W) / S + 1` rows.
   */
  lemma CompletedWindows(n: nat, cfg: Settings, proc: Window -> WindowResult)
    requires ScanWith(n, cfg, proc).Tabulated?
    ensures n >= cfg.windowSize && cfg.stepSize > 0
    ensures |ScanWith(n, cfg, proc).table| == (n - cfg.windowSize) / cfg.stepSize + 1
  {
    TabulatedParts(n, cfg, proc);
    var ws := PlanWindows(n, cfg.windowSize, cfg.stepSize).windows;
    TableRows(ws, |ws|, proc);
    PlannedWindowCount(n, cfg.windowSize, cfg.stepSize);
  }

  /**
   * The sheet of a completed scan is ordered by `Enrich1` and holds the
   * projections of the table's rows with some p-value, each as often.
   */
  lemma CompletedView(n: nat, cfg: Settings, proc: Window -> WindowResult)
    requires ScanWith(n, cfg, proc).Tabulated?
    ensures var r := ScanWith(n, cfg, proc);
      && SortedByEnrich1(r.view)
      && multiset(r.view) == multiset(ProjectAll(Kept(r.table)))
  {
    TabulatedParts(n, cfg, proc);
    FilteredViewContents(ScanWith(n, cfg, proc).table);
  }

  /** A negative step plans no window, so the empty table has no p-value columns to filter on. */
  lemma NegativeStepHasNoTable(genes: seq<int>, service: Service, cfg: Settings, num: Numerals)
    requires |genes| >= cfg.windowSize && cfg.stepSize < 0
    ensures Scan(genes, service, cfg, num) == NoTable
  {
    NegativeStepNoWindows(|genes|, cfg.windowSize, cfg.stepSize);
  }

  /**
   * Asking for fewer than three clusters makes the first window fail: with at
   * least one window, the scan never completes.
   */
  lemma FewClustersNeverComplete(genes: seq<int>, service: Service, cfg: Settings, num: Numerals)
    requires 0 <= cfg.maxClusters < 3
    requires |genes| >= cfg.windowSize && cfg.stepSize > 0
    ensures var r := Scan(genes, service, cfg, num);
      r.TooFewClusters? || r.ScoreRaised?
  {
    var ws := PlanWindows(|genes|, cfg.windowSize, cfg.stepSize).windows;
    WindowEnumeration(|genes|, cfg.windowSize, cfg.stepSize);
    var win := ws[0];
    var o := Retry(AttemptsFor(service, PySlice(genes, win.start, win.end), FilePrefix(win)), cfg.retries, cfg.wait);
    var file := Some(FileText(ReportLines(o.report), num));
    if Extract(file, cfg.maxClusters, num).Extracted? {
      RowNeedsThreeClusters(Label(win), file, cfg.maxClusters, num);
    }
    var proc := Processor(genes, service, cfg, num);
    assert TableOf(ws, 1, proc).Stopped?;
    StoppedStays(ws, 1, |ws|, proc);
  }

  /** Each window submits exactly its `W` genes, in genome order. */
  lemma WindowGenes(genes: seq<int>, cfg: Settings, i: nat)
    requires |genes| >= cfg.windowSize >= 0 && cfg.stepSize > 0
    requires i < |PlanWindows(|genes|, cfg.windowSize, cfg.stepSize).windows|
    ensures var win := PlanWindows(|genes|, cfg.windowSize, cfg.stepSize).windows[i];
      && 0 <= i * cfg.stepSize <= i * cfg.stepSize + cfg.windowSize <= |genes|
      && PySlice(genes, win.start, win.end) == genes[i * cfg.stepSize .. i * cfg.stepSize + cfg.windowSize]
  {
    var n, w, s := |genes|, cfg.windowSize, cfg.stepSize;
    WindowEnumeration(n, w, s);
    var win := PlanWindows(n, w, s).windows[i];
    assert win.start == i * s && win.end == i * s + w <= n;
    MultiplyMonotone(0, i, s);
  }
}

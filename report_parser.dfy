/**
 * Reading a saved cluster report back (`extract_clusters_from_txt`): a
 * line-by-line state machine that collects, per cluster, the enrichment
 * score, the p-value and count of the first data row, and up to three term
 * names, then pads or cuts every column to `max_clusters` entries.
 */
module ReportParser {
  import opened Wrappers
  import opened Text

  const ClusterPrefix: string := "Annotation Cluster"
  const ColumnsPrefix: string := "Category\tTerm"
  const MarkerPrefix: string := "No clusters returned"
  const ScoreKey: string := "EnrichmentScore:"


  // ---------------------------------------------------------------------
  // The score regular expression `EnrichmentScore:([\-0-9\.eE]+)`
  // ---------------------------------------------------------------------

  /** The character class `[\-0-9\.eE]`. */
  predicate InScoreClass(c: char) {
    c == '-' || IsDigit(c) || c == '.' || c == 'e' || c == 'E'
  }

  /** The greedy `[\-0-9\.eE]+` part: the longest prefix of `s` inside the class. */
  function ClassRun(s: string): (r: string)
    ensures |r| <= |s| && r == s[..|r|]
    ensures forall i :: 0 <= i < |r| ==> InScoreClass(r[i])
    ensures |r| < |s| ==> !InScoreClass(s[|r|])
    decreases |s|
  {
    if |s| > 0 && InScoreClass(s[0]) then [s[0]] + ClassRun(s[1..]) else []
  }

  /** The pattern matches at position `i` of `line`. */
  predicate MatchAt(line: string, i: nat) {
    i + |ScoreKey| < |line| && line[i..i + |ScoreKey|] == ScoreKey && InScoreClass(line[i + |ScoreKey|])
  }

  /** `re.search` from position `i`: the leftmost position where the pattern matches. */
  function MatchFrom(line: string, i: nat): (p: Option<nat>)
    requires i <= |line|
    ensures p.Some? ==> i <= p.value && MatchAt(line, p.value)
    ensures p.Some? ==> forall j :: i <= j < p.value ==> !MatchAt(line, j)
    ensures p.None? ==> forall j :: i <= j ==> !MatchAt(line, j)
    decreases |line| - i
  {
    if i == |line| then None
    else if MatchAt(line, i) then Some(i)
    else MatchFrom(line, i + 1)
  }

  /** `m.group(1)` of the leftmost match, or `None` when the search fails. */
  function ScoreGroup(line: string): Option<string> {
    match MatchFrom(line, 0)
    case None => None
    case Some(p) => Some(ClassRun(line[p + |ScoreKey|..]))
  }

  /** The score of a cluster-header line: none, a number, or the `ValueError` of `float()`. */
  datatype ScoreRead = NoScore | ScoreValue(x: real) | ScoreRaises

  function ReadScore(line: string, num: Numerals): (r: ScoreRead)
    ensures r.NoScore? <==> ScoreGroup(line).None?
    ensures r.ScoreRaises? <==> ScoreGroup(line).Some? && num.parseReal(ScoreGroup(line).value).None?
    ensures r.ScoreValue? ==> num.parseReal(ScoreGroup(line).value) == Some(r.x)
  {
    match ScoreGroup(line)
    case None => NoScore
    case Some(g) =>
      match num.parseReal(g)
      case None => ScoreRaises
      case Some(x) => ScoreValue(x)
  }

  // ---------------------------------------------------------------------
  // The line state machine
  // ---------------------------------------------------------------------

  /** What the parser has gathered about the cluster it is reading. */
  datatype Acc = Acc(terms: seq<string>, firstPval: Option<real>, size: Option<int>)

  const EmptyAcc := Acc([], None, None)

  /** The local variables of `extract_clusters_from_txt` between two lines. */
  datatype ParserState = ParserState(
    scores: seq<Option<real>>,
    pvals: seq<Option<real>>,
    termsList: seq<seq<string>>,
    sizes: seq<Option<int>>,
    current: Acc,
    insideData: bool)

  const Init := ParserState([], [], [], [], EmptyAcc, false)

  /**
   * Closing a cluster: when it has terms, its first three terms, size and
   * p-value are appended and the accumulator is reset; otherwise nothing
   * happens at all.
   */
  function Flush(st: ParserState): (r: ParserState)
    ensures r.scores == st.scores && r.insideData == st.insideData
    ensures st.current.terms == [] ==> r == st
    ensures st.current.terms != [] ==>
      && r.termsList == st.termsList + [PyPrefix(st.current.terms, 3)]
      && r.pvals == st.pvals + [st.current.firstPval]
      && r.sizes == st.sizes + [st.current.size]
      && r.current == EmptyAcc
  {
    if st.current.terms == [] then st
    else st.(termsList := st.termsList + [PyPrefix(st.current.terms, 3)],
             sizes := st.sizes + [st.current.size],
             pvals := st.pvals + [st.current.firstPval],
             current := EmptyAcc)
  }

  /** The tab-separated fields of a data line, after `strip()`. */
  function RowFields(line: string): seq<string> {
    Split(Strip(line), '\t')
  }

  /**
   * A data line: with at least 13 fields it contributes its term (field 1);
   * while the cluster has no p-value yet, field 4 is tried as the p-value
   * and field 2 as the size.
   */
  function AddRow(acc: Acc, fields: seq<string>, num: Numerals): (r: Acc)
    ensures |fields| < 13 ==> r == acc
    ensures |fields| >= 13 ==> r.terms == acc.terms + [fields[1]]
    ensures acc.firstPval.Some? ==> r.firstPval == acc.firstPval && r.size == acc.size
    ensures acc.firstPval.None? && |fields| >= 13 ==>
      r.firstPval == num.parseReal(fields[4]) && r.size == num.parseInt(fields[2])
  {
    if |fields| < 13 then acc
    else if acc.firstPval.None? then Acc(acc.terms + [fields[1]], num.parseReal(fields[4]), num.parseInt(fields[2]))
    else acc.(terms := acc.terms + [fields[1]])
  }

  /** A line the parser reads as a data row when it is inside a cluster's table. */
  predicate IsDataLine(line: string) {
    Strip(line) != "" && !StartsWith(line, MarkerPrefix)
  }

  /** One iteration of the line loop; `None` when `float()` raises on the score. */
  function Step(st: ParserState, line: string, num: Numerals): Option<ParserState> {
    if StartsWith(line, ClusterPrefix) then
      var f := Flush(st);
      match ReadScore(line, num)
      case ScoreRaises => None
      case NoScore => Some(f.(scores := f.scores + [None], insideData := false))
      case ScoreValue(x) => Some(f.(scores := f.scores + [Some(x)], insideData := false))
    else if StartsWith(line, ColumnsPrefix) then Some(st.(insideData := true))
    else if st.insideData && IsDataLine(line) then Some(st.(current := AddRow(st.current, RowFields(line), num)))
    else Some(st)
  }

  /** The state after the lines `lines`, read in order from `st`. */
  function RunFrom(st: ParserState, lines: seq<string>, num: Numerals): Option<ParserState>
    decreases |lines|
  {
    if lines == [] then Some(st)
    else
      match RunFrom(st, lines[..|lines| - 1], num)
      case None => None
      case Some(s) => Step(s, lines[|lines| - 1], num)
  }

  /** Reading one more line. */
  lemma RunOneMore(st: ParserState, lines: seq<string>, n: nat, num: Numerals)
    requires n < |lines|
    ensures RunFrom(st, lines[..n + 1], num) ==
      match RunFrom(st, lines[..n], num)
      case None => None
      case Some(s) => Step(s, lines[n], num)
  {
    assert lines[..n + 1][..n] == lines[..n];
  }

  /** Once `float()` has raised, no later line brings the parse back. */
  lemma {:induction false} RaisedStaysRaised(st: ParserState, lines: seq<string>, n: nat, m: nat, num: Numerals)
    requires n <= m <= |lines|
    requires RunFrom(st, lines[..n], num).None?
    ensures RunFrom(st, lines[..m], num).None?
    decreases m - n
  {
    if n < m {
      RunOneMore(st, lines, n, num);
      RaisedStaysRaised(st, lines, n + 1, m, num);
    }
  }

  /** Reading `a` then `b` is reading `a + b`. */
  lemma {:induction false} RunAppend(st: ParserState, a: seq<string>, b: seq<string>, num: Numerals)
    ensures RunFrom(st, a + b, num) ==
      match RunFrom(st, a, num)
      case None => None
      case Some(s) => RunFrom(s, b, num)
    decreases |b|
  {
    if b == [] {
      assert a + b == a;
    } else {
      var b' := b[..|b| - 1];
      assert (a + b)[..|a + b| - 1] == a + b';
      RunAppend(st, a, b', num);
    }
  }

  // ---------------------------------------------------------------------
  // Padding, cutting and cleaning
  // ---------------------------------------------------------------------

  /** Python's `[x] * n`. */
  function Fill<T>(x: T, n: int): (r: seq<T>)
    ensures |r| == Max(n, 0)
    ensures forall i :: 0 <= i < |r| ==> r[i] == x
  {
    if n <= 0 then [] else seq(n, _ => x)
  }

  /** `while len(s) < k: s.append(x)`. */
  function Pad<T>(s: seq<T>, k: int, x: T): (r: seq<T>)
    ensures |r| == Max(|s|, k)
    ensures r[..|s|] == s
    ensures forall i :: |s| <= i < |r| ==> r[i] == x
  {
    s + Fill(x, k - |s|)
  }

  /** Python's `s[:k]`, a negative `k` counting from the end. */
  function PyPrefix<T>(s: seq<T>, k: int): (r: seq<T>)
    ensures k >= 0 ==> |r| == Min(k, |s|)
    ensures k < 0 ==> |r| == Max(|s| + k, 0)
    ensures r == s[..|r|]
  {
    if k >= 0 then s[..Min(k, |s|)] else s[..Max(|s| + k, 0)]
  }

  /** The two characters of `[~:]`. */
  predicate IsCut(c: char) {
    c == '~' || c == ':'
  }

  /** What follows the first `~` or `:` of `term`, if it has one. */
  function AfterFirstCut(term: string): (r: Option<string>)
    ensures r.None? <==> forall i :: 0 <= i < |term| ==> !IsCut(term[i])
    ensures r.Some? ==> |r.value| < |term| && r.value == term[|term| - |r.value|..]
    ensures r.Some? ==> IsCut(term[|term| - |r.value| - 1])
    ensures r.Some? ==> forall i :: 0 <= i < |term| - |r.value| - 1 ==> !IsCut(term[i])
    decreases |term|
  {
    if term == [] then None
    else if IsCut(term[0]) then Some(term[1..])
    else AfterFirstCut(term[1..])
  }

  /** `re.split(r"[~:]", term, maxsplit=1)[-1]`: everything up to and including the first `~` or `:` removed. */
  function CleanTerm(term: string): (r: string)
    ensures |r| <= |term| && r == term[|term| - |r|..]
    ensures |r| == |term| <==> forall i :: 0 <= i < |term| ==> !IsCut(term[i])
  {
    match AfterFirstCut(term)
    case None => term
    case Some(rest) => rest
  }

  /** The list comprehension that cleans each term of a cluster, in order. */
  function CleanTerms(terms: seq<string>): (r: seq<string>)
    ensures |r| == |terms| && forall i :: 0 <= i < |terms| ==> r[i] == CleanTerm(terms[i])
    decreases |terms|
  {
    if terms == [] then [] else [CleanTerm(terms[0])] + CleanTerms(terms[1..])
  }

  /** One cell of the terms column: the cleaned terms joined with `"; "`. */
  function TermsCell(terms: seq<string>): string {
    Join(CleanTerms(terms), "; ")
  }

  function TermsCells(termsList: seq<seq<string>>): (r: seq<string>)
    ensures |r| == |termsList|
    ensures forall i :: 0 <= i < |r| ==> r[i] == TermsCell(termsList[i])
  {
    seq(|termsList|, i requires 0 <= i < |termsList| => TermsCell(termsList[i]))
  }

  /** The four columns returned: scores, p-values, term strings, sizes. */
  datatype Columns = Columns(
    scores: seq<Option<real>>,
    pvals: seq<Option<real>>,
    terms: seq<string>,
    sizes: seq<Option<int>>)

  /** The end of the parse: the last cluster is closed, then every column is padded and cut to `k`. */
  function Finish(st: ParserState, k: int): Columns {
    var f := Flush(st);
    Columns(
      PyPrefix(Pad(f.scores, k, None), k),
      PyPrefix(Pad(f.pvals, k, None), k),
      TermsCells(PyPrefix(Pad(f.termsList, k, []), k)),
      PyPrefix(Pad(f.sizes, k, None), k))
  }

  /** The result of parsing: the columns, or the `ValueError` a non-numeric score raises. */
  datatype Extraction = Extracted(columns: Columns) | ScoreNotNumeric

  /** The all-null result returned for a file that does not exist. */
  function NullColumns(k: int): Columns {
    Columns(Fill(None, k), Fill(None, k), Fill("", k), Fill(None, k))
  }

  /** `extract_clusters_from_txt`; `file` is `None` when no such file exists. */
  function Extract(file: Option<seq<string>>, k: int, num: Numerals): Extraction {
    match file
    case None => Extracted(NullColumns(k))
    case Some(lines) =>
      match RunFrom(Init, lines, num)
      case None => ScoreNotNumeric
      case Some(st) => Extracted(Finish(st, k))
  }

  // ---------------------------------------------------------------------
  // The imperative parser
  // ---------------------------------------------------------------------

  /** `while len(s) < k: s.append(x)`. */
  method PadWith<T>(s: seq<T>, k: int, x: T) returns (r: seq<T>)
    ensures r == Pad(s, k, x)
  {
    r := s;
    while |r| < k
      invariant |s| <= |r| && r[..|s|] == s
      invariant forall i :: |s| <= i < |r| ==> r[i] == x
      invariant |s| < k ==> |r| <= k
      invariant |s| >= k ==> r == s
      decreases k - |r|
    {
      r := r + [x];
    }
    assert |r| == Max(|s|, k);
  }

  /** The line loop of `extract_clusters_from_txt`; `None` when `float()` raises on a score. */
  method ScanLines(lines: seq<string>, num: Numerals) returns (outcome: Option<ParserState>)
    ensures outcome == RunFrom(Init, lines, num)
  {
    var scores: seq<Option<real>> := [];
    var pvals: seq<Option<real>> := [];
    var sizes: seq<Option<int>> := [];
    var termsList: seq<seq<string>> := [];
    var currentTerms: seq<string> := [];
    var insideData := false;
    var currentFirstPval: Option<real> := None;
    var currentClusterSize: Option<int> := None;
    var i := 0;
    while i < |lines|
      invariant 0 <= i <= |lines|
      invariant RunFrom(Init, lines[..i], num) ==
        Some(ParserState(scores, pvals, termsList, sizes, Acc(currentTerms, currentFirstPval, currentClusterSize), insideData))
    {
      var line := lines[i];
      RunOneMore(Init, lines, i, num);
      if StartsWith(line, ClusterPrefix) {
        if currentTerms != [] {
          termsList := termsList + [PyPrefix(currentTerms, 3)];
          sizes := sizes + [currentClusterSize];
          pvals := pvals + [currentFirstPval];
          currentTerms, currentFirstPval, currentClusterSize := [], None, None;
        }
        var read := ReadScore(line, num);
        if read.ScoreRaises? {
          RaisedStaysRaised(Init, lines, i + 1, |lines|, num);
          assert lines[..|lines|] == lines;
          return None;
        }
        scores := scores + [if read.ScoreValue? then Some(read.x) else None];
        insideData := false;
      } else if StartsWith(line, ColumnsPrefix) {
        insideData := true;
      } else if insideData && Strip(line) != "" && !StartsWith(line, MarkerPrefix) {
        var fields := Split(Strip(line), '\t');
        if |fields| >= 13 {
          var term := fields[1];
          var pval := num.parseReal(fields[4]);
          if currentFirstPval.None? {
            currentFirstPval := pval;
            currentClusterSize := num.parseInt(fields[2]);
          }
          currentTerms := currentTerms + [term];
        }
      }
      i := i + 1;
    }
    assert lines[..i] == lines;
    outcome := Some(ParserState(scores, pvals, termsList, sizes, Acc(currentTerms, currentFirstPval, currentClusterSize), insideData));
  }

  /** The cleaning loop: one `"; "`-joined cell of cleaned terms per cluster. */
  method CleanTermsColumn(kept: seq<seq<string>>) returns (cleanedTerms: seq<string>)
    ensures cleanedTerms == TermsCells(kept)
  {
    cleanedTerms := [];
    var j := 0;
    while j < |kept|
      invariant 0 <= j <= |kept|
      invariant |cleanedTerms| == j
      invariant forall t :: 0 <= t < j ==> cleanedTerms[t] == TermsCell(kept[t])
    {
      var t := kept[j];
      var cleaned := CleanTerms(t);
      cleanedTerms := cleanedTerms + [Join(cleaned, "; ")];
      j := j + 1;
    }
  }

  /** `extract_clusters_from_txt`; `file` is `None` when no such file exists. */
  method ExtractClusters(file: Option<seq<string>>, k: int, num: Numerals) returns (e: Extraction)
    ensures e == Extract(file, k, num)
  {
    if file.None? {
      return Extracted(NullColumns(k));
    }
    var outcome := ScanLines(file.value, num);
    if outcome.None? {
      return ScoreNotNumeric;
    }
    var st := Flush(outcome.value);
    var scores := PadWith(st.scores, k, None);
    var sizes := PadWith(st.sizes, k, None);
    var pvals := PadWith(st.pvals, k, None);
    var termsList := PadWith(st.termsList, k, []);
    var cleanedTerms := CleanTermsColumn(PyPrefix(termsList, k));
    e := Extracted(Columns(PyPrefix(scores, k), PyPrefix(pvals, k), cleanedTerms, PyPrefix(sizes, k)));
  }

  // ---------------------------------------------------------------------
  // Properties of the parse
  // ---------------------------------------------------------------------

  /** With `max_clusters >= 0`, each of the four columns has exactly `max_clusters` entries. */
  lemma ColumnsHaveRequestedLength(file: Option<seq<string>>, k: int, num: Numerals)
    requires k >= 0
    ensures var e := Extract(file, k, num);
      e.Extracted? ==>
        |e.columns.scores| == k && |e.columns.pvals| == k && |e.columns.terms| == k && |e.columns.sizes| == k
  {
    if file.Some? && RunFrom(Init, file.value, num).Some? {
      var f := Flush(RunFrom(Init, file.value, num).value);
      assert |Pad(f.scores, k, None)| >= k;
      assert |Pad(f.pvals, k, None)| >= k;
      assert |Pad(f.termsList, k, [])| >= k;
      assert |Pad(f.sizes, k, None)| >= k;
    }
  }

  /** Lines that are neither cluster headers nor column headers leave the parser where it started. */
  lemma {:induction false} StaysInitial(lines: seq<string>, num: Numerals)
    requires forall i :: 0 <= i < |lines| ==> !StartsWith(lines[i], ClusterPrefix) && !StartsWith(lines[i], ColumnsPrefix)
    ensures RunFrom(Init, lines, num) == Some(Init)
    decreases |lines|
  {
    if lines != [] {
      StaysInitial(lines[..|lines| - 1], num);
    }
  }

  /**
   * A file without any cluster header or column header (the saved empty
   * report "No clusters returned." among them) parses exactly like a missing
   * file: every score, p-value and size is null and every terms cell empty.
   */
  lemma WithoutHeadersLikeMissing(lines: seq<string>, k: int, num: Numerals)
    requires forall i :: 0 <= i < |lines| ==> !StartsWith(lines[i], ClusterPrefix) && !StartsWith(lines[i], ColumnsPrefix)
    ensures Extract(Some(lines), k, num) == Extract(None, k, num)
    ensures forall i :: 0 <= i < k ==>
      var c := Extract(Some(lines), k, num).columns;
      c.scores[i] == None && c.pvals[i] == None && c.terms[i] == "" && c.sizes[i] == None
  {
    StaysInitial(lines, num);
    var empty: seq<seq<string>> := [];
    var kept := PyPrefix(Pad(empty, k, []), k);
    var cells := TermsCells(kept);
    assert |cells| == |Fill("", k)|;
    forall i | 0 <= i < |cells|
      ensures cells[i] == ""
    {
      assert kept[i] == [];
    }
    assert cells == Fill("", k);
  }

  /** The fields of the data lines among `rows` that have at least 13 fields, in order. */
  function WideRows(rows: seq<string>): (w: seq<seq<string>>)
    ensures |w| <= |rows|
    ensures forall i :: 0 <= i < |w| ==> |w[i]| >= 13
    decreases |rows|
  {
    if rows == [] then []
    else
      var last := rows[|rows| - 1];
      var earlier := WideRows(rows[..|rows| - 1]);
      if IsDataLine(last) && |RowFields(last)| >= 13 then earlier + [RowFields(last)] else earlier
  }

  /** The index of the first wide row whose p-value parses, if any. */
  function FirstParsable(w: seq<seq<string>>, num: Numerals): (r: Option<nat>)
    requires forall i :: 0 <= i < |w| ==> |w[i]| >= 13
    ensures r.Some? ==> r.value < |w| && num.parseReal(w[r.value][4]).Some?
    ensures r.Some? ==> forall j :: 0 <= j < r.value ==> num.parseReal(w[j][4]).None?
    ensures r.None? ==> forall j :: 0 <= j < |w| ==> num.parseReal(w[j][4]).None?
    decreases |w|
  {
    if w == [] then None
    else
      match FirstParsable(w[..|w| - 1], num)
      case Some(i) => Some(i)
      case None => if num.parseReal(w[|w| - 1][4]).Some? then Some(|w| - 1) else None
  }

  /**
   * What a cluster's table contributes, stated without the state machine:
   * the term of every wide data row in order, and the p-value and size of the
   * first wide row whose p-value parses; while none parses, the p-value stays
   * null and the size is that of the latest wide row.
   */
  ghost predicate Summarises(acc: Acc, w: seq<seq<string>>, num: Numerals)
    requires forall i :: 0 <= i < |w| ==> |w[i]| >= 13
  {
    && |acc.terms| == |w|
    && (forall i :: 0 <= i < |w| ==> acc.terms[i] == w[i][1])
    && match FirstParsable(w, num)
       case Some(i) => acc.firstPval == num.parseReal(w[i][4]) && acc.size == num.parseInt(w[i][2])
       case None => acc.firstPval == None && acc.size == (if w == [] then None else num.parseInt(w[|w| - 1][2]))
  }

  /**
   * Reading the table lines of one cluster, after its column header, changes
   * only the accumulator, and the accumulator then summarises the wide rows.
   */
  lemma {:induction false} ClusterAccumulation(st: ParserState, rows: seq<string>, num: Numerals)
    requires st.insideData && st.current == EmptyAcc
    requires forall i :: 0 <= i < |rows| ==> !StartsWith(rows[i], ClusterPrefix) && !StartsWith(rows[i], ColumnsPrefix)
    ensures RunFrom(st, rows, num).Some?
    ensures RunFrom(st, rows, num).value == st.(current := RunFrom(st, rows, num).value.current)
    ensures Summarises(RunFrom(st, rows, num).value.current, WideRows(rows), num)
    decreases |rows|
  {
    if rows != [] {
      var earlier := rows[..|rows| - 1];
      var last := rows[|rows| - 1];
      ClusterAccumulation(st, earlier, num);
      var acc := RunFrom(st, earlier, num).value.current;
      if IsDataLine(last) && |RowFields(last)| >= 13 {
        SummarisesOneMore(acc, WideRows(earlier), RowFields(last), num);
      }
    }
  }

  /** One more wide row keeps the accumulator summarising the wide rows read so far. */
  lemma SummarisesOneMore(acc: Acc, w: seq<seq<string>>, fields: seq<string>, num: Numerals)
    requires forall i :: 0 <= i < |w| ==> |w[i]| >= 13
    requires |fields| >= 13
    requires Summarises(acc, w, num)
    ensures Summarises(AddRow(acc, fields, num), w + [fields], num)
  {
    var w' := w + [fields];
    var acc' := AddRow(acc, fields, num);
    assert w'[..|w|] == w;
    forall i | 0 <= i < |w'|
      ensures acc'.terms[i] == w'[i][1]
    {
      if i < |w| {
        assert w'[i] == w[i];
      }
    }
    match FirstParsable(w, num)
    case Some(i) =>
      assert w'[i] == w[i];
    case None =>
  }

  /**
   * `strip()` also removes tabs: a row whose first field is empty loses that
   * field, so a 13-field row is read with 12 fields and contributes nothing.
   */
  lemma LeadingEmptyFieldDropsRow(fields: seq<string>, acc: Acc, num: Numerals)
    requires |fields| == 13 && fields[0] == ""
    requires forall i :: 0 <= i < 13 ==> '\t' !in fields[i]
    requires fields[1] != "" && !IsSpace(fields[1][0])
    requires fields[12] != "" && !IsSpace(fields[12][|fields[12]| - 1])
    ensures RowFields(Join(fields, "\t")) == fields[1..]
    ensures AddRow(acc, RowFields(Join(fields, "\t")), num) == acc
  {
    var rest := fields[1..];
    var r := Join(rest, "\t");
    assert Join(fields, "\t") == "" + "\t" + r;
    JoinEnds(rest, "\t");
    assert rest[11] == fields[12];
    assert StripLeft("\t" + r) == StripLeft(r) by {
      assert ("\t" + r)[1..] == r;
    }
    assert StripLeft(r) == r;
    assert StripRight(r) == r;
    SplitJoin(rest, '\t');
  }

  /**
   * A cluster without data rows adds a score but nothing to the other
   * columns, so the rows of the next cluster are reported in its place: here
   * the first cluster gets the second cluster's p-value, size and term.
   */
  lemma EmptyClusterShiftsColumns(h1: string, h2: string, c: string, row: string, num: Numerals)
    requires StartsWith(h1, ClusterPrefix) && StartsWith(h2, ClusterPrefix)
    requires !ReadScore(h1, num).ScoreRaises? && !ReadScore(h2, num).ScoreRaises?
    requires StartsWith(c, ColumnsPrefix) && !StartsWith(c, ClusterPrefix)
    requires !StartsWith(row, ClusterPrefix) && !StartsWith(row, ColumnsPrefix)
    requires IsDataLine(row) && |RowFields(row)| >= 13
    ensures var e := Extract(Some([h1, c, h2, c, row]), 2, num);
      && e.Extracted?
      && |e.columns.scores| == 2
      && e.columns.pvals == [num.parseReal(RowFields(row)[4]), None]
      && e.columns.sizes == [num.parseInt(RowFields(row)[2]), None]
      && e.columns.terms == [TermsCell([RowFields(row)[1]]), ""]
  {
    var fields := RowFields(row);
    var st := EmptyClusterRun(h1, h2, c, row, num);
    var f := Flush(st);
    assert f.termsList == [[fields[1]]] && f.pvals == [num.parseReal(fields[4])] && f.sizes == [num.parseInt(fields[2])] by {
      assert PyPrefix([fields[1]], 3) == [fields[1]];
    }
    assert PyPrefix(Pad(f.termsList, 2, []), 2) == [[fields[1]], []];
    assert PyPrefix(Pad(f.pvals, 2, None), 2) == [num.parseReal(fields[4]), None];
    assert PyPrefix(Pad(f.sizes, 2, None), 2) == [num.parseInt(fields[2]), None];
    assert TermsCell([]) == "";
  }

  /** The state after the five lines of `EmptyClusterShiftsColumns`. */
  lemma EmptyClusterRun(h1: string, h2: string, c: string, row: string, num: Numerals) returns (st: ParserState)
    requires StartsWith(h1, ClusterPrefix) && StartsWith(h2, ClusterPrefix)
    requires !ReadScore(h1, num).ScoreRaises? && !ReadScore(h2, num).ScoreRaises?
    requires StartsWith(c, ColumnsPrefix) && !StartsWith(c, ClusterPrefix)
    requires !StartsWith(row, ClusterPrefix) && !StartsWith(row, ColumnsPrefix)
    requires IsDataLine(row) && |RowFields(row)| >= 13
    ensures RunFrom(Init, [h1, c, h2, c, row], num) == Some(st)
    ensures |st.scores| == 2 && st.termsList == [] && st.pvals == [] && st.sizes == []
    ensures st.current == Acc([RowFields(row)[1]], num.parseReal(RowFields(row)[4]), num.parseInt(RowFields(row)[2]))
  {
    var s2 := OpenCluster(Init, h1, c, num);
    var s4 := OpenCluster(s2, h2, c, num);
    RunAppend(Init, [h1, c], [h2, c], num);
    assert [h1, c] + [h2, c] == [h1, c, h2, c];
    st := s4.(current := AddRow(EmptyAcc, RowFields(row), num));
    RunAppend(Init, [h1, c, h2, c], [row], num);
    assert [h1, c, h2, c] + [row] == [h1, c, h2, c, row];
    assert [row][..0] == [];
  }

  /**
   * A cluster header followed by the column header closes the cluster being
   * read, appends one score and starts reading data rows.
   */
  lemma OpenCluster(st: ParserState, h: string, c: string, num: Numerals) returns (r: ParserState)
    requires StartsWith(h, ClusterPrefix) && !ReadScore(h, num).ScoreRaises?
    requires StartsWith(c, ColumnsPrefix) && !StartsWith(c, ClusterPrefix)
    ensures RunFrom(st, [h, c], num) == Some(r)
    ensures r.insideData && |r.scores| == |st.scores| + 1 && r.scores[..|st.scores|] == st.scores
    ensures r.scores[|st.scores|] == (if ReadScore(h, num).ScoreValue? then Some(ReadScore(h, num).x) else None)
    ensures var f := Flush(st); r.termsList == f.termsList && r.pvals == f.pvals && r.sizes == f.sizes && r.current == f.current
  {
    var f := Flush(st);
    var score := if ReadScore(h, num).ScoreValue? then Some(ReadScore(h, num).x) else None;
    var afterHeader := f.(scores := f.scores + [score], insideData := false);
    assert Step(st, h, num) == Some(afterHeader);
    r := afterHeader.(insideData := true);
    assert [h][..0] == [];
    assert RunFrom(st, [h], num) == Some(afterHeader);
    assert [h, c][..1] == [h];
    assert Step(afterHeader, c, num) == Some(r);
  }

  /** No match starts inside a prefix that holds no `E`. */
  lemma NoMatchInPrefix(pre: string, t: string)
    requires 'E' !in pre
    ensures forall j :: 0 <= j < |pre| ==> !MatchAt(pre + ScoreKey + t, j)
  {
    var line := pre + ScoreKey + t;
    forall j | 0 <= j < |pre|
      ensures !MatchAt(line, j)
    {
      assert line[j] == pre[j];
      if MatchAt(line, j) {
        assert false;
      }
    }
  }

  /** No match starts at or after the key when the text after it starts outside the class and holds no `E`. */
  lemma NoMatchFromKey(pre: string, t: string)
    requires (t == [] || !InScoreClass(t[0])) && 'E' !in t
    ensures forall j :: |pre| <= j ==> !MatchAt(pre + ScoreKey + t, j)
  {
    var line := pre + ScoreKey + t;
    var p := |pre|;
    assert line[p + |ScoreKey|..] == t;
    forall j | p <= j
      ensures !MatchAt(line, j)
    {
      if j == p && t != [] {
        assert line[p + |ScoreKey|] == t[0];
      } else if p < j < |line| {
        if j < p + |ScoreKey| {
          assert line[j] == ScoreKey[j - p];
        } else {
          assert line[j] == t[j - p - |ScoreKey|];
        }
        assert line[j] != 'E';
        if MatchAt(line, j) {
          assert false;
        }
      }
    }
  }

  /**
   * The score search skips a prefix that holds no `E`: after
   * `EnrichmentScore:`, a text that starts inside the character class is the
   * group when it lies entirely inside the class, and a text that starts
   * outside the class and holds no `E` gives no match at all.
   */
  lemma ScoreAfterPrefix(pre: string, t: string)
    requires 'E' !in pre
    ensures t != [] && (forall i :: 0 <= i < |t| ==> InScoreClass(t[i])) ==> ScoreGroup(pre + ScoreKey + t) == Some(t)
    ensures (t == [] || !InScoreClass(t[0])) && 'E' !in t ==> ScoreGroup(pre + ScoreKey + t) == None
  {
    var line := pre + ScoreKey + t;
    var p := |pre|;
    NoMatchInPrefix(pre, t);
    if t != [] && InScoreClass(t[0]) {
      assert line[p..p + |ScoreKey|] == ScoreKey;
      assert line[p + |ScoreKey|..] == t;
      assert MatchAt(line, p);
      assert MatchFrom(line, 0) == Some(p);
      var run := ClassRun(t);
      assert ScoreGroup(line) == Some(run);
      if forall i :: 0 <= i < |t| ==> InScoreClass(t[i]) {
        if |run| < |t| {
          assert false;
        }
        assert run == t;
      }
    } else if 'E' !in t {
      NoMatchFromKey(pre, t);
    }
  }

  /** A term is cut right after its first `~` or `:`. */
  lemma CleanAfterFirstCut(pre: string, cut: char, rest: string)
    requires forall i :: 0 <= i < |pre| ==> !IsCut(pre[i])
    requires IsCut(cut)
    ensures CleanTerm(pre + [cut] + rest) == rest
  {
    var term := pre + [cut] + rest;
    var r := AfterFirstCut(term);
    assert term[|pre|] == cut;
    assert r.Some?;
    var q := |term| - |r.value| - 1;
    if q < |pre| {
      assert false;
    } else if q > |pre| {
      assert false;
    }
    assert r.value == term[|pre| + 1..];
    assert term[|pre| + 1..] == rest;
  }

  /**
   * A term is cut after its FIRST `~` or `:`, so a Gene Ontology term keeps
   * its identifier (`GO:0006955~immune response` becomes
   * `0006955~immune response`) ...
   */
  lemma GeneOntologyTermKeepsIdentifier(id: string, name: string)
    ensures CleanTerm("GO:" + id + "~" + name) == id + "~" + name
  {
    CleanAfterFirstCut("GO", ':', id + "~" + name);
    assert "GO:" + id + "~" + name == "GO" + [':'] + (id + "~" + name);
  }

  /** ... while a KEGG pathway loses its whole prefix (`hsa04110:Cell cycle` becomes `Cell cycle`). */
  lemma PathwayTermLosesPrefix(name: string)
    ensures CleanTerm("hsa04110" + ":" + name) == name
  {
    var id := "hsa04110";
    assert forall i :: 0 <= i < |id| ==> !IsCut(id[i]);
    CleanAfterFirstCut(id, ':', name);
  }
}

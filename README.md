# Sliding-window genome enrichment, modelled in Dafny

This project models the core of `Sliding_Window_Genome_Enrichment_DAVID.py`. The script:

1. slides a window of `W` genes, with step `S`, along a genome-ordered list of Entrez gene IDs;
2. submits each window's genes to the DAVID functional-annotation service, retrying with a linear back-off;
3. saves the returned term-cluster report as a tab-separated text file;
4. parses the saved file back into per-cluster enrichment scores, first p-values, term names and sizes;
5. builds one summary row per window, emptying clusters 2 and 3 when their p-value is missing or above the threshold;
6. builds the "filtered" sheet: rows with some p-value, ten columns, sorted by `Enrich1`, largest first, missing last.

Modules, in dependency order:

- `Wrappers`: `Option`.
- `Text`: the Python string operations the script uses. These are `startswith`, `strip`, `split("\t")`, `join` and `str(int)`. `float()`, `int()` and `str(float)` are abstract, as the fields of `Numerals`.
- `Windows`: `range(0, N - W + 1, S)`, the windows, their labels `"{start+1}-{end+1}"` and their file prefixes `"{start+1}to{end+1}"`.
- `ClusterReport`: the report's data and `save_cluster_report`. A file is its sequence of lines.
- `ReportParser`: `extract_clusters_from_txt`. It is written twice:
  - as a line-by-line state machine (`Step`, `RunFrom`, `Extract`);
  - as the imperative loops of the source (`ExtractClusters`), proved equal to the state machine.
- `ReportRoundTrip`: what saving and then parsing gives back.
- `EnrichmentClient`: the retry loop of `analyze_gene_list`. What each numbered attempt gives is a parameter.
- `Summary`: the row literal, the p-value filter, and the filtered and sorted sheet.
- `Pipeline`: the loop of `main` over the windows, as methods proved against the functions `ProcessWindow`, `TableOf` and `ScanWith`.

Some behaviours of the code are easy to misread. The model follows the code in each:

- A saved "No clusters returned." line is only skipped by the parser. It is not treated as an empty report. Such a file parses like a missing file because it holds no header (`WithoutHeadersLikeMissing`).
- There are `(N - W) / S + 1` windows, rounded down (`WindowEnumeration`), not rounded up.
- A term is cut after its first `~` or `:`. So `GO:0006955~immune response` keeps `0006955~immune response` (`GeneOntologyTermKeepsIdentifier`).
- The score pattern `[\-0-9\.eE]+` has no `+`, so a score printed as `1e+16` is read as `1e`. `float("1e")` raises `ValueError`. `ReadScore` then gives `ScoreRaises` and the parse fails, no later line brings it back (`RaisedStaysRaised`), and the run ends with that error for the window (`TableStep`).
- The sort of the filtered sheet is not stable, so no order among equal `Enrich1` values is promised.

## Model

All source paths are in `Sliding_Window_Genome_Enrichment_DAVID.py`.

| member | source | states |
|---|---|---|
| Windows.PyRange | Sliding_Window_Genome_Enrichment_DAVID.py:217 | `range(start, stop, step)` begins at `start` when non-empty and is empty for a negative step with `start <= stop` |
| Windows.AscendingRange | Sliding_Window_Genome_Enrichment_DAVID.py:217 | an ascending range holds exactly `start + i*step` for each index `i`, all below `stop`, and the next value would reach `stop` |
| Windows.PlanWindows | Sliding_Window_Genome_Enrichment_DAVID.py:209-219 | too few genes exactly when `N < W`; a zero step (the `ValueError` of `range`) exactly when `N >= W` and `S == 0`; every planned window is `W` wide |
| Windows.WindowEnumeration | Sliding_Window_Genome_Enrichment_DAVID.py:217-220 | with `N >= W` and `S > 0` the windows start at `0, S, 2S, ...`; there are `(N - W) / S + 1` of them; each lies inside the list; no further window fits |
| Windows.NegativeStepNoWindows | Sliding_Window_Genome_Enrichment_DAVID.py:217 | a negative step plans no window |
| Windows.PlannedWindowCount | Sliding_Window_Genome_Enrichment_DAVID.py:209-220 | a plan with at least one window had `N >= W` and a positive step, and has `(N - W) / S + 1` windows |
| Windows.LabelsDistinct | Sliding_Window_Genome_Enrichment_DAVID.py:221-228 | the windows of one run have pairwise distinct labels and file prefixes, so no report file is overwritten |
| Windows.Label | Sliding_Window_Genome_Enrichment_DAVID.py:221-222 | the label `"{start+1}-{end+1}"`, by definition; `LabelsDistinct` proves the labels of one run pairwise distinct |
| Windows.FilePrefix | Sliding_Window_Genome_Enrichment_DAVID.py:222-223 | the file prefix `"{start+1}to{end+1}"`, by definition; `LabelsDistinct` proves the prefixes of one run pairwise distinct |
| Windows.OneWindowScenario | Sliding_Window_Genome_Enrichment_DAVID.py:217-222 | 120 genes, window 100, step 25 give the single window `[0, 100)`, labelled `1-101` |
| Text.StripLeft | Sliding_Window_Genome_Enrichment_DAVID.py:137 | the result is a suffix of the input; every removed character is whitespace; the result does not start with whitespace |
| Text.StripRight | Sliding_Window_Genome_Enrichment_DAVID.py:137 | the result is a prefix of the input; every removed character is whitespace; the result does not end with whitespace |
| Text.StripKeepsTrimmed | Sliding_Window_Genome_Enrichment_DAVID.py:137 | `strip()` leaves a string unchanged when it neither starts nor ends with whitespace |
| Text.Split | Sliding_Window_Genome_Enrichment_DAVID.py:137 | `split` gives at least one piece and no piece holds the separator |
| Text.JoinSplit | Sliding_Window_Genome_Enrichment_DAVID.py:137 | joining the pieces of a split gives back the string |
| Text.SplitJoin | Sliding_Window_Genome_Enrichment_DAVID.py:107 | splitting a tab-joined row gives back its fields when no field holds a tab |
| Text.NatToDecimal | Sliding_Window_Genome_Enrichment_DAVID.py:95 | `str(n)` is a non-empty string of decimal digits |
| Text.IntToDecimal | Sliding_Window_Genome_Enrichment_DAVID.py:221-222 | `str(i)` is non-empty, starts with `-` exactly when `i` is negative, and is otherwise made of decimal digits |
| Text.DecimalRoundTrip | Sliding_Window_Genome_Enrichment_DAVID.py:95 | the digits of `str(n)` denote `n` |
| Text.DecimalInjective | Sliding_Window_Genome_Enrichment_DAVID.py:221-223 | distinct numbers print differently |
| Text.IntDecimalInjective | Sliding_Window_Genome_Enrichment_DAVID.py:221-223 | distinct integers print differently, negative ones included |
| Text.Strip | Sliding_Window_Genome_Enrichment_DAVID.py:137 | `strip()`, by definition `StripRight` after `StripLeft`, whose contracts give the removed ends; `StripKeepsTrimmed` proves it leaves a trimmed string unchanged |
| Text.Join | Sliding_Window_Genome_Enrichment_DAVID.py:107 | `sep.join(parts)`, by definition; `SplitJoin` proves that splitting a tab-joined row gives back its fields |
| ClusterReport.Fields | Sliding_Window_Genome_Enrichment_DAVID.py:92-106 | a record is written as 13 fields; the term is field 1, the count field 2 and the p-value field 4 |
| ClusterReport.RowLines | Sliding_Window_Genome_Enrichment_DAVID.py:91-107 | one data row per record, in record order |
| ClusterReport.SaveClusterReport | Sliding_Window_Genome_Enrichment_DAVID.py:78-107 | the writer's nested loops produce exactly the blocks of `ReportLines`: one "no clusters" line for a missing or empty report, else per cluster a numbered header, the column header and the rows |
| ClusterReport.Render | Sliding_Window_Genome_Enrichment_DAVID.py:84-107 | the text of one written line, by definition; `RowHasThirteenFields` states a row's fields and the `ReportRoundTrip` lemmas what reading each line gives back |
| ClusterReport.ReportLines | Sliding_Window_Genome_Enrichment_DAVID.py:78-107 | the lines of `save_cluster_report`, by definition; `SaveClusterReport` proves the writer's loops produce them and `SavedLayout` where each cluster lies |
| ClusterReport.BlocksLength | Sliding_Window_Genome_Enrichment_DAVID.py:84-107 | the first `n` clusters take `Offset(cs, n)` lines |
| ClusterReport.BlocksPrefix | Sliding_Window_Genome_Enrichment_DAVID.py:84-107 | writing more clusters only appends: the lines of the first `m` clusters stay in front |
| ClusterReport.SavedLayout | Sliding_Window_Genome_Enrichment_DAVID.py:84-107 | cluster `k` occupies exactly the lines from `Offset(cs, k)` to `Offset(cs, k+1)` |
| ClusterReport.RowHasThirteenFields | Sliding_Window_Genome_Enrichment_DAVID.py:106-107 | a written row splits back into its 13 fields when no field holds a tab |
| EnrichmentClient.Pauses | Sliding_Window_Genome_Enrichment_DAVID.py:71-72 | there is one pause per attempt from `first` to `last - 1` |
| EnrichmentClient.PauseAt | Sliding_Window_Genome_Enrichment_DAVID.py:72 | the `i`-th pause is `wait * (first + i)` |
| EnrichmentClient.AnalyzeGeneList | Sliding_Window_Genome_Enrichment_DAVID.py:58-75 | the loop returns the report, the attempt count and the pauses of `Retry`, the attempt-by-attempt definition |
| EnrichmentClient.AttemptsBounded | Sliding_Window_Genome_Enrichment_DAVID.py:64-75 | from attempt `a` the loop stops between `a` and `retries`, having paused after every attempt but the last |
| EnrichmentClient.RetryShape | Sliding_Window_Genome_Enrichment_DAVID.py:64-75 | no attempt when `retries <= 0`; otherwise between 1 and `retries` attempts; the pauses are `wait*1, ..., wait*(a-1)` |
| EnrichmentClient.AttemptsFrom | Sliding_Window_Genome_Enrichment_DAVID.py:64-75 | the attempts from a given number on, by definition; `AttemptsBounded`, `FailuresFrom` and `FailingFrom` state its outcomes |
| EnrichmentClient.Retry | Sliding_Window_Genome_Enrichment_DAVID.py:64-75 | the whole retry loop, by definition; `RetryShape`, `FailuresThenAnswer` and `AlwaysFailing` state its outcomes, and `AnalyzeGeneList` computes it |
| EnrichmentClient.FailuresThenAnswer | Sliding_Window_Genome_Enrichment_DAVID.py:64-72 | `k` failures and then an answer return that answer after `k+1` attempts and `k` pauses |
| EnrichmentClient.FailuresFrom | Sliding_Window_Genome_Enrichment_DAVID.py:64-72 | the same from any attempt on |
| EnrichmentClient.AlwaysFailing | Sliding_Window_Genome_Enrichment_DAVID.py:64-75 | a service that always fails gives `None` after exactly `retries` attempts |
| EnrichmentClient.FailingFrom | Sliding_Window_Genome_Enrichment_DAVID.py:64-75 | the same from any attempt on |
| ReportParser.ClassRun | Sliding_Window_Genome_Enrichment_DAVID.py:131 | the greedy `[\-0-9\.eE]+` run is the longest prefix inside the character class |
| ReportParser.MatchFrom | Sliding_Window_Genome_Enrichment_DAVID.py:131 | `re.search` finds the leftmost position where the pattern matches, or reports that none does |
| ReportParser.ReadScore | Sliding_Window_Genome_Enrichment_DAVID.py:131-132 | no score exactly when the search fails; `float()` raises exactly when the group does not parse; otherwise the parsed group |
| ReportParser.Flush | Sliding_Window_Genome_Enrichment_DAVID.py:125-129 | closing a cluster with terms appends its first three terms, p-value and size and resets the accumulator; without terms nothing changes |
| ReportParser.AddRow | Sliding_Window_Genome_Enrichment_DAVID.py:137-150 | a row of 13 or more fields appends its term; field 4 and field 2 are tried only while the cluster has no p-value; shorter rows change nothing |
| ReportParser.RunOneMore | Sliding_Window_Genome_Enrichment_DAVID.py:123-150 | reading one more line is one more step |
| ReportParser.RaisedStaysRaised | Sliding_Window_Genome_Enrichment_DAVID.py:132 | once `float()` has raised, no later line brings the parse back |
| ReportParser.RunAppend | Sliding_Window_Genome_Enrichment_DAVID.py:123-150 | reading `a` and then `b` is reading `a + b` |
| ReportParser.Pad | Sliding_Window_Genome_Enrichment_DAVID.py:158-161 | padding keeps the list as a prefix and appends `x` up to length `k` |
| ReportParser.AfterFirstCut | Sliding_Window_Genome_Enrichment_DAVID.py:165 | no cut exactly when the term has no `~` or `:`; otherwise the rest after the first one |
| ReportParser.CleanTerm | Sliding_Window_Genome_Enrichment_DAVID.py:165 | the cleaned term is a suffix of the term, and all of it exactly when the term has no `~` or `:` |
| ReportParser.CleanTerms | Sliding_Window_Genome_Enrichment_DAVID.py:165 | one cleaned term per term, in order |
| ReportParser.PadWith | Sliding_Window_Genome_Enrichment_DAVID.py:158-161 | the padding loop computes `Pad` |
| ReportParser.ScanLines | Sliding_Window_Genome_Enrichment_DAVID.py:122-150 | the line loop computes the state machine's run, or the `float()` failure |
| ReportParser.CleanTermsColumn | Sliding_Window_Genome_Enrichment_DAVID.py:163-166 | the cleaning loop computes `TermsCells` |
| ReportParser.ExtractClusters | Sliding_Window_Genome_Enrichment_DAVID.py:111-168 | the whole function computes `Extract`, including the missing-file result and the final flush, padding and cut |
| ReportParser.ColumnsHaveRequestedLength | Sliding_Window_Genome_Enrichment_DAVID.py:157-168 | with `max_clusters >= 0` each of the four columns has exactly `max_clusters` entries |
| ReportParser.StaysInitial | Sliding_Window_Genome_Enrichment_DAVID.py:122-150 | lines that are neither kind of header leave the parser in its initial state |
| ReportParser.WithoutHeadersLikeMissing | Sliding_Window_Genome_Enrichment_DAVID.py:119-168 | a file without headers, such as the saved empty report, parses exactly like a missing file: all nulls and empty terms |
| ReportParser.WideRows | Sliding_Window_Genome_Enrichment_DAVID.py:136-138 | the kept rows all have at least 13 fields |
| ReportParser.FirstParsable | Sliding_Window_Genome_Enrichment_DAVID.py:140-149 | the index of the first wide row whose p-value parses, and none before it parses |
| ReportParser.ClusterAccumulation | Sliding_Window_Genome_Enrichment_DAVID.py:134-150 | one cluster's table changes only the accumulator, which then holds every wide row's term, and the p-value and size of the first wide row whose p-value parses |
| ReportParser.SummarisesOneMore | Sliding_Window_Genome_Enrichment_DAVID.py:137-150 | one more wide row keeps that summary |
| ReportParser.LeadingEmptyFieldDropsRow | Sliding_Window_Genome_Enrichment_DAVID.py:137-138 | `strip()` removes a leading empty field's tab, so such a 13-field row is read with 12 fields and contributes nothing |
| ReportParser.EmptyClusterShiftsColumns | Sliding_Window_Genome_Enrichment_DAVID.py:124-129 | a cluster without rows adds a score but no p-value, size or terms, so the next cluster's row is reported in its place |
| ReportParser.EmptyClusterRun | Sliding_Window_Genome_Enrichment_DAVID.py:124-150 | the parser state after those five lines |
| ReportParser.OpenCluster | Sliding_Window_Genome_Enrichment_DAVID.py:124-135 | a cluster header and a column header close the previous cluster, append one score and start reading rows |
| ReportParser.Step | Sliding_Window_Genome_Enrichment_DAVID.py:122-150 | the parser's reaction to one line, by definition; `OpenCluster`, `AddRow`, `StaysInitial` and `RaisedStaysRaised` state its cases |
| ReportParser.RunFrom | Sliding_Window_Genome_Enrichment_DAVID.py:122-150 | the parser over a list of lines, by definition; `RunOneMore` and `RunAppend` prove it reads line by line |
| ReportParser.Finish | Sliding_Window_Genome_Enrichment_DAVID.py:152-168 | the final flush, padding and cut, by definition; `ColumnsHaveRequestedLength`, `PaddedColumn`, `FinishedNumbers` and `FinishedTerms` state its columns |
| ReportParser.Extract | Sliding_Window_Genome_Enrichment_DAVID.py:111-168 | `extract_clusters_from_txt`, by definition; `ExtractClusters` proves the imperative function computes it, and `WithoutHeadersLikeMissing` and `SaveThenExtract` state what it gives |
| ReportParser.NoMatchInPrefix | Sliding_Window_Genome_Enrichment_DAVID.py:131 | the pattern matches nowhere inside a text without `E` placed before the key |
| ReportParser.NoMatchFromKey | Sliding_Window_Genome_Enrichment_DAVID.py:131 | after the key, a text that starts outside the character class and holds no `E` lets the pattern match nowhere from the key on |
| ReportParser.ScoreAfterPrefix | Sliding_Window_Genome_Enrichment_DAVID.py:131 | after `EnrichmentScore:` a text inside the character class is the group; a text starting outside it, with no `E`, gives no match |
| ReportParser.CleanAfterFirstCut | Sliding_Window_Genome_Enrichment_DAVID.py:165 | a term is cut right after its first `~` or `:` |
| ReportParser.GeneOntologyTermKeepsIdentifier | Sliding_Window_Genome_Enrichment_DAVID.py:165 | `GO:id~name` is cleaned to `id~name` |
| ReportParser.PathwayTermLosesPrefix | Sliding_Window_Genome_Enrichment_DAVID.py:165 | `hsa04110:name` is cleaned to `name`, as `hsa04110:Cell cycle` becomes `Cell cycle` |
| ReportRoundTrip.HeaderPrefixHasNoE | Sliding_Window_Genome_Enrichment_DAVID.py:84-86 | the text a header puts before `EnrichmentScore:` holds no `E`, so the search cannot match early |
| ReportRoundTrip.HeaderReadBack | Sliding_Window_Genome_Enrichment_DAVID.py:124-132 | a written cluster header is read as one, and its score (or its absence) comes back, whenever the printed score lies in the pattern's character class and `float()` reads it back |
| ReportRoundTrip.RowReadBack | Sliding_Window_Genome_Enrichment_DAVID.py:136-138 | a written data row is read as a data row with the record's 13 fields |
| ReportRoundTrip.FileTextAppend | Sliding_Window_Genome_Enrichment_DAVID.py:80-107 | the text of concatenated lines is the concatenated text |
| ReportRoundTrip.RowsReadBack | Sliding_Window_Genome_Enrichment_DAVID.py:136-138 | the written rows read back as exactly the records' fields, all wide |
| ReportRoundTrip.RowsAreNotHeaders | Sliding_Window_Genome_Enrichment_DAVID.py:124-134 | no written data row looks like a header |
| ReportRoundTrip.RowsAccumulate | Sliding_Window_Genome_Enrichment_DAVID.py:136-150 | reading a writable cluster's rows gathers its term names, first p-value and first count |
| ReportRoundTrip.SummaryOfRows | Sliding_Window_Genome_Enrichment_DAVID.py:136-150 | the same, from the facts it needs about the rows |
| ReportRoundTrip.ColumnHeaderRead | Sliding_Window_Genome_Enrichment_DAVID.py:134 | the written column header switches the reader to data rows and is not a cluster header |
| ReportRoundTrip.HeaderLinesRead | Sliding_Window_Genome_Enrichment_DAVID.py:124-135 | the two header lines close the previous cluster and append the score |
| ReportRoundTrip.BlockReadBack | Sliding_Window_Genome_Enrichment_DAVID.py:122-150 | reading one saved cluster block appends its score and gathers its terms, p-value and size |
| ReportRoundTrip.ScoresOf | Sliding_Window_Genome_Enrichment_DAVID.py:132 | the scores of the first `n` clusters, in order |
| ReportRoundTrip.PvalsOf | Sliding_Window_Genome_Enrichment_DAVID.py:144-145 | the first p-values of the first `n` clusters |
| ReportRoundTrip.TermListsOf | Sliding_Window_Genome_Enrichment_DAVID.py:126 | the first three term names of the first `n` clusters |
| ReportRoundTrip.SizesOf | Sliding_Window_Genome_Enrichment_DAVID.py:147 | the first counts of the first `n` clusters |
| ReportRoundTrip.ExpectedFlushed | Sliding_Window_Genome_Enrichment_DAVID.py:152-155 | closing the last cluster lists every cluster read so far |
| ReportRoundTrip.BlocksReadBack | Sliding_Window_Genome_Enrichment_DAVID.py:122-150 | reading the first `n` saved blocks leads to the expected state |
| ReportRoundTrip.PaddedColumn | Sliding_Window_Genome_Enrichment_DAVID.py:158-168 | a column padded and cut to `k` has `k` entries: its own entries first, then the pad value |
| ReportRoundTrip.FinishedNumbers | Sliding_Window_Genome_Enrichment_DAVID.py:152-168 | the padded and cut score, p-value and count columns of a parse that read the clusters hold, at position `i`, cluster `i`'s value, then null |
| ReportRoundTrip.FinishedTerms | Sliding_Window_Genome_Enrichment_DAVID.py:152-168 | the terms column holds, at position `i`, cluster `i`'s first three cleaned terms joined, then `""` |
| ReportRoundTrip.ExtractBlocks | Sliding_Window_Genome_Enrichment_DAVID.py:111-168 | the saved file of a non-empty report parses to the finished state of its blocks |
| ReportRoundTrip.NoClustersReadBack | Sliding_Window_Genome_Enrichment_DAVID.py:78-168 | a missing or empty report is saved as the no-clusters line, which reads back as `k` nulls and empty term cells |
| ReportRoundTrip.ClustersReadBack | Sliding_Window_Genome_Enrichment_DAVID.py:78-168 | a non-empty report of writable clusters reads back cluster by cluster in the column positions |
| ReportRoundTrip.SaveThenExtract | Sliding_Window_Genome_Enrichment_DAVID.py:78-168 | saving then parsing with `max_clusters = k` gives, at position `i` of each column, cluster `i`'s score, first p-value, first three cleaned terms and first count; past the last cluster it gives null, or `""` for terms |
| ReportRoundTrip.StartsWithK | Sliding_Window_Genome_Enrichment_DAVID.py:84-134 | a line that starts with `K` starts like neither kind of header nor the empty-report line |
| ReportRoundTrip.ExampleFieldsClean | Sliding_Window_Genome_Enrichment_DAVID.py:92-107 | no field of the example record, for a term without a tab, newline or carriage return, holds any of them |
| ReportRoundTrip.ExampleWritable | Sliding_Window_Genome_Enrichment_DAVID.py:84-107 | a one-record cluster with score 0.5 and a term without a tab, newline or carriage return meets every condition of the round trip |
| ReportRoundTrip.ExampleReadsBack | Sliding_Window_Genome_Enrichment_DAVID.py:78-168 | that cluster, saved and parsed with `max_clusters = 3`, reads back as score 0.5, its p-value, its term and its count, then nulls |
| Summary.BuildRecord | Sliding_Window_Genome_Enrichment_DAVID.py:237-242 | the row exists exactly when all four columns have at least 3 entries (the `IndexError` otherwise), and it carries the window label |
| Summary.RowNeedsThreeClusters | Sliding_Window_Genome_Enrichment_DAVID.py:232-242 | a parse with `max_clusters = k >= 0` yields a row exactly when `k >= 3`, and the row holds clusters 1 to 3 |
| Summary.Filtered | Sliding_Window_Genome_Enrichment_DAVID.py:244-250 | the label and cluster 1 are untouched; cluster 2 or 3 keeps a p-value exactly when it had one not above the threshold, is then unchanged, and is otherwise emptied |
| Summary.FilterSecondary | Sliding_Window_Genome_Enrichment_DAVID.py:244-250 | the `for i in [2, 3]` loop computes `Filtered` |
| Summary.FilterIdempotent | Sliding_Window_Genome_Enrichment_DAVID.py:244-250 | filtering twice is filtering once |
| Summary.FilterMonotone | Sliding_Window_Genome_Enrichment_DAVID.py:244-250 | a cluster kept under one threshold is kept, unchanged, under any larger one |
| Summary.Kept | Sliding_Window_Genome_Enrichment_DAVID.py:258 | `dropna(how="all")` keeps exactly the rows with at least one p-value, each as often as it occurs in the table |
| Summary.KeptAppend | Sliding_Window_Genome_Enrichment_DAVID.py:258 | the filter works row by row, keeping the table's order: the kept rows of `a + b` are those of `a` followed by those of `b` |
| Summary.ConsSorted | Sliding_Window_Genome_Enrichment_DAVID.py:261 | a row placed before an ordered sheet whose every row it may precede gives an ordered sheet |
| Summary.InsertMultiset | Sliding_Window_Genome_Enrichment_DAVID.py:261 | inserting a row adds exactly that row to the sheet's multiset |
| Summary.InsertSorted | Sliding_Window_Genome_Enrichment_DAVID.py:261 | inserting into a sheet ordered by `Enrich1` keeps it ordered and adds exactly that row |
| Summary.SortViewCorrect | Sliding_Window_Genome_Enrichment_DAVID.py:261 | the sorted sheet is ordered by `Enrich1`, descending with missing last, and is a permutation of its input |
| Summary.SortView | Sliding_Window_Genome_Enrichment_DAVID.py:261 | the sort by `Enrich1`, by definition; `SortViewCorrect` proves it ordered and a permutation |
| Summary.FilteredViewContents | Sliding_Window_Genome_Enrichment_DAVID.py:256-261 | an empty table has no sheet (the `KeyError`); otherwise the sheet is ordered, is a permutation of the kept rows' projections, and holds a row exactly when some table row with a p-value projects to it |
| Summary.FilteredView | Sliding_Window_Genome_Enrichment_DAVID.py:256-261 | the filtered sheet, by definition; `FilteredViewContents` states its contents and order |
| Pipeline.SliceIndex | Sliding_Window_Genome_Enrichment_DAVID.py:220 | a slice bound is clamped into the list |
| Pipeline.PySlice | Sliding_Window_Genome_Enrichment_DAVID.py:220 | for in-range bounds, `genes[start:end]` is the plain sub-list |
| Pipeline.TableOf | Sliding_Window_Genome_Enrichment_DAVID.py:216-252 | the table only stops on a non-numeric score or a parse with too few clusters |
| Pipeline.ScanWith | Sliding_Window_Genome_Enrichment_DAVID.py:209-261 | the run ends in `GenesTooFew` exactly when there are fewer genes than the window size, and in `StepZero` (the `ValueError` of `range`) exactly when there are enough genes and the step is zero |
| Pipeline.TableAgrees | Sliding_Window_Genome_Enrichment_DAVID.py:216-252 | the table depends only on the windows' results |
| Pipeline.ScanAgrees | Sliding_Window_Genome_Enrichment_DAVID.py:216-261 | any processor that agrees with `ProcessWindow` gives the scan `Scan` |
| Pipeline.Scan | Sliding_Window_Genome_Enrichment_DAVID.py:209-261 | the whole run from the gene list, by definition; `ScanGenome` computes it and `CompletedTable`, `CompletedWindows` and `CompletedView` state what a completed run holds |
| Pipeline.ScanWindow | Sliding_Window_Genome_Enrichment_DAVID.py:219-250 | the loop body (slice, request, save, parse, row, filter) computes `ProcessWindow` |
| Pipeline.ProcessWindow | Sliding_Window_Genome_Enrichment_DAVID.py:219-250 | one window's processing, by definition; `ScanWindow` computes it and `RowOfWindow` states the row it gives |
| Pipeline.ScanWindows | Sliding_Window_Genome_Enrichment_DAVID.py:216-253 | the loop over the windows computes `TableOf`: the rows in window order, or the first failure |
| Pipeline.ScanGenome | Sliding_Window_Genome_Enrichment_DAVID.py:209-261 | `main` from the gene list on computes `ScanWith`: the window check, the scan and the filtered sheet |
| Pipeline.StoppedStays | Sliding_Window_Genome_Enrichment_DAVID.py:216-252 | a scan that has stopped stays stopped with the same failure |
| Pipeline.TableRows | Sliding_Window_Genome_Enrichment_DAVID.py:216-252 | a finished table has one row per window, row `i` being window `i`'s result |
| Pipeline.TableStep | Sliding_Window_Genome_Enrichment_DAVID.py:216-252 | one more window either appends its row to the table or ends the whole table with its failure |
| Pipeline.RowFromFits | Sliding_Window_Genome_Enrichment_DAVID.py:237-250 | whatever the parse gave, a row built from it carries the label and has clusters 2 and 3 within the threshold |
| Pipeline.RowOfWindow | Sliding_Window_Genome_Enrichment_DAVID.py:219-250 | the same for the row the driver builds for a window |
| Pipeline.ProcessorFits | Sliding_Window_Genome_Enrichment_DAVID.py:219-250 | the same for every window of any processor that agrees with the driver |
| Pipeline.TableFits | Sliding_Window_Genome_Enrichment_DAVID.py:216-250 | in a finished table of a processor whose rows fit, row `i` carries window `i`'s label and has clusters 2 and 3 within the threshold |
| Pipeline.TabulatedParts | Sliding_Window_Genome_Enrichment_DAVID.py:216-261 | a completed scan went through a plan of windows, a full table and that table's sheet |
| Pipeline.CompletedTable | Sliding_Window_Genome_Enrichment_DAVID.py:216-252 | a completed scan planned its windows and has one row per window; row `i` carries window `i`'s label and has clusters 2 and 3 within the threshold |
| Pipeline.CompletedWindows | Sliding_Window_Genome_Enrichment_DAVID.py:209-220 | a completed scan had at least `W` genes and a positive step, and its table has `(N - W) / S + 1` rows |
| Pipeline.CompletedView | Sliding_Window_Genome_Enrichment_DAVID.py:256-261 | a completed scan's sheet is ordered by `Enrich1` and is a permutation of the kept rows' projections |
| Pipeline.NegativeStepHasNoTable | Sliding_Window_Genome_Enrichment_DAVID.py:217-258 | a negative step ends, with no window, in the `KeyError` of the empty table |
| Pipeline.FewClustersNeverComplete | Sliding_Window_Genome_Enrichment_DAVID.py:232-242 | with `0 <= max_clusters < 3` and at least one window, the first window fails and the scan never completes |
| Pipeline.WindowGenes | Sliding_Window_Genome_Enrichment_DAVID.py:217-220 | window `i` submits exactly the genes `i*S` up to `i*S + W`, in genome order |

## Left out

- The SOAP client is a parameter, `Service`: what attempt `a` for a gene list and list name gives. The client's construction, authentication and the `addList` and `getTermClusterReport` arguments (lines 50-67) are left out.
- Sleeping is not performed. The retry pauses are returned as a list. The `time.sleep(args.wait)` after each window (line 253) is not recorded.
- File I/O is left out. A file is its list of lines, without terminators or encoding. A missing file is `None`. The file a window saves is the one it reads back, so the `os.path.isfile` branch is reached only through `Extract(None, ...)`.
- A field that holds a newline or carriage return would split a written row across lines when the file is read in text mode. Files are modelled as the lines written, so this splitting is not captured; the round-trip lemmas exclude such fields (`WritableRecord`).
- Reading and validating the gene list from the input file (lines 201-208) is left out; the scan starts from a list of integers.
- The Excel workbook, the plots, `safe_neglog10`, `argparse` and logging are left out. They compute no value the rest of the pipeline reads.
- `float()`, `int()` and `str()` of a float are abstract (`Numerals`). IEEE rounding, infinities and NaN are not modelled. A NaN p-value would pass the threshold filter and then count as missing in `dropna`; the model has no NaN.
- `getattr` defaults for missing attributes of the service's objects are not modelled. Every record has all 13 attributes, and every cluster has a score, possibly `None`, and a record list.
- EnrichmentClient.AnalyzeGeneList: requires `wait >= 0`, because `time.sleep` raises on a negative pause. That exception is not modelled.
- Pipeline.ScanGenome: requires `wait >= 0` for the same reason. A window's processing is only specified through a ghost processor that agrees with `ProcessWindow`.
- Pipeline.ScanWindow: requires `wait >= 0` for the same reason.
- Pipeline.ScanWindows: requires `wait >= 0` for the same reason.
- ReportRoundTrip.SaveThenExtract: holds for clusters that each have at least one record, whose score prints inside the pattern's character class and reads back, whose first p-value and first count read back, with no field holding a tab, newline or carriage return, no row starting or ending with whitespace, and no row beginning like a header (`WritableCluster`). These are conditions on the values written, not on the conversions in general; `ExampleReadsBack` exhibits a report that meets them. Outside them, the parser's behaviour is stated by the `ReportParser` lemmas instead.
- Summary.SortViewCorrect: promises no order among rows with equal `Enrich1`, because the library's default sort is not stable.
- Pipeline.CompletedTable: stated for any processor whose rows fit their windows. It applies to the driver's scan through `ProcessorFits`, and to `Scan` through `ScanAgrees`, rather than as one lemma about `Scan`. It names row `i`'s window as window `i` of the plan; that window `i` starts at `i*S` is `WindowEnumeration`, and the row count is `CompletedWindows`.

/**
 * Window generation: the genome-ordered gene list is cut into windows
 * `[start, start + W)` for `start` in `range(0, N - W + 1, S)`, each labelled
 * with its 1-based bounds.
 */
module Windows {
  import opened Text

  /** A 0-based half-open range `[start, end)` of the gene list. */
  datatype Window = Window(start: int, end: int)

  /** Python's `range(start, stop, step)` for a non-zero step. */
  function PyRange(start: int, stop: int, step: int): (r: seq<int>)
    requires step != 0
    ensures |r| > 0 ==> r[0] == start
    ensures step < 0 && start <= stop ==> r == []
    decreases if step > 0 then stop - start else start - stop
  {
    if (step > 0 && start >= stop) || (step < 0 && start <= stop) then []
    else [start] + PyRange(start + step, stop, step)
  }

  /** An ascending range holds exactly the values start + i * step below stop. */
  lemma {:induction false} AscendingRange(start: int, stop: int, step: int)
    requires step > 0
    ensures var r := PyRange(start, stop, step);
      && (forall i :: 0 <= i < |r| ==> r[i] == start + i * step && r[i] < stop)
      && start + |r| * step >= stop
    decreases stop - start
  {
    var r := PyRange(start, stop, step);
    if start < stop {
      var rest := PyRange(start + step, stop, step);
      AscendingRange(start + step, stop, step);
      assert r == [start] + rest;
      forall i | 1 <= i < |r|
        ensures r[i] == start + i * step
      {
        assert r[i] == rest[i - 1] == start + step + (i - 1) * step;
      }
      assert start + |r| * step == start + step + |rest| * step;
    }
  }

  /** The windows whose starts are `starts`, each `w` genes wide. */
  function WindowsAt(starts: seq<int>, w: int): (ws: seq<Window>)
    ensures |ws| == |starts|
    ensures forall i :: 0 <= i < |ws| ==> ws[i] == Window(starts[i], starts[i] + w)
  {
    seq(|starts|, i requires 0 <= i < |starts| => Window(starts[i], starts[i] + w))
  }

  /** What the driver does with `N` genes, window size `W` and step `S` before any service call. */
  datatype Plan =
    | TooFewGenes               // `len(genes) < window_size`: logged and `sys.exit(1)`
    | StepIsZero                // `range(..., 0)` raises ValueError
    | Planned(windows: seq<Window>)

  function PlanWindows(n: nat, w: int, s: int): (p: Plan)
    ensures p.TooFewGenes? <==> n < w
    ensures p.StepIsZero? <==> n >= w && s == 0
    ensures p.Planned? ==> forall i :: 0 <= i < |p.windows| ==> p.windows[i].end == p.windows[i].start + w
  {
    if n < w then TooFewGenes
    else if s == 0 then StepIsZero
    else Planned(WindowsAt(PyRange(0, n - w + 1, s), w))
  }

  /** The 1-based label `"{start+1}-{end+1}"` shown for a window. */
  function Label(win: Window): string {
    IntToDecimal(win.start + 1) + "-" + IntToDecimal(win.end + 1)
  }

  /** The list name and file-name prefix `"{start+1}to{end+1}"` of a window. */
  function FilePrefix(win: Window): string {
    IntToDecimal(win.start + 1) + "to" + IntToDecimal(win.end + 1)
  }

  lemma DivisionByBounds(x: int, s: int, q: int)
    requires s > 0 && q * s <= x < (q + 1) * s
    ensures x / s == q
  {
    var d := x / s;
    assert x == d * s + x % s && 0 <= x % s < s;
    if d < q {
      MultiplyMonotone(d + 1, q, s);
      assert false;
    } else if d > q {
      MultiplyMonotone(q + 1, d, s);
      assert false;
    }
  }

  lemma MultiplyMonotone(a: int, b: int, s: int)
    requires a <= b && s >= 0
    ensures a * s <= b * s
  {
    assert b * s - a * s == (b - a) * s;
  }

  /**
   * With at least `W` genes and a positive step, the windows start at
   * 0, S, 2S, ..., there are exactly (N - W) / S + 1 of them, each is W genes
   * wide and lies inside the list, and no further window would fit.
   */
  lemma WindowEnumeration(n: nat, w: int, s: int)
    requires n >= w && s > 0
    ensures PlanWindows(n, w, s).Planned?
    ensures var ws := PlanWindows(n, w, s).windows;
      && |ws| == (n - w) / s + 1
      && (forall i :: 0 <= i < |ws| ==> ws[i].start == i * s && ws[i].end == i * s + w && ws[i].end <= n)
      && |ws| * s + w > n
  {
    var starts := PyRange(0, n - w + 1, s);
    var k := |starts|;
    AscendingRange(0, n - w + 1, s);
    assert starts[k - 1] == (k - 1) * s;
    DivisionByBounds(n - w, s, k - 1);
  }

  /** A plan with some window had at least `W` genes and a positive step, and holds `(N - W) / S + 1` windows. */
  lemma PlannedWindowCount(n: nat, w: int, s: int)
    requires PlanWindows(n, w, s).Planned? && PlanWindows(n, w, s).windows != []
    ensures n >= w && s > 0
    ensures |PlanWindows(n, w, s).windows| == (n - w) / s + 1
  {
    if s < 0 {
      NegativeStepNoWindows(n, w, s);
      assert false;
    }
    WindowEnumeration(n, w, s);
  }

  /** A negative step yields no window at all (the run then has nothing to tabulate). */
  lemma NegativeStepNoWindows(n: nat, w: int, s: int)
    requires n >= w && s < 0
    ensures PlanWindows(n, w, s) == Planned([])
  {
  }

  lemma DecimalLabelCut(a: nat, b: nat, a': nat, b': nat, sep: string)
    requires sep != [] && !IsDigit(sep[0])
    requires NatToDecimal(a) + sep + NatToDecimal(b) == NatToDecimal(a') + sep + NatToDecimal(b')
    ensures a == a' && b == b'
  {
    SeparatorCut(NatToDecimal(a), NatToDecimal(b), NatToDecimal(a'), NatToDecimal(b'), sep);
    DecimalInjective(a, a');
    DecimalInjective(b, b');
  }

  /**
   * Windows of one run have pairwise distinct labels and file prefixes, so no
   * window's report file overwrites another's.
   */
  lemma LabelsDistinct(n: nat, w: int, s: int)
    requires n >= w > 0 && s > 0
    ensures var ws := PlanWindows(n, w, s).windows;
      forall i, j :: 0 <= i < j < |ws| ==> Label(ws[i]) != Label(ws[j]) && FilePrefix(ws[i]) != FilePrefix(ws[j])
  {
    WindowEnumeration(n, w, s);
    var ws := PlanWindows(n, w, s).windows;
    forall i, j | 0 <= i < j < |ws|
      ensures Label(ws[i]) != Label(ws[j]) && FilePrefix(ws[i]) != FilePrefix(ws[j])
    {
      assert i * s < j * s;
      DistinctStartsDistinctNames(ws[i], ws[j]);
    }
  }

  lemma DistinctStartsDistinctNames(u: Window, v: Window)
    requires 0 <= u.start < v.start && u.end >= 0 && v.end >= 0
    ensures Label(u) != Label(v) && FilePrefix(u) != FilePrefix(v)
  {
    if Label(u) == Label(v) {
      DecimalLabelCut(u.start + 1, u.end + 1, v.start + 1, v.end + 1, "-");
    }
    if FilePrefix(u) == FilePrefix(v) {
      DecimalLabelCut(u.start + 1, u.end + 1, v.start + 1, v.end + 1, "to");
    }
  }

  /** 120 genes, window 100, step 25: one window `[0, 100)`, labelled `1-101`. */
  lemma OneWindowScenario()
    ensures PlanWindows(120, 100, 25) == Planned([Window(0, 100)])
    ensures Label(Window(0, 100)) == "1-101"
  {
    assert PyRange(0, 21, 25) == [0];
    assert NatToDecimal(1) == "1";
    assert NatToDecimal(10) == "10";
    assert NatToDecimal(101) == "101";
  }
}

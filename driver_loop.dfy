/** The loop of `parse_voting_collection` (stura_voting_utils/parser.py lines 77-99) for any
    line handler: the lines are numbered from 1, each one is handed to the handler with the
    state the previous one left, and the first error ends the run. What holds of every run,
    whatever the handler does with a line, is proved here once. */
module DriverLoop {
  import opened Wrappers
  import opened Errors

  /** The state after the first `j` lines, or the first error. */
  function Run<M>(step: (M, string, nat) -> Result<M, ParseError>, m0: M, lines: seq<string>,
                  j: nat): Result<M, ParseError>
    requires j <= |lines|
  {
    if j == 0 then Ok(m0)
    else
      match Run(step, m0, lines, j - 1)
      case Err(e) => Err(e)
      case Ok(m) => step(m, lines[j - 1], j)
  }

  /** A result with its error, if any, moved to line `n`. */
  function Relined<T>(r: Result<T, ParseError>, n: nat): Result<T, ParseError> {
    match r
    case Ok(v) => Ok(v)
    case Err(e) => Err(e.(line := n))
  }

  /** An error moved one line down when a line is inserted after line `j`. */
  function Renumbered<T>(r: Result<T, ParseError>, j: nat): Result<T, ParseError> {
    match r
    case Ok(v) => Ok(v)
    case Err(e) => Err(if e.line > j then e.(line := e.line + 1) else e)
  }

  /** A handler that reports its errors at the line it is given. */
  ghost predicate ErrorsAtLine<M(!new)>(step: (M, string, nat) -> Result<M, ParseError>) {
    forall m, raw, n :: step(m, raw, n).Err? ==> step(m, raw, n).error.line == n
  }

  /** A handler that uses the line number for nothing but its errors. */
  ghost predicate NumberOnlyInErrors<M(!new)>(step: (M, string, nat) -> Result<M, ParseError>) {
    forall m, raw, n :: step(m, raw, n) == Relined(step(m, raw, 0), n)
  }

  /** A line the handler passes over without a change. */
  ghost predicate Ignored<M(!new)>(step: (M, string, nat) -> Result<M, ParseError>, raw: string) {
    forall m, n :: step(m, raw, n) == Ok(m)
  }

  // ---------------------------------------------------------------------------------------
  // One line further.

  lemma RunNext<M>(step: (M, string, nat) -> Result<M, ParseError>, m0: M, lines: seq<string>,
                   j: nat, m: M)
    requires 0 < j <= |lines| && Run(step, m0, lines, j - 1) == Ok(m)
    ensures Run(step, m0, lines, j) == step(m, lines[j - 1], j)
  {
  }

  lemma RunErrorCarriesOn<M>(step: (M, string, nat) -> Result<M, ParseError>, m0: M,
                             lines: seq<string>, j: nat, e: ParseError)
    requires 0 < j <= |lines| && Run(step, m0, lines, j - 1) == Err(e)
    ensures Run(step, m0, lines, j) == Err(e)
  {
  }

  lemma RunOkBefore<M>(step: (M, string, nat) -> Result<M, ParseError>, m0: M,
                       lines: seq<string>, j: nat)
    requires 0 < j <= |lines| && Run(step, m0, lines, j).Ok?
    ensures Run(step, m0, lines, j - 1).Ok?
  {
  }

  // ---------------------------------------------------------------------------------------
  // Invariants.

  /** What the handler keeps on the lines of the input, every run keeps; and if the handler
      never fails with an internal error from a state that keeps it, neither does the run. */
  lemma {:induction false} RunInvariant<M>(step: (M, string, nat) -> Result<M, ParseError>,
                                           inv: M -> bool, m0: M, lines: seq<string>, j: nat)
    requires j <= |lines| && inv(m0)
    requires forall m, q, n :: 0 <= q < |lines| && inv(m) && step(m, lines[q], n).Ok?
                               ==> inv(step(m, lines[q], n).value)
    requires forall m, q, n :: 0 <= q < |lines| && inv(m) && step(m, lines[q], n).Err?
                               ==> step(m, lines[q], n).error.line == n
                                   && !step(m, lines[q], n).error.kind.IsInternal()
    ensures var r := Run(step, m0, lines, j);
            (r.Ok? ==> inv(r.value))
            && (r.Err? ==> 1 <= r.error.line <= j && !r.error.kind.IsInternal())
  {
    if j > 0 {
      RunInvariant(step, inv, m0, lines, j - 1);
      match Run(step, m0, lines, j - 1)
      case Err(e) =>
        RunErrorCarriesOn(step, m0, lines, j, e);
      case Ok(m) =>
        RunNext(step, m0, lines, j, m);
        assert step(m, lines[j - 1], j) == Run(step, m0, lines, j);
    }
  }

  // ---------------------------------------------------------------------------------------
  // Where a run stops.

  /** A run that reached line `j` went through every earlier line. */
  lemma {:induction false} RunPrefixOk<M>(step: (M, string, nat) -> Result<M, ParseError>,
                                          m0: M, lines: seq<string>, j: nat, k: nat)
    requires k <= j <= |lines| && Run(step, m0, lines, j).Ok?
    ensures Run(step, m0, lines, k).Ok?
    decreases j - k
  {
    if k < j {
      RunOkBefore(step, m0, lines, j);
      RunPrefixOk(step, m0, lines, j - 1, k);
    }
  }

  /** Once a run has failed, the lines after change nothing: the loop is left with the
      first error. */
  lemma {:induction false} RunErrorPersists<M>(step: (M, string, nat) -> Result<M, ParseError>,
                                               m0: M, lines: seq<string>, j: nat, k: nat)
    requires j <= k <= |lines| && Run(step, m0, lines, j).Err?
    ensures Run(step, m0, lines, k) == Run(step, m0, lines, j)
    decreases k - j
  {
    if j < k {
      RunErrorCarriesOn(step, m0, lines, j + 1, Run(step, m0, lines, j).error);
      RunErrorPersists(step, m0, lines, j + 1, k);
    }
  }

  /** A failed run stopped at the line its error names: it got through the lines before,
      and the handler rejected that line with that error. */
  lemma {:induction false} RunStopsAtFirstError<M(!new)>(step: (M, string, nat) -> Result<M, ParseError>,
                                                   m0: M, lines: seq<string>, j: nat)
    requires j <= |lines| && ErrorsAtLine(step) && Run(step, m0, lines, j).Err?
    ensures var e := Run(step, m0, lines, j).error;
            1 <= e.line <= j && Run(step, m0, lines, e.line - 1).Ok?
            && step(Run(step, m0, lines, e.line - 1).value, lines[e.line - 1], e.line) == Err(e)
  {
    assert j > 0;
    match Run(step, m0, lines, j - 1)
    case Err(e) =>
      RunErrorCarriesOn(step, m0, lines, j, e);
      RunStopsAtFirstError(step, m0, lines, j - 1);
    case Ok(m) =>
      RunNext(step, m0, lines, j, m);
  }

  /** A failed run has the result of the run up to the error's line, and every shorter run
      succeeds. */
  lemma RunFailsAtErrorLine<M(!new)>(step: (M, string, nat) -> Result<M, ParseError>, m0: M,
                                     lines: seq<string>, j: nat)
    requires j <= |lines| && ErrorsAtLine(step) && Run(step, m0, lines, j).Err?
    ensures var e := Run(step, m0, lines, j).error;
            1 <= e.line <= j && Run(step, m0, lines, e.line - 1).Ok?
            && Run(step, m0, lines, e.line) == Err(e)
  {
    RunStopsAtFirstError(step, m0, lines, j);
    var e := Run(step, m0, lines, j).error;
    RunNext(step, m0, lines, e.line, Run(step, m0, lines, e.line - 1).value);
  }

  /** The run over the first `k` lines depends on those lines only. */
  lemma {:induction false} RunPrefix<M>(step: (M, string, nat) -> Result<M, ParseError>, m0: M,
                                        a: seq<string>, b: seq<string>, k: nat)
    requires k <= |a| && k <= |b| && a[..k] == b[..k]
    ensures Run(step, m0, a, k) == Run(step, m0, b, k)
  {
    if k > 0 {
      assert a[..k - 1] == a[..k][..k - 1] && b[..k - 1] == b[..k][..k - 1];
      assert a[k - 1] == a[..k][k - 1] && b[k - 1] == b[..k][k - 1];
      RunPrefix(step, m0, a, b, k - 1);
    }
  }

  /** Lines the handler ignores leave the starting state as it is. */
  lemma {:induction false} RunIgnoredPrefix<M(!new)>(step: (M, string, nat) -> Result<M, ParseError>,
                                               m0: M, lines: seq<string>, k: nat)
    requires k <= |lines| && forall q :: 0 <= q < k ==> Ignored(step, lines[q])
    ensures Run(step, m0, lines, k) == Ok(m0)
  {
    if k > 0 {
      RunIgnoredPrefix(step, m0, lines, k - 1);
      assert Ignored(step, lines[k - 1]);
      RunNext(step, m0, lines, k, m0);
    }
  }

  // ---------------------------------------------------------------------------------------
  // Inserting an ignored line.

  /** The run reaches the inserted line in the state it had before it, and leaves it so. */
  lemma RunOverIgnoredLine<M(!new)>(step: (M, string, nat) -> Result<M, ParseError>, m0: M,
                              lines: seq<string>, lines': seq<string>, j: nat, blank: string)
    requires j <= |lines| && Ignored(step, blank)
    requires lines' == lines[..j] + [blank] + lines[j..]
    ensures Run(step, m0, lines', j + 1) == Run(step, m0, lines, j)
  {
    assert lines'[..j] == lines[..j];
    RunPrefix(step, m0, lines', lines, j);
    assert lines'[j] == blank;
    match Run(step, m0, lines, j)
    case Err(e) =>
      RunErrorCarriesOn(step, m0, lines', j + 1, e);
    case Ok(m) =>
      RunNext(step, m0, lines', j + 1, m);
  }

  /** Line `k` of `lines` is line `k + 1` of `lines'`: runs that agree up to renumbering
      before it agree after it. */
  lemma RunPastIgnoredLine<M(!new)>(step: (M, string, nat) -> Result<M, ParseError>, m0: M,
                              lines: seq<string>, lines': seq<string>, j: nat, k: nat)
    requires j < k <= |lines| && |lines'| == |lines| + 1 && lines'[k] == lines[k - 1]
    requires NumberOnlyInErrors(step)
    requires Run(step, m0, lines', k) == Renumbered(Run(step, m0, lines, k - 1), j)
    ensures Run(step, m0, lines', k + 1) == Renumbered(Run(step, m0, lines, k), j)
  {
    match Run(step, m0, lines, k - 1)
    case Err(e) =>
      RunErrorCarriesOn(step, m0, lines, k, e);
      RunErrorCarriesOn(step, m0, lines', k + 1, if e.line > j then e.(line := e.line + 1) else e);
    case Ok(m) =>
      RunNext(step, m0, lines, k, m);
      RunNext(step, m0, lines', k + 1, m);
      var raw := lines[k - 1];
      assert step(m, raw, k) == Relined(step(m, raw, 0), k);
      assert step(m, raw, k + 1) == Relined(step(m, raw, 0), k + 1);
  }

  /** Inserting a line the handler ignores after line `j` changes nothing but the numbers
      of the lines after it. */
  lemma {:induction false} RunWithIgnoredLine<M(!new)>(step: (M, string, nat) -> Result<M, ParseError>,
                                                 m0: M, lines: seq<string>, j: nat,
                                                 blank: string, k: nat)
    requires j <= k <= |lines| && Ignored(step, blank)
    requires ErrorsAtLine(step) && NumberOnlyInErrors(step)
    ensures var lines' := lines[..j] + [blank] + lines[j..];
            Run(step, m0, lines', k + 1) == Renumbered(Run(step, m0, lines, k), j)
    decreases k
  {
    var lines' := lines[..j] + [blank] + lines[j..];
    if k == j {
      RunOverIgnoredLine(step, m0, lines, lines', j, blank);
      if Run(step, m0, lines, j).Err? {
        RunStopsAtFirstError(step, m0, lines, j);
      }
    } else {
      RunWithIgnoredLine(step, m0, lines, j, blank, k - 1);
      assert lines'[k] == lines[k - 1];
      RunPastIgnoredLine(step, m0, lines, lines', j, k);
    }
  }
}

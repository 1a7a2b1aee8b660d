/** Printing an exception and its chain of causes to the runtime's diagnostic output. */
module Diagnostics {
  import opened Options

  /** An exception as far as printing is concerned: its own description (what
      ToString gives, treated as opaque text) and the inner exception that caused it. */
  datatype Exn = Exn(description: string, inner: Option<Exn>)

  const UnhandledException := "Unhandled exception: "
  const TopLevelHandlerRaised := "Top level handler raised: "
  const CausedBy := "Caused by: "
  const NoOtherCauses := "No other causes."

  /** The descriptions along the causal chain of `e`, outermost first. */
  function Chain(e: Exn): (descriptions: seq<string>)
    ensures |descriptions| >= 1 && descriptions[0] == e.description
  {
    [e.description] + (match e.inner case None => [] case Some(cause) => Chain(cause))
  }

  /** The lines PrintExn writes for `e` under `header`: the header line for `e`,
      a "Caused by" line for each cause below it, and the terminator. */
  function Report(header: string, e: Exn): (lines: seq<string>)
    ensures |lines| == |Chain(e)| + 1
    ensures lines[|lines| - 1] == NoOtherCauses
    decreases e
  {
    [header + e.description] +
    (match e.inner case None => [NoOtherCauses] case Some(cause) => Report(CausedBy, cause))
  }

  /** The report read line by line against the chain: exactly one line per link,
      the first under the header, the others under "Caused by: ", then the terminator. */
  lemma {:induction false} ReportLines(header: string, e: Exn)
    ensures |Report(header, e)| == |Chain(e)| + 1
    ensures Report(header, e)[0] == header + Chain(e)[0]
    ensures forall i | 1 <= i < |Chain(e)| :: Report(header, e)[i] == CausedBy + Chain(e)[i]
    ensures Report(header, e)[|Chain(e)|] == NoOtherCauses
    decreases e
  {
    match e.inner
    case None =>
    case Some(cause) =>
      ReportLines(CausedBy, cause);
      forall i | 1 <= i < |Chain(e)|
        ensures Report(header, e)[i] == CausedBy + Chain(e)[i]
      {
        assert Report(header, e)[i] == Report(CausedBy, cause)[i - 1];
        assert Chain(e)[i] == Chain(cause)[i - 1];
      }
  }

  /** The report for exception A caused by B caused by C has four lines; see
      Handlers.UnhandledThreeLinkChain for the dispatch that prints it. */
  lemma ThreeLinkChain(a: string, b: string, c: string)
    ensures Report(UnhandledException, Exn(a, Some(Exn(b, Some(Exn(c, None))))))
         == [UnhandledException + a, CausedBy + b, CausedBy + c, NoOtherCauses]
  {
    var ec := Exn(c, None);
    var eb := Exn(b, Some(ec));
    assert Report(CausedBy, ec) == [CausedBy + c, NoOtherCauses];
    assert Report(CausedBy, eb) == [CausedBy + b, CausedBy + c, NoOtherCauses];
  }

  /** The diagnostic output: every line written so far, in order. */
  class Console {
    var lines: seq<string>

    constructor ()
      ensures lines == []
    {
      lines := [];
    }

    /** Writes one physical line. */
    method WriteLine(line: string)
      modifies this
      ensures lines == old(lines) + [line]
    {
      lines := lines + [line];
    }
  }

  /** What is still to be printed when `next` is the link the loop will print next
      under `header` (None once the chain is exhausted). */
  ghost function Unprinted(header: string, next: Option<Exn>): seq<string>
  {
    match next
    case None => [NoOtherCauses]
    case Some(x) => Report(header, x)
  }

  /** Printing the line for `x` under `header` leaves the lines for its causes to print. */
  lemma PrintedOne(printed: seq<string>, header: string, x: Exn)
    ensures printed + Unprinted(header, Some(x))
         == (printed + [header + x.description]) + Unprinted(CausedBy, x.inner)
  {
  }

  /** Prints `e` and each of its inner exceptions, then the terminator line. */
  method PrintExn(out: Console, header: string, e: Exn)
    modifies out
    ensures out.lines == old(out.lines) + Report(header, e)
  {
    var first := true;
    var next: Option<Exn> := Some(e);
    while next.Some?
      invariant first ==> next == Some(e)
      invariant out.lines + Unprinted(if first then header else CausedBy, next)
             == old(out.lines) + Report(header, e)
      decreases next
    {
      var x := next.value;
      var line := (if first then header else CausedBy) + x.description;
      PrintedOne(out.lines, if first then header else CausedBy, x);
      out.WriteLine(line);
      first := false;
      next := x.inner;
    }
    out.WriteLine(NoOtherCauses);
  }
}

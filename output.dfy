/**
 * Parsing of the worker's text output (main.go): drop one trailing
 * newline, split on newlines, and read float metrics from fixed line
 * positions. `strconv.ParseFloat` is the parameter `parse`; an error
 * leaves the metric at 0.
 */
module Output {
  import opened Wrappers
  import opened Text
  import opened Sessions

  /** The response lines: at most one trailing "\n" removed, then split on "\n". */
  function Lines(output: string): (lines: seq<string>)
    ensures |lines| >= 1
    ensures forall i :: 0 <= i < |lines| ==> '\n' !in lines[i]
  {
    Split(TrimSuffix(output, "\n"), '\n')
  }

  /**
   * `v, _ := strconv.ParseFloat(line, 64)`: the value, or 0 when the text is
   * not a number. Out-of-range text (±Inf with `ErrRange`) is outside `real`.
   */
  function ParseOrZero(parse: string -> Option<real>, line: string): real {
    match parse(line)
    case Some(v) => v
    case None => 0.0
  }

  /** The metrics in the fixed order the training flow reads them. */
  function MetricsList(m: Metrics): seq<real> {
    [m.unoptValAccuracy, m.unoptValRecall, m.unoptTestAccuracy, m.unoptTestRecall,
     m.valAccuracy, m.valRecall, m.testAccuracy, m.testRecall]
  }

  /** The eight metrics a training job reports, taken from the last eight lines. */
  function TrainingMetrics(lines: seq<string>, parse: string -> Option<real>): (m: Metrics)
    requires |lines| >= 8
    ensures forall k :: 0 <= k < 8 ==> MetricsList(m)[k] == ParseOrZero(parse, lines[|lines| - 8 + k])
  {
    var n := |lines|;
    Metrics(ParseOrZero(parse, lines[n - 8]), ParseOrZero(parse, lines[n - 7]),
            ParseOrZero(parse, lines[n - 6]), ParseOrZero(parse, lines[n - 5]),
            ParseOrZero(parse, lines[n - 4]), ParseOrZero(parse, lines[n - 3]),
            ParseOrZero(parse, lines[n - 2]), ParseOrZero(parse, lines[n - 1]))
  }

  /** Precision and recall of an inference job, taken from the first two lines. */
  function InferenceMetrics(lines: seq<string>, parse: string -> Option<real>): (r: InferenceResponse)
    requires |lines| >= 2
    ensures r.trainedPrecision == ParseOrZero(parse, lines[0]) && r.trainedRecall == ParseOrZero(parse, lines[1])
  {
    InferenceResponse(ParseOrZero(parse, lines[0]), ParseOrZero(parse, lines[1]))
  }

  /** Training parse of raw output; None where the Go code indexes out of range. */
  function ParseTraining(output: string, parse: string -> Option<real>): (r: Option<Metrics>)
    ensures r.Some? <==> |Lines(output)| >= 8
  {
    var lines := Lines(output);
    if |lines| < 8 then None else Some(TrainingMetrics(lines, parse))
  }

  /** Inference parse of raw output; None where the Go code indexes out of range. */
  function ParseInference(output: string, parse: string -> Option<real>): (r: Option<InferenceResponse>)
    ensures r.Some? <==> |Lines(output)| >= 2
  {
    var lines := Lines(output);
    if |lines| < 2 then None else Some(InferenceMetrics(lines, parse))
  }

  /** Text printed line by line, newline-free lines, comes back as those lines. */
  lemma LinesOfPrinted(lines: seq<string>)
    requires |lines| >= 1
    requires forall i :: 0 <= i < |lines| ==> '\n' !in lines[i]
    ensures Lines(Printed(lines)) == lines
  {
    PrintedIsJoin(lines);
    TrimSuffixOfAppended(Join(lines, '\n'), "\n");
    SplitJoin(lines, '\n');
  }

  /**
   * The worker prints log lines and then eight metric lines, one value per
   * line; parsing recovers the eight values in order.
   */
  lemma TrainingRoundTrip(printed: seq<string>, values: seq<real>, parse: string -> Option<real>)
    requires |printed| >= 8 && |values| == 8
    requires forall i :: 0 <= i < |printed| ==> '\n' !in printed[i]
    requires forall k :: 0 <= k < 8 ==> parse(printed[|printed| - 8 + k]) == Some(values[k])
    ensures ParseTraining(Printed(printed), parse).Some?
    ensures MetricsList(ParseTraining(Printed(printed), parse).value) == values
  {
    LinesOfPrinted(printed);
  }

  /**
   * The inference worker prints precision, then recall, then possibly more
   * lines; parsing recovers the two values.
   */
  lemma InferenceRoundTrip(printed: seq<string>, precision: real, recall: real, parse: string -> Option<real>)
    requires |printed| >= 2
    requires forall i :: 0 <= i < |printed| ==> '\n' !in printed[i]
    requires parse(printed[0]) == Some(precision) && parse(printed[1]) == Some(recall)
    ensures ParseInference(Printed(printed), parse) == Some(InferenceResponse(precision, recall))
  {
    LinesOfPrinted(printed);
  }

  /** Output with fewer than eight lines (an empty one, say) cannot be parsed as a training result. */
  lemma EmptyOutputHasOneLine()
    ensures Lines("") == [""]
    ensures ParseTraining("", (l: string) => None).None?
  {
  }
}

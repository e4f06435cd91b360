/**
 * The object-detection tool: a lazily loaded detector, inference on an image path, class counts rendered as
 * text, and every failure turned into an ordinary "Error analyzing image: ..." result.
 *
 * The detector library is not modelled. Loading is a function from a weights name to a handle or an exception
 * message; inference is a function from a handle and an image path to result frames or an exception message.
 */
module Tool {
  import opened Wrappers
  import opened Numerals
  import opened Text
  import opened Counting
  import opened Detection

  /** A loaded detector: the weights it was built from and its class-index-to-name table. */
  datatype Handle = Handle(weights: string, names: map<nat, string>)

  /** The tool's input schema: one image path, otherwise unconstrained. */
  datatype YoloToolInput = YoloToolInput(imagePath: string)

  const Header: string := "Detected objects:"
  const ErrorPrefix: string := "Error analyzing image: "

  /** The text returned for any exception raised while analysing. */
  function ErrorReport(message: string): (s: string)
    ensures StartsWith(s, ErrorPrefix) && s[|ErrorPrefix|..] == message
    ensures !StartsWith(s, Header)
  {
    var s := ErrorPrefix + message;
    assert s[0] != Header[0];
    s
  }

  /** `f"- {obj}: {count}"` */
  function ClassLine(name: string, count: nat): (line: string)
    ensures |name| + 4 < |line|
    ensures StartsWith(line, "- ") && line[2..|name| + 2] == name && line[|name| + 2..|name| + 4] == ": "
    ensures forall i :: |name| + 4 <= i < |line| ==> IsDigit(line[i])
    ensures ParseDecimal(line[|name| + 4..]) == count
  {
    var digits := Decimal(count);
    ParseDecimalOfDecimal(count);
    var line := "- " + name + ": " + digits;
    assert line[|name| + 4..] == digits;
    line
  }

  /** One line per (class, count) pair, in the pairs' order. */
  function ClassLines(items: seq<(string, nat)>): seq<string> {
    seq(|items|, i requires 0 <= i < |items| => ClassLine(items[i].0, items[i].1))
  }

  /** The header, then one line per counted class in insertion order, joined by newlines. */
  function Report(c: Counter): (r: string)
    requires WellFormed(c)
    ensures StartsWith(r, Header)
    ensures c.keys == [] ==> r == Header
  {
    var lines := [Header] + ClassLines(Items(c));
    JoinStartsWithFirst(lines, '\n');
    Join(lines, '\n')
  }

  /**
   * What follows a successful inference: flatten the boxes to class names, count them, render the counts.
   * A class index missing from `names` raises KeyError, whose message is the index in decimal.
   */
  function Analyze(handle: Handle, frames: seq<Frame>): (r: string)
    ensures StartsWith(r, Header) ==> forall i :: 0 <= i < |ClassIds(frames)| ==> ClassIds(frames)[i] in handle.names
    ensures (forall i :: 0 <= i < |ClassIds(frames)| ==> ClassIds(frames)[i] in handle.names) ==> StartsWith(r, Header)
    ensures !StartsWith(r, Header) ==> StartsWith(r, ErrorPrefix)
    ensures TotalBoxes(frames) == 0 ==> r == Header
  {
    var found := Labels(ClassIds(frames), handle.names);
    LabelsSuccess(ClassIds(frames), handle.names);
    if found.Failure? then ErrorReport(Decimal(found.error)) else Report(Tally(found.value))
  }

  /** The model slot after a call, and what the call returned. */
  datatype CallResult = CallResult(model: Option<Handle>, output: string)

  /**
   * One call of the tool, starting from model slot `model`. The loader runs only when the slot is empty,
   * and the slot is filled only when the loader returns a handle.
   */
  function Call(model: Option<Handle>, modelName: string, imagePath: string,
                load: string -> Result<Handle, string>,
                detect: (Handle, string) -> Result<seq<Frame>, string>): (r: CallResult)
    ensures model.Some? ==> r.model == model
    ensures model.None? ==> r.model == if load(modelName).Success? then Some(load(modelName).value) else None
    ensures r.model.None? ==> r.output == ErrorReport(load(modelName).error)
    ensures r.model.Some? && detect(r.model.value, imagePath).Failure?
        ==> r.output == ErrorReport(detect(r.model.value, imagePath).error)
    ensures r.model.Some? && detect(r.model.value, imagePath).Success?
        ==> r.output == Analyze(r.model.value, detect(r.model.value, imagePath).value)
    ensures StartsWith(r.output, Header) || StartsWith(r.output, ErrorPrefix)
  {
    var loaded := if model.Some? then Success(model.value) else load(modelName);
    match loaded
    case Failure(message) => CallResult(model, ErrorReport(message))
    case Success(handle) =>
      var output := match detect(handle, imagePath)
        case Failure(message) => ErrorReport(message)
        case Success(frames) => Analyze(handle, frames);
      CallResult(Some(handle), output)
  }

  /**
   * Walks every box of every frame, frame by frame, looking up each class index in `names` and appending
   * the name; stops at the first unknown index, as the KeyError does.
   */
  method CollectLabels(names: map<nat, string>, frames: seq<Frame>) returns (detected: Result<seq<string>, nat>)
    ensures detected == Labels(ClassIds(frames), names)
  {
    var labels: seq<string> := [];
    var i := 0;
    while i < |frames|
      invariant 0 <= i <= |frames|
      invariant Labels(ClassIds(frames[..i]), names) == Success(labels)
    {
      var boxes := frames[i];
      var j := 0;
      assert ClassIds(frames[..i]) + boxes[..j] == ClassIds(frames[..i]);
      while j < |boxes|
        invariant 0 <= j <= |boxes|
        invariant Labels(ClassIds(frames[..i]) + boxes[..j], names) == Success(labels)
      {
        var classId := boxes[j];
        if classId !in names {
          UnknownIdStops(frames, i, j, names, labels);
          return Failure(classId);
        }
        KnownIdExtends(frames, i, j, names, labels);
        labels := labels + [names[classId]];
        j := j + 1;
      }
      assert boxes[..j] == boxes;
      ClassIdsExtend(frames, i);
      i := i + 1;
    }
    assert frames[..i] == frames;
    detected := Success(labels);
  }

  /** Builds the output lines, header first and one per counted class, and joins them with newlines. */
  method Render(counts: Counter) returns (output: string)
    requires WellFormed(counts)
    ensures output == Report(counts)
  {
    var items := Items(counts);
    var lines := [Header];
    var k := 0;
    while k < |items|
      invariant 0 <= k <= |items|
      invariant lines == [Header] + ClassLines(items[..k])
    {
      lines := lines + [ClassLine(items[k].0, items[k].1)];
      k := k + 1;
    }
    assert items[..k] == items;
    output := Join(lines, '\n');
  }

  class YoloTool {
    /** The detector handle, empty until a call has loaded it. */
    var model: Option<Handle>
    /** How many times this tool has invoked the loader. */
    ghost var loaderCalls: nat

    constructor ()
      ensures model == None && loaderCalls == 0
    {
      model := None;
      loaderCalls := 0;
    }

    /**
     * Analyses the image at `imagePath`, loading the detector named `modelName` first if this tool has none.
     * Returns the report or the error text; never fails.
     */
    method Run(imagePath: string, modelName: string,
               load: string -> Result<Handle, string>,
               detect: (Handle, string) -> Result<seq<Frame>, string>) returns (output: string)
      modifies this
      ensures model == Call(old(model), modelName, imagePath, load, detect).model
      ensures output == Call(old(model), modelName, imagePath, load, detect).output
      ensures loaderCalls == old(loaderCalls) + (if old(model).None? then 1 else 0)
      ensures old(model).Some? ==> model == old(model)
    {
      if model.None? {
        loaderCalls := loaderCalls + 1;
        var loaded := load(modelName);
        if loaded.Failure? {
          output := ErrorReport(loaded.error);
          return;
        }
        model := Some(loaded.value);
      }
      var handle := model.value;
      var results := detect(handle, imagePath);
      if results.Failure? {
        output := ErrorReport(results.error);
        return;
      }
      var frames := results.value;
      var detected := CollectLabels(handle.names, frames);
      match detected
      case Failure(classId) =>
        output := ErrorReport(Decimal(classId));
      case Success(labels) =>
        output := Render(Tally(labels));
    }
  }
}

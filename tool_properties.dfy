/** What the tool promises its caller, stated over the pure model of one call and of a series of calls. */
module ToolProperties {
  import opened Wrappers
  import opened Numerals
  import opened Text
  import opened Counting
  import opened Detection
  import opened Tool

  /** A class line has no line break when the class name has none. */
  lemma ClassLineSingleLine(name: string, count: nat)
    requires '\n' !in name
    ensures '\n' !in ClassLine(name, count)
  {
  }

  /**
   * Read back line by line, a report is the header followed by exactly one line per counted class,
   * in insertion order, with no line added or lost.
   */
  lemma ReportSplitsIntoLines(c: Counter)
    requires WellFormed(c)
    requires forall i :: 0 <= i < |c.keys| ==> '\n' !in c.keys[i]
    ensures Split(Report(c), '\n') == [Header] + ClassLines(Items(c))
  {
    var lines := [Header] + ClassLines(Items(c));
    forall k | 0 <= k < |lines|
      ensures '\n' !in lines[k]
    {
      if k > 0 {
        ClassLineSingleLine(c.keys[k - 1], c.counts[c.keys[k - 1]]);
      }
    }
    SplitJoin(lines, '\n');
  }

  /** The counted report of a label list: the header, then one line per distinct label with its occurrences. */
  lemma CountedReport(labels: seq<string>)
    requires forall i :: 0 <= i < |labels| ==> '\n' !in labels[i]
    ensures
      var keys := Tally(labels).keys;
      var lines := Split(Report(Tally(labels)), '\n');
      && |lines| == |keys| + 1
      && lines[0] == Header
      && forall i :: 0 <= i < |keys| ==> lines[i + 1] == ClassLine(keys[i], Occurrences(labels, keys[i]))
  {
    var c := Tally(labels);
    KeysAreLabels(labels);
    ReportSplitsIntoLines(c);
    var items := Items(c);
    TallyCounts(labels);
    forall i | 0 <= i < |c.keys|
      ensures items[i].1 == Occurrences(labels, c.keys[i])
    {
      assert c.keys[i] in c.counts;
    }
  }

  /** Every counted key is one of the labels, so it has no line break when no label has one. */
  lemma KeysAreLabels(labels: seq<string>)
    requires forall i :: 0 <= i < |labels| ==> '\n' !in labels[i]
    ensures forall i :: 0 <= i < |Tally(labels).keys| ==> '\n' !in Tally(labels).keys[i]
  {
    var c := Tally(labels);
    forall i | 0 <= i < |c.keys|
      ensures '\n' !in c.keys[i]
    {
      assert c.keys[i] in c.counts;
      assert c.keys[i] in labels;
    }
  }

  /**
   * A successful analysis renders the header and then one line per distinct detected class: every class once,
   * in the order of its first detection, with its number of boxes; the counts add up to the number of boxes.
   */
  lemma SuccessfulReport(handle: Handle, frames: seq<Frame>)
    requires forall i :: 0 <= i < |ClassIds(frames)| ==> ClassIds(frames)[i] in handle.names
    requires forall i :: 0 <= i < |ClassIds(frames)| ==> '\n' !in handle.names[ClassIds(frames)[i]]
    ensures Labels(ClassIds(frames), handle.names).Success?
    ensures
      var labels := Labels(ClassIds(frames), handle.names).value;
      var keys := Tally(labels).keys;
      var lines := Split(Analyze(handle, frames), '\n');
      && |labels| == TotalBoxes(frames)
      && |lines| == |keys| + 1
      && lines[0] == Header
      && (forall i :: 0 <= i < |keys| ==> lines[i + 1] == ClassLine(keys[i], Occurrences(labels, keys[i])))
      && Distinct(keys)
      && (forall name :: name in keys <==> name in labels)
      && InFirstOccurrenceOrder(keys, labels)
      && SumCounts(Items(Tally(labels))) == TotalBoxes(frames)
  {
    var ids := ClassIds(frames);
    LabelsSuccess(ids, handle.names);
    var labels := Labels(ids, handle.names).value;
    assert Analyze(handle, frames) == Report(Tally(labels));
    assert forall i :: 0 <= i < |labels| ==> '\n' !in labels[i] by {
      forall i | 0 <= i < |labels|
        ensures '\n' !in labels[i]
      {
        assert labels[i] == handle.names[ids[i]];
      }
    }
    CountedReport(labels);
    TallyOrder(labels);
    TallySum(labels);
  }

  /** A box whose class index is missing from `names` turns the whole output into the KeyError report. */
  lemma UnknownClass(handle: Handle, frames: seq<Frame>, f: nat, b: nat)
    requires f < |frames| && b < |frames[f]|
    requires frames[f][b] !in handle.names
    ensures exists k ::
      && 0 <= k < |ClassIds(frames)|
      && ClassIds(frames)[k] !in handle.names
      && (forall i :: 0 <= i < k ==> ClassIds(frames)[i] in handle.names)
      && Analyze(handle, frames) == ErrorReport(Decimal(ClassIds(frames)[k]))
  {
    var ids := ClassIds(frames);
    ClassIdsAt(frames, f, b);
    LabelsSuccess(ids, handle.names);
    LabelsFailure(ids, handle.names);
  }

  /** A report never reads as an error: reports start with the header, errors with the error prefix. */
  lemma ReportIsNotError(c: Counter, message: string)
    requires WellFormed(c)
    ensures Report(c) != ErrorReport(message)
  {
    var lines := [Header] + ClassLines(Items(c));
    JoinStartsWithFirst(lines, '\n');
    assert Report(c)[0] == 'D';
    assert ErrorReport(message)[0] == 'E';
  }

  /** Once the slot holds a handle, a call keeps it and never consults the loader. */
  lemma LoadedModelKept(handle: Handle, modelName: string, imagePath: string,
                        load: string -> Result<Handle, string>, otherLoad: string -> Result<Handle, string>,
                        detect: (Handle, string) -> Result<seq<Frame>, string>)
    ensures Call(Some(handle), modelName, imagePath, load, detect).model == Some(handle)
    ensures Call(Some(handle), modelName, imagePath, load, detect)
         == Call(Some(handle), modelName, imagePath, otherLoad, detect)
  {
  }

  /** A failed load leaves the slot empty and returns the loader's message as the error report. */
  lemma FailedLoad(modelName: string, imagePath: string,
                   load: string -> Result<Handle, string>,
                   detect: (Handle, string) -> Result<seq<Frame>, string>)
    requires load(modelName).Failure?
    ensures Call(None, modelName, imagePath, load, detect)
         == CallResult(None, ErrorReport(load(modelName).error))
  {
  }

  /** A failed inference returns its message as the error report, and the handle stays in the slot. */
  lemma FailedInference(model: Option<Handle>, modelName: string, imagePath: string,
                        load: string -> Result<Handle, string>,
                        detect: (Handle, string) -> Result<seq<Frame>, string>, handle: Handle)
    requires model == Some(handle) || (model.None? && load(modelName) == Success(handle))
    requires detect(handle, imagePath).Failure?
    ensures Call(model, modelName, imagePath, load, detect)
         == CallResult(Some(handle), ErrorReport(detect(handle, imagePath).error))
  {
  }

  /**
   * Calling again on the same image gives the same output and the same slot, given that the image at the path
   * is unchanged and the detector deterministic, so inference is a fixed function of the handle and the path.
   */
  lemma RepeatedCall(model: Option<Handle>, modelName: string, imagePath: string,
                     load: string -> Result<Handle, string>,
                     detect: (Handle, string) -> Result<seq<Frame>, string>)
    ensures
      var first := Call(model, modelName, imagePath, load, detect);
      Call(first.model, modelName, imagePath, load, detect) == first
  {
  }

  /** The slot and outputs after a series of calls on one tool, and how often the loader ran. */
  datatype SessionResult = SessionResult(model: Option<Handle>, outputs: seq<string>, loaderCalls: nat)

  function Session(model: Option<Handle>, modelName: string, inputs: seq<YoloToolInput>,
                   load: string -> Result<Handle, string>,
                   detect: (Handle, string) -> Result<seq<Frame>, string>): (r: SessionResult)
    ensures |r.outputs| == |inputs|
    decreases |inputs|
  {
    if inputs == [] then SessionResult(model, [], 0)
    else
      var before := Session(model, modelName, inputs[..|inputs| - 1], load, detect);
      var call := Call(before.model, modelName, inputs[|inputs| - 1].imagePath, load, detect);
      SessionResult(call.model, before.outputs + [call.output],
                    before.loaderCalls + if before.model.None? then 1 else 0)
  }

  /** One more input extends a session by one call from the slot the shorter session left. */
  lemma SessionStep(model: Option<Handle>, modelName: string, inputs: seq<YoloToolInput>, i: nat,
                    load: string -> Result<Handle, string>,
                    detect: (Handle, string) -> Result<seq<Frame>, string>)
    requires i < |inputs|
    ensures
      var before := Session(model, modelName, inputs[..i], load, detect);
      var call := Call(before.model, modelName, inputs[i].imagePath, load, detect);
      Session(model, modelName, inputs[..i + 1], load, detect)
        == SessionResult(call.model, before.outputs + [call.output],
                         before.loaderCalls + if before.model.None? then 1 else 0)
  {
    assert inputs[..i + 1][..i] == inputs[..i];
  }

  /** Successive calls of `Run` on one tool produce exactly the slot, outputs and loader count of `Session`. */
  method RunAll(tool: YoloTool, modelName: string, inputs: seq<YoloToolInput>,
                load: string -> Result<Handle, string>,
                detect: (Handle, string) -> Result<seq<Frame>, string>) returns (outputs: seq<string>)
    modifies tool
    ensures tool.model == Session(old(tool.model), modelName, inputs, load, detect).model
    ensures outputs == Session(old(tool.model), modelName, inputs, load, detect).outputs
    ensures tool.loaderCalls - old(tool.loaderCalls)
         == Session(old(tool.model), modelName, inputs, load, detect).loaderCalls
  {
    ghost var start, startCalls := tool.model, tool.loaderCalls;
    ghost var session := Session(start, modelName, [], load, detect);
    outputs := [];
    var i := 0;
    while i < |inputs|
      invariant 0 <= i <= |inputs|
      invariant session == Session(start, modelName, inputs[..i], load, detect)
      invariant tool.model == session.model && outputs == session.outputs
      invariant tool.loaderCalls == startCalls + session.loaderCalls
    {
      SessionStep(start, modelName, inputs, i, load, detect);
      var output := tool.Run(inputs[i].imagePath, modelName, load, detect);
      session := Session(start, modelName, inputs[..i + 1], load, detect);
      outputs := outputs + [output];
      i := i + 1;
    }
    assert inputs[..i] == inputs;
  }

  /** A tool that already holds a handle keeps it for any series of calls and never runs the loader. */
  lemma {:induction false} LoadedSessionNeverLoads(handle: Handle, modelName: string, inputs: seq<YoloToolInput>,
                                                   load: string -> Result<Handle, string>,
                                                   detect: (Handle, string) -> Result<seq<Frame>, string>)
    ensures Session(Some(handle), modelName, inputs, load, detect).model == Some(handle)
    ensures Session(Some(handle), modelName, inputs, load, detect).loaderCalls == 0
    decreases |inputs|
  {
    if inputs != [] {
      LoadedSessionNeverLoads(handle, modelName, inputs[..|inputs| - 1], load, detect);
    }
  }

  /** When the loader succeeds, it runs at most once over any series of calls. */
  lemma {:induction false} LoaderRunsAtMostOnce(model: Option<Handle>, modelName: string, inputs: seq<YoloToolInput>,
                                                load: string -> Result<Handle, string>,
                                                detect: (Handle, string) -> Result<seq<Frame>, string>)
    requires load(modelName).Success?
    ensures Session(model, modelName, inputs, load, detect).loaderCalls <= 1
    ensures inputs != [] ==> Session(model, modelName, inputs, load, detect).model.Some?
    decreases |inputs|
  {
    if inputs != [] {
      var init := inputs[..|inputs| - 1];
      LoaderRunsAtMostOnce(model, modelName, init, load, detect);
      var before := Session(model, modelName, init, load, detect);
      if before.model.Some? {
        if init == [] {
          assert model.Some? && before.loaderCalls == 0;
        } else {
          LoadedFromStart(model, modelName, init, load, detect);
        }
      }
    }
  }

  /** The slot is filled after the first call at the latest, and the loader ran only where it was empty. */
  lemma {:induction false} LoadedFromStart(model: Option<Handle>, modelName: string, inputs: seq<YoloToolInput>,
                                           load: string -> Result<Handle, string>,
                                           detect: (Handle, string) -> Result<seq<Frame>, string>)
    requires load(modelName).Success?
    requires inputs != []
    ensures Session(model, modelName, inputs, load, detect).loaderCalls == if model.None? then 1 else 0
    decreases |inputs|
  {
    var init := inputs[..|inputs| - 1];
    if init != [] {
      LoadedFromStart(model, modelName, init, load, detect);
      LoaderRunsAtMostOnce(model, modelName, init, load, detect);
    }
  }

  /** While loading keeps failing, every call retries it, the slot stays empty and every output is the error. */
  lemma {:induction false} FailingLoaderRetried(modelName: string, inputs: seq<YoloToolInput>,
                                                load: string -> Result<Handle, string>,
                                                detect: (Handle, string) -> Result<seq<Frame>, string>)
    requires load(modelName).Failure?
    ensures Session(None, modelName, inputs, load, detect).model == None
    ensures Session(None, modelName, inputs, load, detect).loaderCalls == |inputs|
    ensures forall i :: 0 <= i < |inputs| ==>
      Session(None, modelName, inputs, load, detect).outputs[i] == ErrorReport(load(modelName).error)
    decreases |inputs|
  {
    if inputs != [] {
      FailingLoaderRetried(modelName, inputs[..|inputs| - 1], load, detect);
    }
  }
}

# Object-detection tool: a verified model in Dafny

This project models `YoloTool._run`, the one piece of logic in the vision-tool crew. It is the tool an
agent calls with an image path. The tool loads the object detector lazily, runs it on the image, and
flattens every detected box into its class name. It counts the names with `collections.Counter`, in
first-seen order, and renders a text report. Any `Exception` raised on the way is caught and returned as an
ordinary `"Error analyzing image: ..."` string.

Layout, one module per concern:

- `wrappers.dfy`, module `Wrappers`. `Option` is the model slot. `Result` is the outcome of a foreign
  call: a value, or an exception with its message.
- `numerals.dfy`, module `Numerals`. `str(n)` for a count, with a parser that reads it back.
- `text.dfy`, module `Text`. `"\n".join(lines)` and `str.split("\n")`, which undoes it for a non-empty list of lines without line breaks.
- `counting.dfy`, module `Counting`. `Counter(labels)`, modelled as an insertion-ordered dict: a key
  sequence plus a count map, built one label at a time.
- `detection.dfy`, module `Detection`. The boxes of the result frames are flattened to class indices, and
  each index is looked up in the model's `names` table. An unknown index raises `KeyError`.
- `yolo_tool.dfy`, module `Tool`. The class `YoloTool` has the mutable `model` slot and the method `Run`.
  The methods `CollectLabels` and `Render` hold the two loops of `_run`. The pure function `Call` gives
  the meaning of one invocation.
- `tool_properties.dfy`, module `ToolProperties`. The promises made to callers: the report format, the
  error cases, and load-once behaviour over a series of calls (`Session`).

The detector library is not visible. The loader is a parameter of type `string -> Result<Handle, string>`.
Inference is a parameter of type `(Handle, string) -> Result<seq<Frame>, string>`, where a frame is the
sequence of its boxes' class indices. The `YOLO_MODEL` environment variable, read with default
`yolov8n.pt`, is passed in as `modelName`. The `image_path` input is kept as an opaque string
(`YoloToolInput`).

Two facts about the code shape the error path:

- The error text is `str(e)` exactly as the exception renders it (yolo_tool.py:51). An exception message
  that contains line breaks therefore yields a multi-line error, and the model allows any message.
- A class index missing from `names` raises `KeyError(index)` (yolo_tool.py:36), and `str()` of that
  exception is the index in decimal. The model therefore reports `"Error analyzing image: " + Decimal(index)`.

## Model

| member | source | states |
|---|---|---|
| Numerals.Decimal | src/crewai_visiontool/tools/yolo_tool.py:46 | a count renders as at least one decimal digit, all digits, with no leading zero except for 0 itself |
| Numerals.ParseDecimalOfDecimal | src/crewai_visiontool/tools/yolo_tool.py:46 | the number written on a class line reads back as exactly the count |
| Numerals.DecimalInjective | src/crewai_visiontool/tools/yolo_tool.py:46 | different counts never render to the same text |
| Text.Join | src/crewai_visiontool/tools/yolo_tool.py:48 | joining a single line gives that line unchanged (the header-only output) |
| Text.Split | src/crewai_visiontool/tools/yolo_tool.py:48 | splitting on the separator gives at least one piece, and no piece contains the separator |
| Text.SplitJoin | src/crewai_visiontool/tools/yolo_tool.py:44-48 | splitting the joined text on "\n" gives back exactly the lines when none contains "\n": one separator between neighbours, none trailing |
| Counting.Empty | src/crewai_visiontool/tools/yolo_tool.py:41 | a new Counter is well formed and has no keys |
| Counting.Add | src/crewai_visiontool/tools/yolo_tool.py:41 | counting one more label raises its count by one (from 0 if new); a new label is appended to the end of the keys, existing keys keep their order; every other count is unchanged; every key stays listed exactly once |
| Counting.Tally | src/crewai_visiontool/tools/yolo_tool.py:40-41 | `Counter(labels)` lists each distinct label exactly once; a key is present exactly when it is one of the labels |
| Counting.Items | src/crewai_visiontool/tools/yolo_tool.py:45 | `items()` yields one (key, count) pair per key, in insertion order, with the key's count |
| Counting.TallyCounts | src/crewai_visiontool/tools/yolo_tool.py:41 | each count equals the number of occurrences of its label, so it is at least 1 |
| Counting.AddKeepsOrder | src/crewai_visiontool/tools/yolo_tool.py:41 | adding a label keeps the keys ordered by first occurrence in the longer label list |
| Counting.TallyOrder | src/crewai_visiontool/tools/yolo_tool.py:41-45 | keys are in the order of each label's first occurrence, not sorted |
| Counting.AddSum | src/crewai_visiontool/tools/yolo_tool.py:41 | adding a label raises the total of all counts by exactly one |
| Counting.TallySum | src/crewai_visiontool/tools/yolo_tool.py:41 | the counts add up to the number of labels |
| Detection.ClassIds | src/crewai_visiontool/tools/yolo_tool.py:32-35 | flattening gives one class index per box, summed over all frames |
| Detection.ClassIdsAt | src/crewai_visiontool/tools/yolo_tool.py:32-35 | box b of frame f lands at position (boxes of frames before f) + b: frames first, then boxes |
| Detection.ClassIdsAppend | src/crewai_visiontool/tools/yolo_tool.py:32-34 | flattening the concatenation of two frame lists concatenates their flattenings |
| Detection.Labels | src/crewai_visiontool/tools/yolo_tool.py:35-37 | a successful lookup gives one name per index; a failed one carries an index that occurs in the list and is missing from `names` |
| Detection.LabelsSuccess | src/crewai_visiontool/tools/yolo_tool.py:35-37 | the lookup succeeds exactly when every index is in `names`; entry i is then `names[id_i]`, one per index |
| Detection.LabelsFailure | src/crewai_visiontool/tools/yolo_tool.py:36 | a failed lookup carries the first index missing from `names`; all earlier indices are known |
| Detection.LabelsFailureSticks | src/crewai_visiontool/tools/yolo_tool.py:34-37 | once a lookup has failed, later boxes cannot turn it into a partial label list |
| Tool.ErrorReport | src/crewai_visiontool/tools/yolo_tool.py:50-51 | the error text starts with "Error analyzing image: " and the rest is the message unchanged; it never starts with the report header |
| Tool.ClassLine | src/crewai_visiontool/tools/yolo_tool.py:46 | a class line is "- ", then the class name, then ": ", then decimal digits that read back as the count |
| Tool.Report | src/crewai_visiontool/tools/yolo_tool.py:44-48 | the report starts with "Detected objects:", and is exactly that when there are no counted classes |
| Tool.Analyze | src/crewai_visiontool/tools/yolo_tool.py:31-48 | the output starts with the header exactly when every box's class index is in `names`, and otherwise starts with the error prefix; with zero boxes it is exactly "Detected objects:" |
| Tool.Call | src/crewai_visiontool/tools/yolo_tool.py:19-51 | a filled slot is kept; an empty slot is filled with the loaded handle, or stays empty when loading fails, and the output is then the loader's error; with a handle, a failed inference gives exactly the error text of its message and a successful one gives the analysis of its frames; every output is a report or an error text, never anything else |
| Tool.CollectLabels | src/crewai_visiontool/tools/yolo_tool.py:31-37 | the nested loops over frames and boxes produce exactly the lookup of the flattened indices, stopping at the first unknown one |
| Tool.Render | src/crewai_visiontool/tools/yolo_tool.py:44-48 | the loop over `items()` followed by the join produces exactly the report of the counter |
| Tool.YoloTool.constructor | src/crewai_visiontool/tools/yolo_tool.py:17 | a new tool has an empty model slot and has not invoked the loader |
| Tool.YoloTool.Run | src/crewai_visiontool/tools/yolo_tool.py:19-51 | one call returns `Call`'s output and leaves `Call`'s slot; the loader runs only if the slot was empty, and a filled slot keeps its handle |
| ToolProperties.ReportSplitsIntoLines | src/crewai_visiontool/tools/yolo_tool.py:44-48 | provided no key contains a line break: read line by line, a report is the header and then one line per counted class in insertion order |
| ToolProperties.CountedReport | src/crewai_visiontool/tools/yolo_tool.py:40-48 | provided no label contains a line break: the report of a label list has K+1 lines: "Detected objects:", then "- name: count" per distinct label with its occurrence count |
| ToolProperties.KeysAreLabels | src/crewai_visiontool/tools/yolo_tool.py:41 | counted keys contain no line break when no label does |
| ToolProperties.ClassLineSingleLine | src/crewai_visiontool/tools/yolo_tool.py:46 | a class line has no line break when its class name has none |
| ToolProperties.SuccessfulReport | src/crewai_visiontool/tools/yolo_tool.py:29-48 | provided no detected class name contains a line break: when every box's class is known, the output is the header plus exactly one line per distinct class; the counts are occurrences, in first-detection order, and sum to the number of boxes |
| ToolProperties.UnknownClass | src/crewai_visiontool/tools/yolo_tool.py:31-51 | if any box has an index missing from `names`, the output is the error for the first such index in frame-then-box order, with no partial report |
| ToolProperties.ReportIsNotError | src/crewai_visiontool/tools/yolo_tool.py:44-51 | a report never equals an error text: reports start with the header, errors with "Error analyzing image: " |
| ToolProperties.LoadedModelKept | src/crewai_visiontool/tools/yolo_tool.py:25-27 | with a handle in the slot a call keeps it, and its result does not depend on the loader at all |
| Text.JoinStartsWithFirst | src/crewai_visiontool/tools/yolo_tool.py:48 | the joined text begins with its first line |
| ToolProperties.FailedLoad | src/crewai_visiontool/tools/yolo_tool.py:25-27 | a failed load leaves the slot empty and returns "Error analyzing image: " + the loader's message (the handler at lines 50-51) |
| ToolProperties.FailedInference | src/crewai_visiontool/tools/yolo_tool.py:29 | when inference raises (a missing or unreadable image, say), the output is "Error analyzing image: " + its message, and the loaded handle stays in the slot |
| ToolProperties.RepeatedCall | src/crewai_visiontool/tools/yolo_tool.py:25-29 | provided the image at the path is unchanged between the calls and the detector is deterministic (inference is a fixed function of the handle and the path): calling again on the same image, from the slot the first call left, gives the same output and slot |
| ToolProperties.Session | src/crewai_visiontool/tools/yolo_tool.py:19-51 | a series of calls gives one output per input |
| ToolProperties.RunAll | src/crewai_visiontool/tools/yolo_tool.py:19-51 | successive calls of `Run` on one tool leave exactly the slot, the outputs and the loader count that `Session` gives, so the series lemmas below hold for the tool itself |
| ToolProperties.LoadedSessionNeverLoads | src/crewai_visiontool/tools/yolo_tool.py:25-27 | over any series of calls, a tool that holds a handle keeps it and never runs the loader |
| ToolProperties.LoaderRunsAtMostOnce | src/crewai_visiontool/tools/yolo_tool.py:25-27 | when loading succeeds, the loader runs at most once over any series of calls, and the slot is filled after the first |
| ToolProperties.LoadedFromStart | src/crewai_visiontool/tools/yolo_tool.py:25-27 | with a working loader, the loader runs exactly once over a non-empty series starting with an empty slot, and never when the slot starts filled |
| ToolProperties.FailingLoaderRetried | src/crewai_visiontool/tools/yolo_tool.py:25-27 | while loading fails, every call retries it, the slot stays empty and every output is the loader's error (the handler at lines 50-51) |

## Left out

- `src/crewai_visiontool/crew.py` is not part of this model. It declares the agent, task and crew for the external framework and contains no logic of its own.
- The detector is not modelled. Loading weights and running inference (yolo_tool.py:4, 27, 29) are calls into a foreign library. They appear only as parameters that return a value or an exception message, and the `verbose=False` option has no effect on the result.
- Environment reads and `load_dotenv()` (yolo_tool.py:21-23, 26) are process I/O. The weights name comes in as the `modelName` parameter, and a failure inside `load_dotenv` is not modelled.
- The pydantic input schema and the tool's name and description (yolo_tool.py:6-16) belong to the framework. `image_path` is an opaque string.
- Class indices are `nat` values. The float tensor `box.cls[0]` and its `int()` truncation, the confidence scores and the box coordinates are not modelled.
- A result frame whose `boxes` is `None` (possible for non-detection models) is not modelled. A frame is always a sequence of boxes.
- Exceptions other than a failed load, a failed inference or an unknown class index are not modelled. An example is running out of memory while building the lists.
- Concurrency is not modelled. Two threads could both see an empty slot and load the model twice. The model covers single-threaded calls only.
- Exception messages from the loader and the detector are opaque strings.
- ToolProperties.RepeatedCall: inference is a fixed function of the handle and the path. The file system is abstracted, so the lemma assumes that the image at a path does not change between calls and that the detector is deterministic. The source reads the file again on every call.
- ToolProperties.Session: the loader is a fixed function of the weights name. A load that fails once and succeeds later (a weights download, say) cannot be expressed in `Session` or the lemmas over it. `YoloTool.Run` takes the loader per call and does cover that case.
- ToolProperties.SuccessfulReport: a detected class name that contains a line break is still joined into the output, but the output then no longer reads as the header plus one line per class, so the lemma assumes names without line breaks.
- ToolProperties.CountedReport: assumes labels without line breaks, for the same reason.
- ToolProperties.ReportSplitsIntoLines: assumes keys without line breaks, for the same reason.

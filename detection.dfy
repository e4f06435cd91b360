/**
 * What `_run` does with the detector's output: every box of every result frame, frame by frame and box by
 * box, has its class index looked up in the model's `names` table.
 */
module Detection {
  import opened Wrappers

  /** One result frame: the class index of each of its boxes, in box order. */
  type Frame = seq<nat>

  /** Number of boxes over all frames. */
  function TotalBoxes(frames: seq<Frame>): nat
    decreases |frames|
  {
    if frames == [] then 0 else TotalBoxes(frames[..|frames| - 1]) + |frames[|frames| - 1]|
  }

  /** The class indices of all boxes, frames first, then boxes within a frame. */
  function ClassIds(frames: seq<Frame>): (ids: seq<nat>)
    ensures |ids| == TotalBoxes(frames)
    decreases |frames|
  {
    if frames == [] then [] else ClassIds(frames[..|frames| - 1]) + frames[|frames| - 1]
  }

  /**
   * `names[class_id]` for each index in turn, appended to a list. The first index that `names` lacks
   * raises KeyError and stops the walk; the failure carries that index.
   */
  function Labels(ids: seq<nat>, names: map<nat, string>): (r: Result<seq<string>, nat>)
    ensures r.Success? ==> |r.value| == |ids|
    ensures r.Failure? ==> r.error in ids && r.error !in names
    decreases |ids|
  {
    if ids == [] then Success([])
    else
      match Labels(ids[..|ids| - 1], names)
      case Failure(id) => Failure(id)
      case Success(labels) =>
        var id := ids[|ids| - 1];
        if id in names then Success(labels + [names[id]]) else Failure(id)
  }

  /** Flattening frames distributes over concatenation of frame lists. */
  lemma {:induction false} ClassIdsAppend(a: seq<Frame>, b: seq<Frame>)
    ensures ClassIds(a + b) == ClassIds(a) + ClassIds(b)
    decreases |b|
  {
    if b == [] {
      assert a + b == a;
    } else {
      var init, last := b[..|b| - 1], b[|b| - 1];
      var ab := a + b;
      assert ab[..|ab| - 1] == a + init && ab[|ab| - 1] == last;
      assert ClassIds(ab) == ClassIds(a + init) + last;
      ClassIdsAppend(a, init);
      assert ClassIds(b) == ClassIds(init) + last;
    }
  }

  /** Box `b` of frame `f` sits after all boxes of the earlier frames. */
  lemma {:induction false} ClassIdsAt(frames: seq<Frame>, f: nat, b: nat)
    requires f < |frames| && b < |frames[f]|
    ensures TotalBoxes(frames[..f]) + b < |ClassIds(frames)|
    ensures ClassIds(frames)[TotalBoxes(frames[..f]) + b] == frames[f][b]
  {
    assert frames == frames[..f] + [frames[f]] + frames[f + 1..];
    ClassIdsAppend(frames[..f] + [frames[f]], frames[f + 1..]);
    ClassIdsAppend(frames[..f], [frames[f]]);
    var single: seq<Frame> := [frames[f]];
    assert ClassIds(single) == frames[f] by {
      assert single[..0] == [];
    }
  }

  /** All indices are known exactly when the lookup succeeds; the labels then match the indices one to one. */
  lemma {:induction false} LabelsSuccess(ids: seq<nat>, names: map<nat, string>)
    ensures Labels(ids, names).Success? <==> forall i :: 0 <= i < |ids| ==> ids[i] in names
    ensures Labels(ids, names).Success? ==>
      var labels := Labels(ids, names).value;
      |labels| == |ids| && forall i :: 0 <= i < |ids| ==> labels[i] == names[ids[i]]
    decreases |ids|
  {
    if ids != [] {
      var init := ids[..|ids| - 1];
      LabelsSuccess(init, names);
      assert forall i :: 0 <= i < |init| ==> init[i] == ids[i];
    }
  }

  /** A failed lookup reports the first index missing from `names`. */
  lemma {:induction false} LabelsFailure(ids: seq<nat>, names: map<nat, string>)
    requires Labels(ids, names).Failure?
    ensures exists k ::
      && 0 <= k < |ids| && ids[k] == Labels(ids, names).error && ids[k] !in names
      && forall i :: 0 <= i < k ==> ids[i] in names
    decreases |ids|
  {
    var init := ids[..|ids| - 1];
    var id := Labels(ids, names).error;
    if Labels(init, names).Failure? {
      LabelsFailure(init, names);
      var k :| && 0 <= k < |init| && init[k] == id && init[k] !in names
               && forall i :: 0 <= i < k ==> init[i] in names;
      assert forall i :: 0 <= i <= k ==> ids[i] == init[i];
    } else {
      LabelsSuccess(init, names);
      var k := |ids| - 1;
      assert ids[k] == id;
      assert forall i :: 0 <= i < k ==> ids[i] == init[i];
    }
  }

  /** Once a lookup has failed, later boxes do not change the outcome: no partial label list survives. */
  lemma {:induction false} LabelsFailureSticks(ids: seq<nat>, more: seq<nat>, names: map<nat, string>)
    requires Labels(ids, names).Failure?
    ensures Labels(ids + more, names) == Labels(ids, names)
    decreases |more|
  {
    if more == [] {
      assert ids + more == ids;
    } else {
      LabelsFailureSticks(ids, more[..|more| - 1], names);
      assert (ids + more)[..|ids + more| - 1] == ids + more[..|more| - 1];
    }
  }

  /** The indices of the first `i + 1` frames are those of the first `i`, then frame `i`'s. */
  lemma ClassIdsExtend(frames: seq<Frame>, i: nat)
    requires i < |frames|
    ensures ClassIds(frames[..i + 1]) == ClassIds(frames[..i]) + frames[i]
  {
    assert frames[..i + 1][..i] == frames[..i];
  }

  /** The indices of all frames around box `j` of frame `i`: earlier frames, boxes before `j`, the rest. */
  lemma ClassIdsAround(frames: seq<Frame>, i: nat, j: nat)
    requires i < |frames| && j <= |frames[i]|
    ensures ClassIds(frames) == ClassIds(frames[..i]) + frames[i][..j] + (frames[i][j..] + ClassIds(frames[i + 1..]))
  {
    assert frames == frames[..i + 1] + frames[i + 1..];
    ClassIdsAppend(frames[..i + 1], frames[i + 1..]);
    ClassIdsExtend(frames, i);
    assert frames[i] == frames[i][..j] + frames[i][j..];
  }

  /** A known index at box `j` of frame `i` appends its name to the labels collected so far. */
  lemma KnownIdExtends(frames: seq<Frame>, i: nat, j: nat, names: map<nat, string>, labels: seq<string>)
    requires i < |frames| && j < |frames[i]|
    requires Labels(ClassIds(frames[..i]) + frames[i][..j], names) == Success(labels)
    requires frames[i][j] in names
    ensures Labels(ClassIds(frames[..i]) + frames[i][..j + 1], names) == Success(labels + [names[frames[i][j]]])
  {
    var done := ClassIds(frames[..i]) + frames[i][..j + 1];
    assert done[..|done| - 1] == ClassIds(frames[..i]) + frames[i][..j];
  }

  /** An unknown index at box `j` of frame `i`, after known ones, is what the whole lookup fails with. */
  lemma UnknownIdStops(frames: seq<Frame>, i: nat, j: nat, names: map<nat, string>, labels: seq<string>)
    requires i < |frames| && j < |frames[i]|
    requires Labels(ClassIds(frames[..i]) + frames[i][..j], names) == Success(labels)
    requires frames[i][j] !in names
    ensures Labels(ClassIds(frames), names) == Failure(frames[i][j])
  {
    var done := ClassIds(frames[..i]) + frames[i][..j + 1];
    assert done[..|done| - 1] == ClassIds(frames[..i]) + frames[i][..j];
    assert Labels(done, names) == Failure(frames[i][j]);
    ClassIdsAround(frames, i, j + 1);
    LabelsFailureSticks(done, frames[i][j + 1..] + ClassIds(frames[i + 1..]), names);
  }
}

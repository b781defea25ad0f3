/** Raw provider records and the scan that both history loops of
    data_fetcher.py perform: walk positions in order, and at each one skip it,
    append one point, or raise an exception that the outer handler turns into
    an empty list. */
module Observations {
  import opened Wrappers

  /** The 'value' entry of one JSON observation: no such key, JSON null, or a
      string (the provider sends numbers as strings, '.' for missing). */
  datatype RawValue = NoKey | Null | Text(text: string)

  /** One JSON observation; date is None when the 'date' key is absent. */
  datatype RawObs = RawObs(date: Option<string>, value: RawValue)

  /** One clean series point, {'date': ..., 'value': float}. */
  datatype Point = Point(date: string, value: real)

  /** The outcome of requests.get + raise_for_status + response.json():
      the request failed, the body has no 'observations' key, its
      'observations' entry is JSON null, or the body carries this list of
      observations. */
  datatype Response = Failed | NoObservations | NullObservations | Fetched(observations: seq<RawObs>)

  /** obs.get('value') is None. */
  predicate IsNone(v: RawValue) {
    v.NoKey? || v.Null?
  }

  /** What one loop iteration does. */
  datatype Step = Skip | Emit(point: Point) | Raise

  /** Running the iterations in order: None when one of them raised (the
      partial list is then lost), otherwise the appended points. */
  function Run(steps: seq<Step>): (r: Option<seq<Point>>)
    ensures r.Some? ==> |r.value| <= |steps|
  {
    if steps == [] then Some([])
    else
      var prefix := Run(steps[..|steps| - 1]);
      match prefix
      case None => None
      case Some(out) =>
        match steps[|steps| - 1]
        case Skip => Some(out)
        case Emit(p) => Some(out + [p])
        case Raise => None
  }

  /** One more iteration after a prefix. */
  lemma RunSnoc(steps: seq<Step>, s: Step)
    ensures Run(steps + [s]) ==
      match Run(steps)
      case None => None
      case Some(out) =>
        match s
        case Skip => Some(out)
        case Emit(p) => Some(out + [p])
        case Raise => None
  {
    assert (steps + [s])[..|steps|] == steps;
  }

  /** The scan fails exactly when some iteration raises. */
  lemma {:induction false} RunFailsIffRaise(steps: seq<Step>)
    ensures Run(steps).None? <==> Raise in steps
  {
    if steps != [] {
      var init := steps[..|steps| - 1];
      RunFailsIffRaise(init);
      assert steps == init + [steps[|steps| - 1]];
    }
  }

  /** The positions whose iteration appends, in increasing order. */
  function EmitPositions(steps: seq<Step>): (ix: seq<int>)
    ensures forall j :: 0 <= j < |ix| ==> 0 <= ix[j] < |steps| && steps[ix[j]].Emit?
    ensures forall j, k :: 0 <= j < k < |ix| ==> ix[j] < ix[k]
    ensures forall i :: 0 <= i < |steps| && steps[i].Emit? ==> i in ix
  {
    if steps == [] then []
    else
      var init := steps[..|steps| - 1];
      var ix := EmitPositions(init);
      if steps[|steps| - 1].Emit? then ix + [|steps| - 1] else ix
  }

  /** When no iteration raises, the output is the emitted points, one per
      emitting position, in position order. */
  lemma {:induction false} RunOutput(steps: seq<Step>)
    requires Run(steps).Some?
    ensures |Run(steps).value| == |EmitPositions(steps)|
    ensures forall j :: 0 <= j < |EmitPositions(steps)| ==>
              Run(steps).value[j] == steps[EmitPositions(steps)[j]].point
  {
    if steps != [] {
      var init := steps[..|steps| - 1];
      assert Run(init).Some?;
      RunOutput(init);
      var ix := EmitPositions(init);
      forall j | 0 <= j < |ix|
        ensures steps[ix[j]] == init[ix[j]]
      {
      }
    }
  }
}

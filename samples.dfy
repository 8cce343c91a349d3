/** The sample store of core/storage/samples.py. Reading and validating the
    YAML file is an outcome passed to the constructor. */
module Samples {
  import opened Wrappers
  import opened Models

  /** What reading the samples file produced. */
  datatype LoadOutcome =
    | FileMissing
    | ValidationFailed
    | OtherFailure
    | Loaded(data: seq<Sample>)

  /** The samples a load leaves in the store: the loaded list, or nothing. */
  function LoadedSamples(outcome: LoadOutcome): (s: seq<Sample>)
    ensures outcome.Loaded? ==> s == outcome.data
    ensures !outcome.Loaded? ==> s == []
  {
    if outcome.Loaded? then outcome.data else []
  }

  /** The first sample with the given id, if any. */
  function FindById(samples: seq<Sample>, id: string): (r: Option<Sample>)
    ensures r.Some? ==> r.value in samples && r.value.id == id
    ensures r.None? <==> forall k :: 0 <= k < |samples| ==> samples[k].id != id
    ensures r.Some? ==> exists k :: 0 <= k < |samples| && samples[k] == r.value
                                    && forall j :: 0 <= j < k ==> samples[j].id != id
  {
    if samples == [] then None
    else if samples[0].id == id then Some(samples[0])
    else
      var r := FindById(samples[1..], id);
      if r.Some? then
        var k :| 0 <= k < |samples[1..]| && samples[1..][k] == r.value
                 && forall j :: 0 <= j < k ==> samples[1..][j].id != id;
        assert samples[k + 1] == r.value;
        assert forall j :: 0 <= j < k + 1 ==> samples[j].id != id by {
          forall j | 0 <= j < k + 1 ensures samples[j].id != id {
            if j > 0 { assert samples[j] == samples[1..][j - 1]; }
          }
        }
        r
      else
        assert forall k :: 0 <= k < |samples| ==> samples[k].id != id by {
          forall k | 0 <= k < |samples| ensures samples[k].id != id {
            if k > 0 { assert samples[k] == samples[1..][k - 1]; }
          }
        }
        r
  }

  class SampleStorage {
    var samplesPath: string
    var samples: seq<Sample>

    /** Loads the store; a missing file, a validation error or any other
        failure leaves it empty. */
    constructor (samplesPath: string, outcome: LoadOutcome)
      ensures this.samplesPath == samplesPath
      ensures samples == LoadedSamples(outcome)
    {
      this.samplesPath := samplesPath;
      samples := LoadedSamples(outcome);
    }

    method GetAllSamples() returns (r: seq<Sample>)
      ensures r == samples
    {
      r := samples;
    }

    /** The loop with early return: the first sample whose id matches. */
    method GetSampleById(id: string) returns (r: Option<Sample>)
      ensures r == FindById(samples, id)
    {
      var i := 0;
      while i < |samples|
        invariant 0 <= i <= |samples|
        invariant FindById(samples, id) == FindById(samples[i..], id)
      {
        if samples[i].id == id {
          return Some(samples[i]);
        }
        assert samples[i..][1..] == samples[i + 1..];
        i := i + 1;
      }
      return None;
    }
  }
}

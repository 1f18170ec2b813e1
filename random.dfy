/** The secure random source behind `crypto/rand.Int`, as an abstract stream.

    Each draw is either a candidate value produced by the reader or a read
    failure; the end of the stream is a read failure too. `rand.Int(reader, max)`
    rejects candidates that are not below `max` and draws again, so every value
    it returns lies in `[0, max)`. */
module Random {
  import opened Wrappers

  datatype RandError = Exhausted | ReadFailed(reason: string)

  datatype Draw = Candidate(value: nat) | Failure(reason: string)

  /** `rand.Int(reader, max)`: the first accepted candidate and the draws left after it. */
  function Int(src: seq<Draw>, max: nat): (r: (Result<nat, RandError>, seq<Draw>))
    requires max > 0
    ensures r.0.Ok? ==> r.0.value < max
    ensures |r.1| <= |src|
    ensures src != [] ==> |r.1| < |src|
    decreases |src|
  {
    if src == [] then (Err(Exhausted), [])
    else match src[0]
      case Failure(why) => (Err(ReadFailed(why)), src[1..])
      case Candidate(v) => if v < max then (Ok(v), src[1..]) else Int(src[1..], max)
  }

  /** `rand.Int` fails only on a read failure or the end of the stream: a stream
      that holds an acceptable candidate before any failure always yields it. */
  lemma {:induction false} IntAcceptsFirstInRange(src: seq<Draw>, max: nat, k: nat)
    requires max > 0
    requires k < |src| && src[k].Candidate? && src[k].value < max
    requires forall j :: 0 <= j < k ==> src[j].Candidate? && src[j].value >= max
    ensures Int(src, max) == (Ok(src[k].value), src[k + 1..])
  {
    if k > 0 {
      assert src[1..][k - 1] == src[k];
      IntAcceptsFirstInRange(src[1..], max, k - 1);
      assert src[1..][k..] == src[k + 1..];
    }
  }
}

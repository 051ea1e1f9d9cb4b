/** The one call the password package makes into crypto/rand: `rand.Int(rand.Reader, max)`.

    The secure random source is an injected oracle: a finite stream of raw values. A draw
    takes the next value and reduces it into `[0, max)`; an exhausted stream is how the
    source fails (a read error of `rand.Reader`). Since the generator aborts on the first
    failure, "the source fails at draw k" and "the stream holds k - 1 values" are the same
    thing. The entropy source's own algorithm and its uniformity are not modelled. */
module CryptoRand {

  /** The values the secure random source still has to give. */
  type Source = seq<nat>

  /** What `rand.Int(rand.Reader, max)` does: return a value (and the source after the
      read), fail reading the source, or panic because `max <= 0`. */
  datatype Draw =
    | Value(n: nat, rest: Source)
    | ReadError
    | NonPositiveMax

  /** `rand.Int(rand.Reader, max)`: a value in `[0, max)` taken from the source. */
  function Int(src: Source, max: int): (d: Draw)
    ensures d.NonPositiveMax? <==> max <= 0
    ensures d.ReadError? <==> 0 < max && src == []
    ensures d.Value? ==> d.n < max && src != [] && d.rest == src[1..]
  {
    if max <= 0 then NonPositiveMax
    else if src == [] then ReadError
    else Value(src[0] % max, src[1..])
  }

  /** The oracle does not restrict the range: every value in `[0, max)` is the outcome of
      some source, whatever remains after it. */
  lemma EveryValueReachable(max: int, k: nat, rest: Source)
    requires k < max
    ensures Int([k] + rest, max) == Value(k, rest)
  {
    assert ([k] + rest)[1..] == rest;
  }
}

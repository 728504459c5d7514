/** Embedding normalisation of `generateEmbeddingGemini`: whatever the
    embedding service returns is fitted to the 1536 entries of the database
    column, padding with zeros or truncating. Without an API key a fixed
    pseudo-embedding of the same length stands in. Vector entries are exact
    reals; the service call itself is a parameter. */
module Embedding {
  import opened Wrappers
  import opened JsText

  /** The width of the `vector(1536)` column. */
  const TargetDim: nat := 1536

  /** The reference shape of a stored vector: entry `i` is the service's
      entry `i` where there is one and 0 elsewhere. */
  function Fit(vec: seq<real>): (r: seq<real>)
    ensures |r| == TargetDim
    ensures forall i :: 0 <= i < TargetDim && i < |vec| ==> r[i] == vec[i]
    ensures forall i :: |vec| <= i < TargetDim ==> r[i] == 0.0
  {
    seq(TargetDim, i requires 0 <= i < TargetDim => if i < |vec| then vec[i] else 0.0)
  }

  /** The three branches of the route: an exact fit is returned as is, a
      shorter vector is copied into a zero-filled array, a longer one is
      sliced. */
  method Normalize(vec: seq<real>) returns (r: seq<real>)
    ensures |r| == TargetDim
    ensures |vec| == TargetDim ==> r == vec
    ensures |vec| < TargetDim ==> r[..|vec|] == vec && forall i :: |vec| <= i < TargetDim ==> r[i] == 0.0
    ensures |vec| > TargetDim ==> r == vec[..TargetDim]
    ensures r == Fit(vec)
  {
    if |vec| == TargetDim {
      return vec;
    }
    if |vec| < TargetDim {
      var padded := new real[TargetDim](_ => 0.0);
      var i := 0;
      while i < |vec|
        invariant 0 <= i <= |vec|
        invariant forall k :: 0 <= k < i ==> padded[k] == vec[k]
        invariant forall k :: i <= k < TargetDim ==> padded[k] == 0.0
      {
        padded[i] := vec[i];
        i := i + 1;
      }
      r := padded[..];
      assert r[..|vec|] == vec;
      return r;
    }
    return vec[..TargetDim];
  }

  /** The deterministic stand-in used without an API key: entry `i` is
      `((i * 31) mod 997) / 997`. */
  function PseudoEmbedding(): (r: seq<real>)
    ensures |r| == TargetDim
    ensures forall i :: 0 <= i < TargetDim ==> 0.0 <= r[i] < 1.0
  {
    seq(TargetDim, i => ((i * 31) % 997) as real / 997.0)
  }

  /** `generateEmbeddingGemini`: `serviceVector` is what the embedding
      model returned for the text; it is only used when an API key is set. */
  method GenerateEmbedding(apiKey: Option<string>, serviceVector: seq<real>) returns (r: seq<real>)
    ensures |r| == TargetDim
    ensures !(apiKey.Some? && Truthy(apiKey.value)) ==> r == PseudoEmbedding()
    ensures apiKey.Some? && Truthy(apiKey.value) ==> r == Fit(serviceVector)
  {
    if !(apiKey.Some? && Truthy(apiKey.value)) {
      return PseudoEmbedding();
    }
    r := Normalize(serviceVector);
  }

  /** Fitting is idempotent: a stored vector is stored unchanged. */
  lemma FitIdempotent(vec: seq<real>)
    ensures Fit(Fit(vec)) == Fit(vec)
  {
  }

  /** Padding loses nothing: the service's vector is recovered as the
      prefix of the stored one whenever it fits. */
  lemma FitPadRoundTrip(vec: seq<real>)
    requires |vec| <= TargetDim
    ensures Fit(vec)[..|vec|] == vec
  {
  }

  /** Two vectors of at least 1536 entries that agree on the first 1536
      are stored identically: entries past the column width never matter. */
  lemma FitIgnoresTail(a: seq<real>, b: seq<real>)
    requires |a| >= TargetDim && |b| >= TargetDim
    requires a[..TargetDim] == b[..TargetDim]
    ensures Fit(a) == Fit(b)
  {
    assert forall i :: 0 <= i < TargetDim ==> a[i] == a[..TargetDim][i] && b[i] == b[..TargetDim][i];
  }
}

/**
 * The candidate typeahead: suggestions for the term being typed, cached per
 * state and normalised term for the whole session. A fetch is split at its
 * `await`: `FetchSuggestions` decides between clearing, serving the cache and
 * issuing a request, and `ReceiveSuggestions` applies the reply, so that the
 * input may change in between (`SetInput`).
 */
module Typeahead {
  import opened Wrappers
  import opened Text
  import opened Busca
  import opened Slug

  const FetchError := "Erro ao buscar sugestões"

  /** The term as it is cached: lower-cased, then trimmed. */
  function Normalize(termo: string): string { Trim(Lower(termo)) }

  /**
   * Normalising a normalised term changes nothing, so a term typed in its
   * cached form hits the same cache entry.
   */
  lemma NormalizeIdempotent(termo: string)
    ensures Normalize(Normalize(termo)) == Normalize(termo)
  {
    var l := Lower(termo);
    var t0 := TrimStart(l);
    var n := TrimEnd(t0);
    assert AllChars(l, IsNotUpper);
    AllCharsSlice(l, IsNotUpper, |l| - |t0|, |l|);
    AllCharsSlice(t0, IsNotUpper, 0, |n|);
    LowerFixes(n);
    TrimmedFixed(n, t0);
  }

  /** A string with no white space at either end is its own trim. */
  lemma TrimmedFixed(n: string, t0: string)
    requires n == TrimEnd(t0) && (t0 != [] ==> !IsSpace(t0[0]))
    ensures Trim(n) == n
  {
    if n != [] {
      assert n[0] == t0[0];
    }
    assert TrimStart(n) == n;
  }

  /** `getCacheKey`: `{uf}:{term}`, or `all:{term}` without a state. */
  function CacheKey(termo: string, uf: Option<string>): string {
    (if Truthy(uf) then uf.value else "all") + ":" + Normalize(termo)
  }

  /**
   * The request a cache miss issues: the trimmed term and the current state,
   * with the cache key computed before the request so that the reply is
   * stored under it even if the state changes meanwhile.
   */
  datatype SuggestionsRequest = SuggestionsRequest(termo: string, uf: Option<string>, key: string)

  class Suggester {
    var cache: map<string, seq<CandidatoBusca>>
    var inputValue: string
    var suggestions: seq<CandidatoBusca>
    var isLoading: bool
    var error: Option<string>
    var currentUf: Option<string>

    /** A fresh typeahead over the session's cache. */
    constructor(cache: map<string, seq<CandidatoBusca>>)
      ensures this.cache == cache && inputValue == "" && suggestions == [] && !isLoading
      ensures error == None && currentUf == None
    {
      this.cache := cache;
      inputValue := "";
      suggestions := [];
      isLoading := false;
      error := None;
      currentUf := None;
    }

    /** The user edits the input box. */
    method SetInput(v: string)
      modifies this`inputValue
      ensures inputValue == v
    {
      inputValue := v;
    }

    /** `fetchSuggestions` up to its `await`: the request to send, if any. */
    method FetchSuggestions(termo: string) returns (req: Option<SuggestionsRequest>)
      modifies this`suggestions, this`isLoading, this`error
      ensures var trimmed := Trim(termo);
        var key := CacheKey(trimmed, old(currentUf));
        && (|trimmed| < 3 ==>
              req.None? && suggestions == [] && isLoading == old(isLoading) && error == old(error))
        && (|trimmed| >= 3 && key in old(cache) ==>
              req.None? && suggestions == old(cache)[key] && isLoading == old(isLoading) && error == old(error))
        && (|trimmed| >= 3 && key !in old(cache) ==>
              req == Some(SuggestionsRequest(trimmed, old(currentUf), key)) && suggestions == old(suggestions)
              && isLoading && error == None)
    {
      var trimmed := Trim(termo);
      if |trimmed| < 3 {
        suggestions := [];
        return None;
      }
      var key := CacheKey(trimmed, currentUf);
      if key in cache {
        suggestions := cache[key];
        return None;
      }
      req := Some(SuggestionsRequest(trimmed, currentUf, key));
      isLoading := true;
      error := None;
    }

    /** `fetchSuggestions` after its `await`: the reply is cached and shown only if the input still holds the term. */
    method ReceiveSuggestions(req: SuggestionsRequest, reply: Outcome<seq<CandidatoBusca>>)
      modifies this`cache, this`suggestions, this`isLoading, this`error
      ensures !isLoading
      ensures reply.Done? ==>
        && cache == old(cache)[req.key := reply.value]
        && suggestions == (if Trim(old(inputValue)) == req.termo then reply.value else old(suggestions))
        && error == old(error)
      ensures reply.Raised? ==>
        cache == old(cache) && suggestions == [] && error == Some(reply.message.GetOr(FetchError))
    {
      if reply.Done? {
        var stillTyped := Trim(inputValue) == req.termo;
        cache := cache[req.key := reply.value];
        if stillTyped {
          suggestions := reply.value;
        }
      } else {
        error := Some(reply.message.GetOr(FetchError));
        suggestions := [];
      }
      isLoading := false;
    }

    /** Empties the suggestions and the input; the cache is kept. */
    method ClearSuggestions()
      modifies this`suggestions, this`inputValue
      ensures suggestions == [] && inputValue == ""
    {
      suggestions := [];
      inputValue := "";
    }

    method SetUf(uf: Option<string>)
      modifies this`currentUf, this`suggestions
      ensures currentUf == uf && suggestions == []
    {
      currentUf := uf;
      suggestions := [];
    }
  }

  // ---------------------------------------------------------------------------
  // Properties

  /** A state as the typeahead receives it: none, or a two-letter code. */
  predicate IsUfOrNull(uf: Option<string>) {
    uf.None? || IsUfCode(uf.value)
  }

  lemma UfPrefix(uf: Option<string>)
    requires IsUfOrNull(uf)
    ensures var p := if Truthy(uf) then uf.value else "all";
      ':' !in p && (uf.Some? <==> |p| == 2) && (uf.Some? ==> p == uf.value)
  {
    if uf.Some? {
      var e := uf.value;
      forall k | 0 <= k < |e| ensures e[k] != ':' {
      }
    }
  }

  /**
   * Two terms and states share a cache key exactly when the states are equal
   * and the terms normalise alike: with a state code in front, `all` and the
   * codes never meet.
   */
  lemma CacheKeyInjective(t1: string, u1: Option<string>, t2: string, u2: Option<string>)
    requires IsUfOrNull(u1) && IsUfOrNull(u2)
    ensures CacheKey(t1, u1) == CacheKey(t2, u2) <==> u1 == u2 && Normalize(t1) == Normalize(t2)
  {
    UfPrefix(u1);
    UfPrefix(u2);
    var p1 := if Truthy(u1) then u1.value else "all";
    var p2 := if Truthy(u2) then u2.value else "all";
    assert CacheKey(t1, u1) == p1 + [':'] + Normalize(t1);
    assert CacheKey(t2, u2) == p2 + [':'] + Normalize(t2);
    if CacheKey(t1, u1) == CacheKey(t2, u2) {
      SepJoinInjective(p1, Normalize(t1), p2, Normalize(t2), ':');
    }
  }

  /**
   * The cache agrees with an endpoint whose answer depends on the state and the
   * normalised term only: every cached key holds what the endpoint answers for
   * any term and state with that key.
   */
  ghost predicate Consistent(cache: map<string, seq<CandidatoBusca>>, answer: (string, Option<string>) -> seq<CandidatoBusca>) {
    forall t: string, u: Option<string> ::
      IsUfOrNull(u) && CacheKey(t, u) in cache ==> cache[CacheKey(t, u)] == answer(Normalize(t), u)
  }

  /**
   * Storing the endpoint's answer for a request keeps the cache consistent,
   * so a later cache hit serves exactly what a fresh request would return.
   */
  lemma StoreKeepsConsistent(cache: map<string, seq<CandidatoBusca>>, answer: (string, Option<string>) -> seq<CandidatoBusca>,
                             req: SuggestionsRequest)
    requires Consistent(cache, answer) && IsUfOrNull(req.uf)
    ensures Consistent(cache[CacheKey(req.termo, req.uf) := answer(Normalize(req.termo), req.uf)], answer)
  {
    var c := cache[CacheKey(req.termo, req.uf) := answer(Normalize(req.termo), req.uf)];
    forall t: string, u: Option<string> | IsUfOrNull(u) && CacheKey(t, u) in c
      ensures c[CacheKey(t, u)] == answer(Normalize(t), u)
    {
      CacheKeyInjective(t, u, req.termo, req.uf);
    }
  }
}

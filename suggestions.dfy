/**
 * The typeahead suggestions endpoint: it validates `termo`, calls the fuzzy
 * search RPC with at most three parameters and returns the 15 records with
 * the most votes. The RPC is a parameter from its parameter list to what
 * `$fetch` gives: the rows, or a throw, which nothing in the handler catches.
 */
module Suggestions {
  import opened Wrappers
  import opened Text
  import opened Seqs
  import opened Grouping
  import opened Busca

  datatype Query = Query(termo: Option<string>, uf: Option<string>)

  /** `(query.termo as string)?.trim()`, with a missing `termo` read as empty. */
  function Termo(q: Query): string {
    if q.termo.Some? then Trim(q.termo.value) else ""
  }

  /** `(query.uf as string)?.toUpperCase()`, kept only when non-empty (truthy). */
  function Uf(q: Query): Option<string> {
    if q.uf.Some? && q.uf.value != [] then Some(Upper(q.uf.value)) else None
  }

  /** The RPC parameters in the order they are set. */
  function Params(termo: string, uf: Option<string>): seq<(string, string)> {
    [("p_termo", termo)] + (if uf.Some? then [("p_uf", uf.value)] else []) + [("p_limite", "500")]
  }

  const Limite: nat := 15

  /** The message h3 reports for a throw, when the thrown value has one. */
  function RaisedMessage(m: Option<string>): string {
    if m.Some? then m.value else ""
  }

  function Handle(q: Query, rpc: seq<(string, string)> -> Outcome<seq<RawRow>>): Result<seq<CandidatoBusca>> {
    var termo := Termo(q);
    if |termo| < 3 then Err(HttpError(400, "Termo deve ter pelo menos 3 caracteres"))
    else
      match rpc(Params(termo, Uf(q)))
      case Raised(m) => Err(Unhandled(RaisedMessage(m)))
      case Done(rows) => Ok(Agregados(rows, Limite))
  }

  /** The handler: the parameters are set one by one, then the rows are aggregated. */
  method HandleRequest(q: Query, rpc: seq<(string, string)> -> Outcome<seq<RawRow>>) returns (r: Result<seq<CandidatoBusca>>)
    ensures r == Handle(q, rpc)
  {
    var termo := Termo(q);
    if termo == [] || |termo| < 3 {
      return Err(HttpError(400, "Termo deve ter pelo menos 3 caracteres"));
    }
    var uf := Uf(q);
    var params := [("p_termo", termo)];
    if uf.Some? {
      params := params + [("p_uf", uf.value)];
    }
    params := params + [("p_limite", "500")];
    assert params == Params(termo, uf);
    var response := rpc(params);
    assert response == rpc(Params(termo, Uf(q)));
    if response.Raised? {
      return Err(Unhandled(RaisedMessage(response.message)));
    }
    var aggregated := AggregateCandidatos(response.value, Limite);
    r := Ok(aggregated);
  }

  /** Whether a parameter list holds `name` with `value`. */
  predicate HasParam(ps: seq<(string, string)>, name: string, value: string) {
    exists i :: 0 <= i < |ps| && ps[i] == (name, value)
  }

  /**
   * 400 exactly when the trimmed term has fewer than three characters, 500
   * exactly when the RPC then throws; otherwise the aggregate of the RPC's
   * rows cut to 15: as many records as distinct candidates up to 15, sorted
   * by votes, one per candidate and contest, each summing its rows.
   */
  lemma HandleSpec(q: Query, rpc: seq<(string, string)> -> Outcome<seq<RawRow>>)
    ensures var r := Handle(q, rpc);
      var response := rpc(Params(Termo(q), Uf(q)));
      && ((r.Err? && r.error.statusCode == 400) <==> |Termo(q)| < 3)
      && ((r.Err? && r.error.statusCode == 500) <==> |Termo(q)| >= 3 && response.Raised?)
      && (r.Err? ==> r.error.statusCode == 400 || r.error.statusCode == 500)
      && (r.Ok? ==>
            var rows := response.value;
            var n := |Distinct(RowKeys(rows, RowKey))|;
            && r.value == Agregados(rows, Limite)
            && |r.value| == (if 15 < n then 15 else n)
            && SortedDesc(r.value, VotosKey)
            && DistinctKeys(r.value, RecordKey)
            && (forall i :: 0 <= i < |r.value| ==> IsRecordOf(rows, r.value[i])))
  {
    var response := rpc(Params(Termo(q), Uf(q)));
    if |Termo(q)| >= 3 && response.Done? {
      AgregadosSpec(response.value, Limite);
    }
  }

  /**
   * The RPC receives the trimmed term, the upper-cased state only when one
   * was given, and always the limit 500.
   */
  lemma ParamsSpec(q: Query)
    ensures var ps := Params(Termo(q), Uf(q));
      && HasParam(ps, "p_termo", Termo(q))
      && HasParam(ps, "p_limite", "500")
      && (q.uf.Some? && q.uf.value != [] ==> HasParam(ps, "p_uf", Upper(q.uf.value)))
      && (q.uf.None? || q.uf.value == [] ==> |ps| == 2)
  {
    var ps := Params(Termo(q), Uf(q));
    assert ps[0] == ("p_termo", Termo(q));
    assert ps[|ps| - 1] == ("p_limite", "500");
    if Uf(q).Some? {
      assert ps[1] == ("p_uf", Upper(q.uf.value));
    }
  }

  // ---------------------------------------------------------------------------
  // Cache key

  function UfPart(q: Query): string {
    if q.uf.Some? && q.uf.value != [] then Upper(q.uf.value) else "all"
  }

  function TermoPart(q: Query): string {
    if q.termo.Some? then Lower(Trim(q.termo.value)) else ""
  }

  /** The key after its version tag: the state part and the term part around a `:`. */
  function KeyBody(q: Query): string {
    UfPart(q) + [':'] + TermoPart(q)
  }

  /** `v2:{uf upper-cased, or all}:{termo trimmed and lower-cased}`. */
  function CacheKey(q: Query): string {
    "v2:" + KeyBody(q)
  }

  lemma KeyBodyOf(q1: Query, q2: Query)
    requires CacheKey(q1) == CacheKey(q2)
    ensures KeyBody(q1) == KeyBody(q2)
  {
    assert KeyBody(q1) == CacheKey(q1)[3..];
    assert KeyBody(q2) == CacheKey(q2)[3..];
  }

  /**
   * For states written without `:`, equal keys mean the same state (or both
   * none) and the same normalised term: a request for one state is never
   * served the cached answer of all states.
   */
  lemma CacheKeyDistinguishes(q1: Query, q2: Query)
    requires q1.uf.Some? ==> ':' !in q1.uf.value
    requires q2.uf.Some? ==> ':' !in q2.uf.value
    requires CacheKey(q1) == CacheKey(q2)
    ensures Uf(q1) == Uf(q2)
    ensures TermoPart(q1) == TermoPart(q2)
  {
    KeyBodyOf(q1, q2);
    UpperNoColon(q1);
    UpperNoColon(q2);
    SepJoinInjective(UfPart(q1), TermoPart(q1), UfPart(q2), TermoPart(q2), ':');
    UpperIsNotAll(q1);
    UpperIsNotAll(q2);
  }

  lemma UpperNoColon(q: Query)
    requires q.uf.Some? ==> ':' !in q.uf.value
    ensures q.uf.Some? ==> ':' !in Upper(q.uf.value)
  {
    if q.uf.Some? {
      forall i | 0 <= i < |q.uf.value| ensures Upper(q.uf.value)[i] != ':' {
        assert q.uf.value[i] != ':';
      }
    }
  }

  lemma UpperIsNotAll(q: Query)
    ensures q.uf.Some? && q.uf.value != [] ==> Upper(q.uf.value) != "all"
  {
    if q.uf.Some? && q.uf.value != [] && |Upper(q.uf.value)| == 3 {
      UpperHasNoAsciiLower(q.uf.value);
      assert !IsAsciiLower(Upper(q.uf.value)[0]);
    }
  }
}

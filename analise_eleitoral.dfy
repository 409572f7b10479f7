/**
 * The request handler of the electoral analysis: it parses the candidate
 * slug, looks the candidate up (RPC first, then an ILIKE search), groups the
 * candidate's zone-level votes into contests, keeps the best contest of each
 * of the four newest years, analyses each of them and counts the results.
 *
 * The three lookups and the field fetch of each contest are parameters: a
 * function from what the request asks for to a `Fetched` response. A throw
 * from `fetch` or `response.json()` is caught nowhere in the handler, so it
 * ends the request with status 500.
 */
module AnaliseEleitoral {
  import opened Wrappers
  import opened Text
  import opened Seqs
  import opened Grouping
  import opened Slug
  import opened Analise

  /** A record returned by the candidate lookups. */
  datatype CandidatoRecord = CandidatoRecord(
    sqCandidato: int, nmUrnaCandidato: string, nmCandidato: string, sgPartido: string)

  /** A zone-level vote row of the analysed candidate. */
  datatype VotoRow = VotoRow(
    nmMunicipio: string, sgUf: string, anoEleicao: int, dsCargo: string, nrTurno: int,
    sgPartido: string, qtVotosNominais: int, dsSitTotTurno: string)

  datatype Resumo = Resumo(totalEleicoes: int, vezesNoBloco: int, oportunidadesReais: int)

  datatype AnaliseResponse = AnaliseResponse(analises: seq<AnaliseEleicao>, resumo: Resumo)

  // ---------------------------------------------------------------------------
  // Looking the candidate up

  /**
   * The records of the candidate: those of the RPC when it answered ok with
   * some, otherwise those of the ILIKE search when it answered ok. The ILIKE
   * search is only made when the RPC gave nothing, so only then can its
   * throw end the request.
   */
  function Lookup(rpc: Fetched<seq<CandidatoRecord>>, ilike: Fetched<seq<CandidatoRecord>>): (r: Result<seq<CandidatoRecord>>)
    ensures rpc.Body? && rpc.body != [] ==> r == Ok(rpc.body)
    ensures r.Err? <==> rpc.Thrown? || (!(rpc.Body? && rpc.body != []) && ilike.Thrown?)
    ensures r.Err? ==> r.error.statusCode == 500
    ensures r == Ok([]) <==> !rpc.Thrown? && !(rpc.Body? && rpc.body != []) && (ilike.NotOk? || ilike == Body([]))
  {
    if rpc.Thrown? then Err(Unhandled(rpc.message))
    else
      var records := if rpc.Body? then rpc.body else [];
      if records != [] then Ok(records)
      else if ilike.Thrown? then Err(Unhandled(ilike.message))
      else if ilike.Body? then Ok(ilike.body)
      else Ok([])
  }

  /** `candidatoRecords.map(c => c.sq_candidato)`. */
  function SqsOf(records: seq<CandidatoRecord>): (sqs: seq<int>)
    ensures |sqs| == |records| && forall i :: 0 <= i < |records| ==> sqs[i] == records[i].sqCandidato
  {
    seq(|records|, i requires 0 <= i < |records| => records[i].sqCandidato)
  }

  // ---------------------------------------------------------------------------
  // Contests

  const CargosEstaduais: seq<string> :=
    ["DEPUTADO FEDERAL", "DEPUTADO ESTADUAL", "SENADOR", "GOVERNADOR", "PRESIDENTE"]

  /** Some of `subs` occurs in `s`. */
  predicate ContainsAny(s: string, subs: seq<string>) {
    exists i :: 0 <= i < |subs| && Contains(s, subs[i])
  }

  /** A statewide office: its upper-cased name contains one of the five statewide offices. */
  predicate IsEstadual(dsCargo: string) {
    ContainsAny(Upper(dsCargo), CargosEstaduais)
  }

  /** `uf|ano|cargo|turno` for statewide offices, `municipio|ano|cargo|turno` otherwise. */
  function ContestKey(v: VotoRow): string {
    (if IsEstadual(v.dsCargo) then v.sgUf else v.nmMunicipio)
      + "|" + IntToString(v.anoEleicao) + "|" + v.dsCargo + "|" + IntToString(v.nrTurno)
  }

  /** A new contest from its first row; a statewide one takes the state as its municipality. */
  function ContestInit(v: VotoRow): Eleicao {
    var est := IsEstadual(v.dsCargo);
    Eleicao(if est then v.sgUf else v.nmMunicipio, v.sgUf, v.anoEleicao, v.dsCargo, v.nrTurno,
      v.sgPartido, v.qtVotosNominais, v.dsSitTotTurno, est)
  }

  function ContestStep(e: Eleicao, v: VotoRow): Eleicao {
    e.(totalVotos := e.totalVotos + v.qtVotosNominais)
  }

  /** `eleicoesMap.values()`. */
  function Contests(votos: seq<VotoRow>): seq<Eleicao> {
    Values(GroupRows(votos, ContestKey, ContestInit, ContestStep))
  }

  function Ano(e: Eleicao): int { e.anoEleicao }
  function AnoKey(e: Eleicao): real { e.anoEleicao as real }
  function Self(e: Eleicao): Eleicao { e }

  /** The later contest replaces the kept one only with strictly more votes. */
  function KeepGreater(kept: Eleicao, e: Eleicao): Eleicao {
    if e.totalVotos > kept.totalVotos then e else kept
  }

  /** `eleicoesPorAno.values()`: the kept contest of each year, years in order of first appearance. */
  function BestPerYear(cs: seq<Eleicao>): seq<Eleicao> {
    Values(GroupRows(cs, Ano, Self, KeepGreater))
  }

  /** `eleicoesAnalise`: the kept contests, newest year first, at most four. */
  function Selecionadas(votos: seq<VotoRow>): seq<Eleicao> {
    Take(SortDesc(BestPerYear(Contests(votos)), AnoKey), 4)
  }

  // ---------------------------------------------------------------------------
  // Analyses and summary

  /** The analyses of the contests, in order, skipping those that yield none. */
  function Analises(es: seq<Eleicao>, field: FieldQuery -> Fetched<seq<FieldRow>>, sqs: seq<int>,
                    partido: string, uf: string): seq<AnaliseEleicao>
  {
    FilterMap(es, AnaliseOf(field, sqs, partido, uf))
  }

  /** The analysis of one contest, its field fetched with the contest's own query. */
  function AnaliseOf(field: FieldQuery -> Fetched<seq<FieldRow>>, sqs: seq<int>, partido: string, uf: string)
    : Eleicao -> Option<AnaliseEleicao>
  {
    (e: Eleicao) => Analisar(e, BodyOf(field(FieldQueryOf(e))), sqs, partido, uf)
  }

  /** The message of the first contest, in order, whose field fetch throws. */
  function FirstThrown(es: seq<Eleicao>, field: FieldQuery -> Fetched<seq<FieldRow>>): Option<string>
    decreases |es|
  {
    if es == [] then None
    else
      var response := field(FieldQueryOf(es[0]));
      if response.Thrown? then Some(response.message) else FirstThrown(es[1..], field)
  }

  /**
   * The analysis loop's outcome: the contests are analysed one after the
   * other, so the first throw ends the request; otherwise every analysis.
   */
  function AnalisarAll(es: seq<Eleicao>, field: FieldQuery -> Fetched<seq<FieldRow>>, sqs: seq<int>,
                       partido: string, uf: string): Result<seq<AnaliseEleicao>>
  {
    var thrown := FirstThrown(es, field);
    if thrown.Some? then Err(Unhandled(thrown.value)) else Ok(Analises(es, field, sqs, partido, uf))
  }

  predicate NoBloco(a: AnaliseEleicao) { a.candidato.noBlocoCorte }

  /** A real opportunity: the weakest elected rival of another party is less than 500 votes ahead. */
  predicate OportunidadeReal(a: AnaliseEleicao) {
    a.piorEleitoExterno.Some? && a.piorEleitoExterno.value.scoreOportunidade < 500
  }

  function ResumoOf(analises: seq<AnaliseEleicao>): (r: Resumo)
    ensures 0 <= r.vezesNoBloco <= r.totalEleicoes == |analises|
    ensures 0 <= r.oportunidadesReais <= r.totalEleicoes
  {
    Resumo(|analises|, Count(analises, NoBloco), Count(analises, OportunidadeReal))
  }

  /**
   * The handler. `rpc` and `ilike` answer the two lookups by state and
   * upper-cased name, `votacao` the candidate's vote rows by `sq_candidato`
   * list, `field` the field of a contest.
   */
  function Handle(slug: Option<string>,
                  rpc: (string, string) -> Fetched<seq<CandidatoRecord>>,
                  ilike: (string, string) -> Fetched<seq<CandidatoRecord>>,
                  votacao: seq<int> -> Fetched<seq<VotoRow>>,
                  field: FieldQuery -> Fetched<seq<FieldRow>>): Result<AnaliseResponse>
  {
    var req := ParseRequestSlug(slug);
    if req.Err? then Err(req.error)
    else
      var uf := req.value.uf;
      var nome := req.value.nomeCompleto;
      var found := Lookup(rpc(uf, nome), ilike(uf, nome));
      if found.Err? then Err(found.error)
      else if found.value == [] then Err(HttpError(404, "Candidato não encontrado"))
      else
        var records := found.value;
        var sqs := SqsOf(records);
        var votos := votacao(sqs);
        if votos.Thrown? then Err(Unhandled(votos.message))
        else if votos.NotOk? then Err(HttpError(500, "Erro ao buscar votação do candidato"))
        else
          var all := AnalisarAll(Selecionadas(votos.body), field, sqs, records[0].sgPartido, uf);
          if all.Err? then Err(all.error)
          else Ok(AnaliseResponse(all.value, ResumoOf(all.value)))
  }

  /** The handler as the source runs it: the grouping loops and the analysis loop. */
  method HandleRequest(slug: Option<string>,
                       rpc: (string, string) -> Fetched<seq<CandidatoRecord>>,
                       ilike: (string, string) -> Fetched<seq<CandidatoRecord>>,
                       votacao: seq<int> -> Fetched<seq<VotoRow>>,
                       field: FieldQuery -> Fetched<seq<FieldRow>>)
    returns (r: Result<AnaliseResponse>)
    ensures r == Handle(slug, rpc, ilike, votacao, field)
  {
    var req := ParseRequestSlug(slug);
    if req.Err? {
      return Err(req.error);
    }
    var uf := req.value.uf;
    var nome := req.value.nomeCompleto;
    var found := Lookup(rpc(uf, nome), ilike(uf, nome));
    if found.Err? {
      return Err(found.error);
    }
    var records := found.value;
    if records == [] {
      return Err(HttpError(404, "Candidato não encontrado"));
    }
    var sqs := SqsOf(records);
    var votos := votacao(sqs);
    if votos.Thrown? {
      return Err(Unhandled(votos.message));
    }
    if votos.NotOk? {
      return Err(HttpError(500, "Erro ao buscar votação do candidato"));
    }
    var eleicoes := SelecionarEleicoes(votos.body);
    var all := AnalisarTodas(eleicoes, field, sqs, records[0].sgPartido, uf);
    if all.Err? {
      return Err(all.error);
    }
    r := Ok(AnaliseResponse(all.value, ResumoOf(all.value)));
  }

  /** The two `Map` loops and the sort. */
  method SelecionarEleicoes(votos: seq<VotoRow>) returns (eleicoes: seq<Eleicao>)
    ensures eleicoes == Selecionadas(votos)
  {
    var contests := Aggregate(votos, ContestKey, ContestInit, ContestStep);
    var porAno := Aggregate(Values(contests), Ano, Self, KeepGreater);
    eleicoes := Take(SortDesc(Values(porAno), AnoKey), 4);
  }

  /**
   * The analysis loop: one fetch and analysis per contest, keeping those that
   * yield one; a fetch that throws ends the loop and the request.
   */
  method AnalisarTodas(eleicoes: seq<Eleicao>, field: FieldQuery -> Fetched<seq<FieldRow>>, sqs: seq<int>,
                       partido: string, uf: string)
    returns (r: Result<seq<AnaliseEleicao>>)
    ensures r == AnalisarAll(eleicoes, field, sqs, partido, uf)
  {
    var analises := [];
    for i := 0 to |eleicoes|
      invariant analises == Analises(eleicoes[..i], field, sqs, partido, uf)
      invariant FirstThrown(eleicoes, field) == FirstThrown(eleicoes[i..], field)
    {
      var e := eleicoes[i];
      var response := field(FieldQueryOf(e));
      assert eleicoes[i..][1..] == eleicoes[i + 1..];
      if response.Thrown? {
        return Err(Unhandled(response.message));
      }
      var a := AnalisarEleicao(e, BodyOf(response), sqs, partido, uf);
      FilterMapSnoc(eleicoes, AnaliseOf(field, sqs, partido, uf), i);
      if a.Some? {
        analises := analises + [a.value];
      }
    }
    assert eleicoes[..|eleicoes|] == eleicoes;
    r := Ok(analises);
  }


  // ---------------------------------------------------------------------------
  // Cache key

  /** `v4:{slug || 'unknown'}`. */
  function CacheKey(slug: Option<string>): (k: string)
    ensures |k| > 3 && k[..3] == "v4:"
    ensures slug.Some? && slug.value != [] ==> k[3..] == slug.value
  {
    "v4:" + (if slug.None? || slug.value == [] then "unknown" else slug.value)
  }
}

/**
 * `analisarEleicao`: the cutoff-block analysis of one contest.
 *
 * The whole field of the contest (one row per candidate and zone) is
 * aggregated per `sq_candidato`, ranked by votes, classified as elected or
 * not, and cut after `max(ceil(1.5 vagas), vagas + 5)` entries. The analysed
 * candidate is compared with the nearest candidates above it and with the
 * weakest elected candidate of another party, and the parties of the block
 * are tallied. The fetch of the field is a parameter of the model.
 */
module Analise {
  import opened Wrappers
  import opened Seqs
  import opened Grouping
  import opened Slug
  import opened Situacao

  /** A contest of the analysed candidate, as the handler selected it. */
  datatype Eleicao = Eleicao(
    nmMunicipio: string, sgUf: string, anoEleicao: int, dsCargo: string, nrTurno: int,
    sgPartido: string, totalVotos: int, dsSitTotTurno: string, isEstadual: bool)

  /** Which rows of `votacao_candidato_munzona` make up the field of a contest. */
  datatype FieldQuery =
    | ByUf(sgUf: string, anoEleicao: int, dsCargo: string, nrTurno: int)
    | ByMunicipio(nmMunicipio: string, anoEleicao: int, dsCargo: string, nrTurno: int)

  /** Statewide contests are fetched by state, the others by municipality. */
  function FieldQueryOf(e: Eleicao): (q: FieldQuery)
    ensures q.ByUf? <==> e.isEstadual
    ensures q.anoEleicao == e.anoEleicao && q.dsCargo == e.dsCargo && q.nrTurno == e.nrTurno
    ensures q.ByUf? ==> q.sgUf == e.sgUf
    ensures q.ByMunicipio? ==> q.nmMunicipio == e.nmMunicipio
  {
    if e.isEstadual then ByUf(e.sgUf, e.anoEleicao, e.dsCargo, e.nrTurno)
    else ByMunicipio(e.nmMunicipio, e.anoEleicao, e.dsCargo, e.nrTurno)
  }

  /** One zone-level row of the field. */
  datatype FieldRow = FieldRow(
    sqCandidato: int, nmUrnaCandidato: string, nmCandidato: string, sgPartido: string,
    qtVotosNominais: int, dsSitTotTurno: string)

  /** A candidate of the field with its votes summed over the zones. */
  datatype CandidatoTotal = CandidatoTotal(
    sqCandidato: int, nmUrnaCandidato: string, nmCandidato: string, sgPartido: string,
    totalVotos: int, dsSitTotTurno: string)

  /** A ranked candidate. */
  datatype CandidatoBloco = CandidatoBloco(
    nmUrnaCandidato: string, nmCandidato: string, sgPartido: string, sgUf: string,
    totalVotos: int, dsSitTotTurno: string, eleito: bool, posicao: int, sqCandidato: int,
    slug: string)

  datatype ConcorrenteInterno = ConcorrenteInterno(
    nmUrnaCandidato: string, sgPartido: string, sgUf: string, slug: string,
    totalVotos: int, diferencaVotos: int, posicao: int, eleito: bool)

  datatype TipoExterno = PiorEleito | ProximoAcima

  datatype ConcorrenteExterno = ConcorrenteExterno(
    nmUrnaCandidato: string, sgPartido: string, sgUf: string, slug: string,
    totalVotos: int, diferencaVotos: int, posicao: int, tipo: TipoExterno,
    scoreOportunidade: int)

  datatype PartidoEficiencia = PartidoEficiencia(
    sgPartido: string, candidatosBloco: int, totalVotos: int, eleitos: int,
    mediaVotos: int, eficiencia: real)

  datatype CandidatoAnalisado = CandidatoAnalisado(
    nmUrnaCandidato: string, sgPartido: string, totalVotos: int, posicao: int,
    eleito: bool, noBlocoCorte: bool)

  datatype Metricas = Metricas(
    totalCandidatos: int, vagas: int, blocoCorteTamanho: int, votosCorte: int,
    votosUltimoBloco: int)

  datatype AnaliseEleicao = AnaliseEleicao(
    anoEleicao: int, nmMunicipio: string, sgUf: string, dsCargo: string, nrTurno: int,
    candidato: CandidatoAnalisado, metricas: Metricas,
    concorrenteInterno: Option<ConcorrenteInterno>,
    concorrenteExterno: Option<ConcorrenteExterno>,
    piorEleitoExterno: Option<ConcorrenteExterno>,
    partidosEficiencia: seq<PartidoEficiencia>,
    blocoCorte: seq<CandidatoBloco>)

  // ---------------------------------------------------------------------------
  // Ranking the field

  function CandKey(r: FieldRow): int { r.sqCandidato }

  function CandInit(r: FieldRow): CandidatoTotal {
    CandidatoTotal(r.sqCandidato, r.nmUrnaCandidato, r.nmCandidato, r.sgPartido,
      r.qtVotosNominais, r.dsSitTotTurno)
  }

  function CandStep(a: CandidatoTotal, r: FieldRow): CandidatoTotal {
    a.(totalVotos := a.totalVotos + r.qtVotosNominais)
  }

  function RowVotes(r: FieldRow): int { r.qtVotosNominais }
  function TotalSq(c: CandidatoTotal): int { c.sqCandidato }
  function TotalVotes(c: CandidatoTotal): int { c.totalVotos }
  function TotalKey(c: CandidatoTotal): real { c.totalVotos as real }

  /** The per-candidate totals in order of first appearance. */
  function Totals(rows: seq<FieldRow>): seq<CandidatoTotal> {
    Values(GroupRows(rows, CandKey, CandInit, CandStep))
  }

  /** The totals sorted by votes, descending; ties keep their order. */
  function Ordered(rows: seq<FieldRow>): seq<CandidatoTotal> {
    SortDesc(Totals(rows), TotalKey)
  }

  function ToBloco(c: CandidatoTotal, i: nat, uf: string): CandidatoBloco {
    CandidatoBloco(c.nmUrnaCandidato, c.nmCandidato, c.sgPartido, uf, c.totalVotos,
      c.dsSitTotTurno, IsEleito(c.dsSitTotTurno), i + 1, c.sqCandidato,
      GerarSlug(uf, c.nmCandidato))
  }

  /** `candidatosComPosicao`: entry `i` is the `i`-th total, at position `i + 1`. */
  function Ranked(ordered: seq<CandidatoTotal>, uf: string): (r: seq<CandidatoBloco>)
    ensures |r| == |ordered|
    ensures forall i :: 0 <= i < |r| ==> r[i] == ToBloco(ordered[i], i, uf)
  {
    seq(|ordered|, i requires 0 <= i < |ordered| => ToBloco(ordered[i], i, uf))
  }

  function BlocoVotes(c: CandidatoBloco): real { c.totalVotos as real }
  function BlocoSq(c: CandidatoBloco): int { c.sqCandidato }
  predicate Elected(c: CandidatoBloco) { c.eleito }

  /** `vagas`: the number of elected candidates of the field. */
  function Vagas(ranked: seq<CandidatoBloco>): nat {
    Count(ranked, Elected)
  }

  /** `Math.ceil(vagas * 1.5)`. */
  function CeilThreeHalves(v: nat): (c: nat)
    ensures 2 * c >= 3 * v && 2 * c < 3 * v + 2
  {
    (3 * v + 1) / 2
  }

  /** `blocoCorteTamanho`: one and a half times the seats, but at least five more. */
  function BlockSize(vagas: nat): (n: nat)
    ensures n >= vagas + 5 && 2 * n >= 3 * vagas
    ensures n == vagas + 5 || (2 * n >= 3 * vagas && 2 * (n - 1) < 3 * vagas)
  {
    var c := CeilThreeHalves(vagas);
    if c >= vagas + 5 then c else vagas + 5
  }

  /** The index of the first ranked entry whose `sq_candidato` is one of `sqs`, or `|ranked|`. */
  function TargetIndex(ranked: seq<CandidatoBloco>, sqs: seq<int>): (i: nat)
    ensures i <= |ranked|
    ensures i < |ranked| ==> ranked[i].sqCandidato in sqs
    ensures forall j :: 0 <= j < i ==> ranked[j].sqCandidato !in sqs
  {
    if ranked == [] then 0
    else if ranked[0].sqCandidato in sqs then 0
    else 1 + TargetIndex(ranked[1..], sqs)
  }

  // ---------------------------------------------------------------------------
  // Competitors

  /** Same party as the analysed candidate, strictly more votes. */
  function SamePartyAbove(partido: string, votos: int): CandidatoBloco -> bool {
    (c: CandidatoBloco) => c.sgPartido == partido && c.totalVotos > votos
  }

  /** Another party, strictly more votes. */
  function OtherPartyAbove(partido: string, votos: int): CandidatoBloco -> bool {
    (c: CandidatoBloco) => c.sgPartido != partido && c.totalVotos > votos
  }

  /** Elected, another party. */
  function ElectedOtherParty(partido: string): CandidatoBloco -> bool {
    (c: CandidatoBloco) => c.eleito && c.sgPartido != partido
  }

  /** `gerarSlug(uf, c.nm_candidato)`. */
  function GerarSlugOf(c: CandidatoBloco, uf: string): string {
    GerarSlug(uf, c.nmCandidato)
  }

  function Interno(c: CandidatoBloco, alvo: CandidatoBloco, uf: string): ConcorrenteInterno {
    ConcorrenteInterno(c.nmUrnaCandidato, c.sgPartido, uf, GerarSlugOf(c, uf),
      c.totalVotos, c.totalVotos - alvo.totalVotos, c.posicao, c.eleito)
  }

  function Externo(c: CandidatoBloco, alvo: CandidatoBloco, uf: string, tipo: TipoExterno): ConcorrenteExterno {
    ConcorrenteExterno(c.nmUrnaCandidato, c.sgPartido, uf, GerarSlugOf(c, uf),
      c.totalVotos, c.totalVotos - alvo.totalVotos, c.posicao, tipo,
      c.totalVotos - alvo.totalVotos)
  }

  /** `mesmoPartido.at(-1)` turned into a competitor, `null` when there is none. */
  function ConcorrenteInternoOf(ranked: seq<CandidatoBloco>, alvo: CandidatoBloco, partido: string, uf: string): Option<ConcorrenteInterno> {
    var m := Filter(ranked, SamePartyAbove(partido, alvo.totalVotos));
    if m == [] then None else Some(Interno(Last(m), alvo, uf))
  }

  function ConcorrenteExternoOf(ranked: seq<CandidatoBloco>, alvo: CandidatoBloco, partido: string, uf: string): Option<ConcorrenteExterno> {
    var o := Filter(ranked, OtherPartyAbove(partido, alvo.totalVotos));
    if o == [] then None else Some(Externo(Last(o), alvo, uf, ProximoAcima))
  }

  function PiorEleitoExternoOf(ranked: seq<CandidatoBloco>, alvo: CandidatoBloco, partido: string, uf: string): Option<ConcorrenteExterno> {
    var e := Filter(ranked, ElectedOtherParty(partido));
    if e == [] then None else Some(Externo(Last(e), alvo, uf, PiorEleito))
  }

  // ---------------------------------------------------------------------------
  // Parties of the block

  datatype PartyTally = PartyTally(candidatos: int, votos: int, eleitos: int)

  function PartyKey(c: CandidatoBloco): string { c.sgPartido }

  function PartyInit(c: CandidatoBloco): PartyTally {
    PartyTally(1, c.totalVotos, if c.eleito then 1 else 0)
  }

  function PartyStep(t: PartyTally, c: CandidatoBloco): PartyTally {
    PartyTally(t.candidatos + 1, t.votos + c.totalVotos, t.eleitos + (if c.eleito then 1 else 0))
  }

  /**
   * `Math.round(v / c)` for a positive `c`: the integer `m` with
   * `m - 1/2 <= v/c < m + 1/2`, so halves round up.
   */
  function RoundDiv(v: int, c: int): (m: int)
    requires c > 0
    ensures c * (2 * m - 1) <= 2 * v < c * (2 * m + 1)
  {
    (2 * v + c) / (2 * c)
  }

  function ToEficiencia(g: Group<string, PartyTally>): PartidoEficiencia {
    var t := g.acc;
    PartidoEficiencia(g.key, t.candidatos, t.votos, t.eleitos,
      if t.candidatos > 0 then RoundDiv(t.votos, t.candidatos) else 0,
      if t.candidatos > 0 then (t.eleitos as real) / (t.candidatos as real) else 0.0)
  }

  function EficienciaRows(gs: seq<Group<string, PartyTally>>): (r: seq<PartidoEficiencia>)
    ensures |r| == |gs| && forall i :: 0 <= i < |gs| ==> r[i] == ToEficiencia(gs[i])
  {
    seq(|gs|, i requires 0 <= i < |gs| => ToEficiencia(gs[i]))
  }

  function EficienciaKey(p: PartidoEficiencia): real { p.eficiencia }

  /** `partidosEficiencia`: one row per party of the block, by efficiency, descending. */
  function PartyTable(block: seq<CandidatoBloco>): seq<PartidoEficiencia> {
    SortDesc(EficienciaRows(GroupRows(block, PartyKey, PartyInit, PartyStep)), EficienciaKey)
  }

  // ---------------------------------------------------------------------------
  // The analysis

  /** `votos_corte`: the votes of the last elected entry, `0` when there is none. */
  function VotosCorte(ranked: seq<CandidatoBloco>): int {
    var eleitos := Filter(ranked, Elected);
    if eleitos == [] then 0 else Last(eleitos).totalVotos
  }

  /** `votos_ultimo_bloco`: the votes of the last entry of the block, `0` when it is empty. */
  function VotosUltimoBloco(block: seq<CandidatoBloco>): int {
    if block == [] then 0 else Last(block).totalVotos
  }

  /** The analysed candidate's entry, in the block when its position is within the block size. */
  function CandidatoOf(alvo: CandidatoBloco, size: nat): CandidatoAnalisado {
    CandidatoAnalisado(alvo.nmUrnaCandidato, alvo.sgPartido, alvo.totalVotos, alvo.posicao,
      alvo.eleito, alvo.posicao <= size)
  }

  /** The metrics of a ranking with `vagas` seats. */
  function MetricasOf(ranked: seq<CandidatoBloco>, vagas: nat): Metricas {
    var size := BlockSize(vagas);
    Metricas(|ranked|, vagas, size, VotosCorte(ranked), VotosUltimoBloco(Take(ranked, size)))
  }

  function Build(e: Eleicao, ranked: seq<CandidatoBloco>, vagas: nat, t: nat,
                 tabela: seq<PartidoEficiencia>, partido: string, uf: string): AnaliseEleicao
    requires vagas > 0 && t < |ranked|
  {
    var alvo := ranked[t];
    AnaliseEleicao(e.anoEleicao, e.nmMunicipio, uf, e.dsCargo, e.nrTurno,
      CandidatoOf(alvo, BlockSize(vagas)), MetricasOf(ranked, vagas),
      ConcorrenteInternoOf(ranked, alvo, partido, uf),
      ConcorrenteExternoOf(ranked, alvo, partido, uf),
      PiorEleitoExternoOf(ranked, alvo, partido, uf),
      tabela, Take(ranked, BlockSize(vagas)))
  }

  /** The analysis of a ranked field; `None` when nobody is elected or the candidate is absent. */
  function AnalisarRanked(e: Eleicao, ranked: seq<CandidatoBloco>, sqs: seq<int>, partido: string, uf: string): Option<AnaliseEleicao> {
    var vagas := Vagas(ranked);
    if vagas == 0 then None
    else
      var t := TargetIndex(ranked, sqs);
      if t == |ranked| then None
      else Some(Build(e, ranked, vagas, t, PartyTable(Take(ranked, BlockSize(vagas))), partido, uf))
  }

  /**
   * The analysis of contest `e` given the response to its field query
   * (`None` when the response is not ok), the analysed candidate's
   * `sq_candidato` values, the party of its first record and the state of
   * the request. `None` is the source's `null`.
   */
  function Analisar(e: Eleicao, field: Option<seq<FieldRow>>, sqs: seq<int>, partido: string, uf: string): Option<AnaliseEleicao> {
    if field.None? then None
    else
      var ranked := Ranked(Ordered(field.value), uf);
      if ranked == [] then None
      else AnalisarRanked(e, ranked, sqs, partido, uf)
  }

  /** `analisarEleicao`, with the two `Map` loops run as loops. */
  method AnalisarEleicao(e: Eleicao, field: Option<seq<FieldRow>>, sqs: seq<int>, partido: string, uf: string)
    returns (r: Option<AnaliseEleicao>)
    ensures r == Analisar(e, field, sqs, partido, uf)
  {
    if field.None? {
      return None;
    }
    var candidatos := Aggregate(field.value, CandKey, CandInit, CandStep);
    var ordered := SortDesc(Values(candidatos), TotalKey);
    assert ordered == Ordered(field.value);
    if |ordered| == 0 {
      return None;
    }
    var ranked := Ranked(ordered, uf);
    r := AnalisarRankedField(e, ranked, sqs, partido, uf);
  }

  method AnalisarRankedField(e: Eleicao, ranked: seq<CandidatoBloco>, sqs: seq<int>, partido: string, uf: string)
    returns (r: Option<AnaliseEleicao>)
    ensures r == AnalisarRanked(e, ranked, sqs, partido, uf)
  {
    var vagas := Vagas(ranked);
    if vagas == 0 {
      return None;
    }
    var block := Take(ranked, BlockSize(vagas));
    var t := 0;
    while t < |ranked| && ranked[t].sqCandidato !in sqs
      invariant t <= |ranked|
      invariant forall j :: 0 <= j < t ==> ranked[j].sqCandidato !in sqs
    {
      t := t + 1;
    }
    TargetIndexIsFirst(ranked, sqs, t);
    if t == |ranked| {
      return None;
    }
    var partidos := Aggregate(block, PartyKey, PartyInit, PartyStep);
    var tabela := SortDesc(EficienciaRows(partidos), EficienciaKey);
    r := Some(Build(e, ranked, vagas, t, tabela, partido, uf));
  }

  /** The first index whose entry matches is the one `TargetIndex` names. */
  lemma TargetIndexIsFirst(ranked: seq<CandidatoBloco>, sqs: seq<int>, t: nat)
    requires t <= |ranked|
    requires t < |ranked| ==> ranked[t].sqCandidato in sqs
    requires forall j :: 0 <= j < t ==> ranked[j].sqCandidato !in sqs
    ensures TargetIndex(ranked, sqs) == t
  {
  }
}

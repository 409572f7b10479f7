/**
 * The candidate page endpoint: it reads the `uf-nome` slug, looks the
 * candidate up through four strategies tried in a fixed order, fetches the
 * candidate's votes per municipality and builds the page's statistics.
 *
 * The four lookups and the ranking fetch are parameters giving `Fetched`
 * responses. A throw from a lookup is caught nowhere in the handler and ends
 * the request with status 500; the ranking fetch catches its own.
 */
module CandidatoApi {
  import opened Wrappers
  import opened Text
  import opened Seqs
  import opened Grouping
  import opened Slug
  import opened Situacao

  /** A row of the per-candidate-and-contest view. */
  datatype VotosRecord = VotosRecord(
    sqCandidato: int, nmCandidato: string, nmUrnaCandidato: string, sgPartido: string,
    nmPartido: string, dsCargo: string, anoEleicao: int, sgUf: string, nrTurno: int,
    dsSitTotTurno: string, totalVotos: int, municipiosVotados: int, zonasContadas: int)

  datatype EleicaoAgregada = EleicaoAgregada(
    anoEleicao: int, dsCargo: string, sgPartido: string, nrTurno: int,
    dsSitTotTurno: string, totalVotos: int, municipiosCount: int)

  /** A zone-level vote row as the ranking query selects it. */
  datatype MunicipioRow = MunicipioRow(nmMunicipio: string, qtVotosNominais: int)

  datatype MunicipioVotos = MunicipioVotos(nmMunicipio: string, totalVotos: int)

  datatype Stats = Stats(
    totalVotos: int, anosAtivo: seq<int>, partidos: seq<string>, cargos: seq<string>,
    vitorias: int, derrotas: int)

  datatype CandidatoResponse = CandidatoResponse(
    nmCandidato: string, nmUrnaCandidato: string, sgUf: string,
    eleicoes: seq<EleicaoAgregada>, municipiosRanking: seq<MunicipioVotos>, stats: Stats)

  // ---------------------------------------------------------------------------
  // Search words

  predicate Distintiva(p: string) { |p| >= 4 }

  /**
   * `extrairPalavrasBusca`: of the slug's parts with at least four
   * characters, none, the only one, or the first and then the second-to-last
   * (the last when that one upper-cases to the empty string), upper-cased.
   */
  function PalavrasBusca(nomeSlug: string): (r: seq<string>)
    ensures var d := Filter(Split(nomeSlug, '-'), Distintiva);
      && |r| <= 2
      && (r == [] <==> d == [])
      && (|d| == 1 ==> r == [Upper(d[0])])
      && (|d| >= 2 ==> |r| == 2 && r[0] == Upper(d[0]))
  {
    var d := Filter(Split(nomeSlug, '-'), Distintiva);
    if |d| == 0 then []
    else if |d| == 1 then [Upper(d[0])]
    else
      var primeira := Upper(d[0]);
      var penultima := Upper(d[|d| - 2]);
      [primeira, if penultima != "" then penultima else Upper(d[|d| - 1])]
  }

  /**
   * The fallback to the last part is never taken: every kept part has at
   * least four characters and upper-casing keeps the length, so the
   * second word is always the second-to-last part.
   */
  lemma PalavrasBuscaPenultima(nomeSlug: string)
    ensures var d := Filter(Split(nomeSlug, '-'), Distintiva);
      |d| >= 2 ==> PalavrasBusca(nomeSlug) == [Upper(d[0]), Upper(d[|d| - 2])]
  {
    var d := Filter(Split(nomeSlug, '-'), Distintiva);
    if |d| >= 2 {
      var k := |d| - 2;
      assert Distintiva(d[k]);
      assert |Upper(d[k])| == |d[k]|;
      assert Upper(d[k]) != "";
    }
  }

  /** Each search word is an upper-cased slug part of at least four characters. */
  lemma PalavrasBuscaSpec(nomeSlug: string)
    ensures forall i :: 0 <= i < |PalavrasBusca(nomeSlug)| ==>
      |PalavrasBusca(nomeSlug)[i]| >= 4 &&
      exists p :: p in Split(nomeSlug, '-') && PalavrasBusca(nomeSlug)[i] == Upper(p)
  {
    var d := Filter(Split(nomeSlug, '-'), Distintiva);
    var r := PalavrasBusca(nomeSlug);
    PalavrasBuscaPenultima(nomeSlug);
    forall i | 0 <= i < |r| ensures |r[i]| >= 4 && exists p :: p in Split(nomeSlug, '-') && r[i] == Upper(p) {
      var j := if i == 0 then 0 else |d| - 2;
      assert r[i] == Upper(d[j]) && d[j] in d;
    }
  }

  // ---------------------------------------------------------------------------
  // The lookup chain

  predicate ParteNome(p: string) { |p| >= 3 }

  /** The parts of the upper-case name with at least three characters. */
  function PartesNome(nomeCompleto: string): seq<string> {
    Filter(Split(nomeCompleto, ' '), ParteNome)
  }

  /** The records of an ok response, none otherwise. */
  function Got(response: Fetched<seq<VotosRecord>>): seq<VotosRecord> {
    if response.Body? then response.body else []
  }

  /**
   * The four strategies of the lookup, each asked by state: by normalised
   * name through the RPC, by `nm_candidato` ILIKE the name, by
   * `nm_urna_candidato` ILIKE the search words, and by `nm_candidato` ILIKE
   * the first and last name parts.
   */
  datatype Lookups = Lookups(
    rpc: (string, string) -> Fetched<seq<VotosRecord>>,
    porNome: (string, string) -> Fetched<seq<VotosRecord>>,
    porUrna: (string, string) -> Fetched<seq<VotosRecord>>,
    porPrimeiroUltimo: (string, string, string) -> Fetched<seq<VotosRecord>>)

  /** What the third strategy yields: without search words no request is made and nothing is found. */
  function ByUrna(l: Lookups, uf: string, nomeSlug: string): Fetched<seq<VotosRecord>> {
    var palavras := PalavrasBusca(nomeSlug);
    if palavras == [] then Body([]) else l.porUrna(uf, Join(palavras, " "))
  }

  /** What the fourth strategy yields: with fewer than two name parts no request is made. */
  function ByPrimeiroUltimo(l: Lookups, uf: string, nomeCompleto: string): Fetched<seq<VotosRecord>> {
    var partes := PartesNome(nomeCompleto);
    if |partes| < 2 then Body([]) else l.porPrimeiroUltimo(uf, partes[0], partes[|partes| - 1])
  }

  /** One strategy: its throw ends the request, its records win, and with none the rest is tried. */
  function Attempt(response: Fetched<seq<VotosRecord>>, rest: Result<seq<VotosRecord>>): Result<seq<VotosRecord>> {
    if response.Thrown? then Err(Unhandled(response.message))
    else if Got(response) != [] then Ok(Got(response))
    else rest
  }

  /** The records of the first strategy that yields some, in the fixed order, or the first throw. */
  function Records(l: Lookups, req: RequestSlug): Result<seq<VotosRecord>> {
    Attempt(l.rpc(req.uf, req.nomeCompleto),
      Attempt(l.porNome(req.uf, req.nomeCompleto),
        Attempt(ByUrna(l, req.uf, req.nomeSlug),
          Attempt(ByPrimeiroUltimo(l, req.uf, req.nomeCompleto), Ok([])))))
  }

  /** The lookup chain as the handler runs it: `records` reassigned while it is still empty. */
  method FindRecords(l: Lookups, req: RequestSlug) returns (r: Result<seq<VotosRecord>>)
    ensures r == Records(l, req)
  {
    var records := [];
    var response := l.rpc(req.uf, req.nomeCompleto);
    if response.Thrown? {
      return Err(Unhandled(response.message));
    }
    if response.Body? {
      records := response.body;
    }
    if |records| == 0 {
      response := l.porNome(req.uf, req.nomeCompleto);
      if response.Thrown? {
        return Err(Unhandled(response.message));
      }
      if response.Body? {
        records := response.body;
      }
    }
    if |records| == 0 {
      r := FindByKeywords(l, req);
    } else {
      r := Ok(records);
    }
  }

  /** The third and fourth strategies, tried once the first two found nothing. */
  method FindByKeywords(l: Lookups, req: RequestSlug) returns (r: Result<seq<VotosRecord>>)
    ensures r == Attempt(ByUrna(l, req.uf, req.nomeSlug), Attempt(ByPrimeiroUltimo(l, req.uf, req.nomeCompleto), Ok([])))
  {
    var records := [];
    var palavras := PalavrasBusca(req.nomeSlug);
    if |palavras| > 0 {
      var response := l.porUrna(req.uf, Join(palavras, " "));
      if response.Thrown? {
        return Err(Unhandled(response.message));
      }
      if response.Body? {
        records := response.body;
      }
    }
    assert records == Got(ByUrna(l, req.uf, req.nomeSlug));
    if |records| == 0 {
      r := FindByPrimeiroUltimo(l, req);
    } else {
      r := Ok(records);
    }
  }

  /** The fourth strategy: the first and last name parts of three or more characters. */
  method FindByPrimeiroUltimo(l: Lookups, req: RequestSlug) returns (r: Result<seq<VotosRecord>>)
    ensures r == Attempt(ByPrimeiroUltimo(l, req.uf, req.nomeCompleto), Ok([]))
  {
    var records := [];
    var partes := PartesNome(req.nomeCompleto);
    if |partes| >= 2 {
      var response := l.porPrimeiroUltimo(req.uf, partes[0], partes[|partes| - 1]);
      if response.Thrown? {
        return Err(Unhandled(response.message));
      }
      if response.Body? {
        records := response.body;
      }
    }
    r := Ok(records);
  }

  /**
   * The strategies run in order and a later one is consulted only when all
   * earlier ones yielded nothing; the first consulted one that throws ends
   * the lookup with status 500; nothing is found exactly when every
   * strategy that could run yielded nothing without throwing.
   */
  lemma RecordsOrder(l: Lookups, req: RequestSlug)
    ensures var f1 := l.rpc(req.uf, req.nomeCompleto);
      var f2 := l.porNome(req.uf, req.nomeCompleto);
      var f3 := ByUrna(l, req.uf, req.nomeSlug);
      var f4 := ByPrimeiroUltimo(l, req.uf, req.nomeCompleto);
      var records := Records(l, req);
      && (f1.Thrown? ==> records == Err(Unhandled(f1.message)))
      && (!f1.Thrown? && Got(f1) != [] ==> records == Ok(Got(f1)))
      && (!f1.Thrown? && Got(f1) == [] && f2.Thrown? ==> records == Err(Unhandled(f2.message)))
      && (!f1.Thrown? && Got(f1) == [] && !f2.Thrown? && Got(f2) != [] ==> records == Ok(Got(f2)))
      && (!f1.Thrown? && Got(f1) == [] && !f2.Thrown? && Got(f2) == [] ==>
            records == Attempt(f3, Attempt(f4, Ok([]))))
      && (records == Ok([]) <==>
            !f1.Thrown? && Got(f1) == [] && !f2.Thrown? && Got(f2) == []
            && !f3.Thrown? && Got(f3) == [] && !f4.Thrown? && Got(f4) == [])
      && (records.Err? ==> records.error.statusCode == 500)
      && (records.Ok? && records.value != [] ==>
            records.value == Got(f1) || records.value == Got(f2) || records.value == Got(f3) || records.value == Got(f4))
  {
  }

  /** The last two strategies only query when they have something to search for. */
  lemma FallbacksNeedWords(l: Lookups, req: RequestSlug)
    ensures PalavrasBusca(req.nomeSlug) == [] ==> ByUrna(l, req.uf, req.nomeSlug) == Body([])
    ensures |PartesNome(req.nomeCompleto)| < 2 ==> ByPrimeiroUltimo(l, req.uf, req.nomeCompleto) == Body([])
  {
  }

  // ---------------------------------------------------------------------------
  // Ranking of municipalities

  predicate NonZero(sq: int) { sq != 0 }

  /** `records.map(r => r.sq_candidato).filter(Boolean)`. */
  function SqsOf(records: seq<VotosRecord>): (sqs: seq<int>)
    ensures forall i :: 0 <= i < |sqs| ==> sqs[i] != 0
  {
    Filter(seq(|records|, i requires 0 <= i < |records| => records[i].sqCandidato), NonZero)
  }

  function MunicipioKey(r: MunicipioRow): string { r.nmMunicipio }
  function MunicipioInit(r: MunicipioRow): MunicipioVotos { MunicipioVotos(r.nmMunicipio, r.qtVotosNominais) }
  function MunicipioStep(m: MunicipioVotos, r: MunicipioRow): MunicipioVotos {
    m.(totalVotos := m.totalVotos + r.qtVotosNominais)
  }
  function MunicipioVotosKey(m: MunicipioVotos): real { m.totalVotos as real }
  function EntryVotes(m: MunicipioVotos): int { m.totalVotos }
  function RowVotes(r: MunicipioRow): int { r.qtVotosNominais }
  function EntryName(m: MunicipioVotos): string { m.nmMunicipio }

  /**
   * `fetchMunicipiosRanking`: no entries without ids or when the fetch is
   * not ok or throws; otherwise one entry per municipality, votes summed,
   * most votes first.
   */
  function MunicipiosRanking(sqs: seq<int>, response: Fetched<seq<MunicipioRow>>): seq<MunicipioVotos> {
    if sqs == [] || !response.Body? then []
    else SortDesc(Values(GroupRows(response.body, MunicipioKey, MunicipioInit, MunicipioStep)), MunicipioVotosKey)
  }

  /** The ranking loop: a `Map` from municipality to votes, then the sort. */
  method FetchMunicipiosRanking(sqs: seq<int>, response: Fetched<seq<MunicipioRow>>) returns (entries: seq<MunicipioVotos>)
    ensures entries == MunicipiosRanking(sqs, response)
  {
    if |sqs| == 0 {
      return [];
    }
    match response {
      case NotOk => return [];
      case Thrown(_) => return [];
      case Body(data) =>
        var mapa := Aggregate(data, MunicipioKey, MunicipioInit, MunicipioStep);
        entries := SortDesc(Values(mapa), MunicipioVotosKey);
    }
  }

  /**
   * Each municipality of the rows appears once, with the sum of its rows'
   * votes; the entries are sorted by votes, and together they hold every vote.
   */
  lemma MunicipiosRankingSpec(sqs: seq<int>, data: seq<MunicipioRow>)
    requires sqs != []
    ensures var entries := MunicipiosRanking(sqs, Body(data));
      && SortedDesc(entries, MunicipioVotosKey)
      && DistinctKeys(entries, EntryName)
      && (forall i :: 0 <= i < |entries| ==>
            entries[i].totalVotos == Sum(RowsWithKey(data, MunicipioKey, entries[i].nmMunicipio), RowVotes))
      && (forall k :: 0 <= k < |data| ==> exists i :: 0 <= i < |entries| && entries[i].nmMunicipio == data[k].nmMunicipio)
      && Sum(entries, EntryVotes) == Sum(data, RowVotes)
  {
    var gs := GroupRows(data, MunicipioKey, MunicipioInit, MunicipioStep);
    var vs := Values(gs);
    var entries := MunicipiosRanking(sqs, Body(data));
    SortDescSpec(vs, MunicipioVotosKey);
    GroupRowsKeys(data, MunicipioKey, MunicipioInit, MunicipioStep);
    GroupAccKey(data, MunicipioKey, MunicipioInit, MunicipioStep, EntryName);
    GroupSums(data, MunicipioKey, MunicipioInit, MunicipioStep, EntryVotes, RowVotes);
    GroupTotal(data, MunicipioKey, MunicipioInit, MunicipioStep, EntryVotes, RowVotes);
    SumPermutation(vs, entries, EntryVotes);
    assert DistinctKeys(vs, EntryName) by {
      forall i, j | 0 <= i < j < |vs| ensures EntryName(vs[i]) != EntryName(vs[j]) {
        assert EntryName(vs[i]) == gs[i].key && EntryName(vs[j]) == gs[j].key;
      }
    }
    DistinctKeysPermutation(vs, entries, EntryName);
    forall i | 0 <= i < |entries|
      ensures entries[i].totalVotos == Sum(RowsWithKey(data, MunicipioKey, entries[i].nmMunicipio), RowVotes)
    {
      var j := IndexOf(vs, entries[i]);
      assert EntryName(vs[j]) == gs[j].key;
    }
    forall k | 0 <= k < |data| ensures exists i :: 0 <= i < |entries| && entries[i].nmMunicipio == data[k].nmMunicipio {
      assert data[k] in data;
      var g := IndexOfKey(gs, MunicipioKey(data[k]));
      assert vs[g] in multiset(entries);
      var i := IndexOf(entries, vs[g]);
      assert EntryName(vs[g]) == gs[g].key;
    }
  }

  /** Without ids, or when the fetch fails, there are no entries. */
  lemma MunicipiosRankingEmpty(sqs: seq<int>, response: Fetched<seq<MunicipioRow>>)
    ensures sqs == [] || response.NotOk? || response.Thrown? ==> MunicipiosRanking(sqs, response) == []
  {
  }

  // ---------------------------------------------------------------------------
  // The page

  function ToEleicao(r: VotosRecord): EleicaoAgregada {
    EleicaoAgregada(r.anoEleicao, r.dsCargo, r.sgPartido, r.nrTurno, r.dsSitTotTurno, r.totalVotos, r.municipiosVotados)
  }

  function Eleicoes(records: seq<VotosRecord>): (r: seq<EleicaoAgregada>)
    ensures |r| == |records| && forall i :: 0 <= i < |records| ==> r[i] == ToEleicao(records[i])
  {
    seq(|records|, i requires 0 <= i < |records| => ToEleicao(records[i]))
  }

  function AnoKey(e: EleicaoAgregada): real { e.anoEleicao as real }
  function Votos(e: EleicaoAgregada): int { e.totalVotos }
  function RecordVotos(r: VotosRecord): int { r.totalVotos }
  predicate Vitoria(e: EleicaoAgregada) { IsVitoria(e.dsSitTotTurno) }

  function Anos(es: seq<EleicaoAgregada>): (r: seq<int>)
    ensures |r| == |es| && forall i :: 0 <= i < |es| ==> r[i] == es[i].anoEleicao
  {
    seq(|es|, i requires 0 <= i < |es| => es[i].anoEleicao)
  }

  function Partidos(es: seq<EleicaoAgregada>): (r: seq<string>)
    ensures |r| == |es| && forall i :: 0 <= i < |es| ==> r[i] == es[i].sgPartido
  {
    seq(|es|, i requires 0 <= i < |es| => es[i].sgPartido)
  }

  function Cargos(es: seq<EleicaoAgregada>): (r: seq<string>)
    ensures |r| == |es| && forall i :: 0 <= i < |es| ==> r[i] == es[i].dsCargo
  {
    seq(|es|, i requires 0 <= i < |es| => es[i].dsCargo)
  }

  /** `buildResponse`; the handler calls it only with some record. */
  function BuildResponse(records: seq<VotosRecord>, uf: string, ranking: seq<MunicipioVotos>): CandidatoResponse
    requires records != []
  {
    var eleicoes := SortDesc(Eleicoes(records), AnoKey);
    var vitorias := Count(eleicoes, Vitoria);
    CandidatoResponse(records[0].nmCandidato, records[0].nmUrnaCandidato, uf, eleicoes, ranking,
      Stats(Sum(eleicoes, Votos), Distinct(Anos(eleicoes)), Distinct(Partidos(eleicoes)),
        Distinct(Cargos(eleicoes)), vitorias, |eleicoes| - vitorias))
  }

  /**
   * One election per record, newest first; the vote total is the records'
   * total; years, parties and offices are listed once each and cover every
   * record; victories and defeats partition the elections.
   */
  lemma BuildResponseSpec(records: seq<VotosRecord>, uf: string, ranking: seq<MunicipioVotos>)
    requires records != []
    ensures var r := BuildResponse(records, uf, ranking);
      && multiset(r.eleicoes) == multiset(Eleicoes(records))
      && SortedDesc(r.eleicoes, AnoKey)
      && r.stats.totalVotos == Sum(records, RecordVotos)
      && (forall i, j :: 0 <= i < j < |r.stats.anosAtivo| ==> r.stats.anosAtivo[i] != r.stats.anosAtivo[j])
      && (forall k :: 0 <= k < |records| ==> records[k].anoEleicao in r.stats.anosAtivo)
      && (forall i, j :: 0 <= i < j < |r.stats.partidos| ==> r.stats.partidos[i] != r.stats.partidos[j])
      && (forall k :: 0 <= k < |records| ==> records[k].sgPartido in r.stats.partidos)
      && (forall i, j :: 0 <= i < j < |r.stats.cargos| ==> r.stats.cargos[i] != r.stats.cargos[j])
      && (forall k :: 0 <= k < |records| ==> records[k].dsCargo in r.stats.cargos)
      && r.stats.vitorias == Count(r.eleicoes, Vitoria)
      && 0 <= r.stats.derrotas == |records| - r.stats.vitorias
      && r.sgUf == uf && r.nmCandidato == records[0].nmCandidato
  {
    var es := Eleicoes(records);
    var sorted := SortDesc(es, AnoKey);
    SortDescSpec(es, AnoKey);
    SumPermutation(es, sorted, Votos);
    SumPointwise(records, es, RecordVotos, Votos);
    forall k | 0 <= k < |records|
      ensures records[k].anoEleicao in Anos(sorted) && records[k].sgPartido in Partidos(sorted)
        && records[k].dsCargo in Cargos(sorted)
    {
      assert es[k] in multiset(sorted);
      var i := IndexOf(sorted, es[k]);
      assert Anos(sorted)[i] == records[k].anoEleicao;
      assert Partidos(sorted)[i] == records[k].sgPartido;
      assert Cargos(sorted)[i] == records[k].dsCargo;
    }
  }

  // ---------------------------------------------------------------------------
  // The handler

  /**
   * The handler: 400 for a missing slug or one without a hyphen, 500 when a
   * lookup throws, 404 when no strategy finds the candidate, otherwise the
   * page.
   */
  function Handle(slug: Option<string>, l: Lookups, ranking: seq<int> -> Fetched<seq<MunicipioRow>>)
    : Result<CandidatoResponse>
  {
    var req := ParseRequestSlug(slug);
    if req.Err? then Err(req.error)
    else
      var found := Records(l, req.value);
      if found.Err? then Err(found.error)
      else if found.value == [] then Err(HttpError(404, "Candidato não encontrado"))
      else
        var records := found.value;
        var sqs := SqsOf(records);
        Ok(BuildResponse(records, req.value.uf, MunicipiosRanking(sqs, ranking(sqs))))
  }

  method HandleRequest(slug: Option<string>, l: Lookups, ranking: seq<int> -> Fetched<seq<MunicipioRow>>)
    returns (r: Result<CandidatoResponse>)
    ensures r == Handle(slug, l, ranking)
  {
    var req := ParseRequestSlug(slug);
    if req.Err? {
      return Err(req.error);
    }
    var found := FindRecords(l, req.value);
    if found.Err? {
      return Err(found.error);
    }
    var records := found.value;
    if |records| == 0 {
      return Err(HttpError(404, "Candidato não encontrado"));
    }
    var sqs := SqsOf(records);
    var entries := FetchMunicipiosRanking(sqs, ranking(sqs));
    r := Ok(BuildResponse(records, req.value.uf, entries));
  }

  /** The handler's outcomes and the request it answers. */
  lemma HandleSpec(slug: Option<string>, l: Lookups, ranking: seq<int> -> Fetched<seq<MunicipioRow>>)
    ensures var r := Handle(slug, l, ranking);
      var req := ParseRequestSlug(slug);
      && (r.Err? ==> r.error.statusCode == 400 || r.error.statusCode == 404 || r.error.statusCode == 500)
      && ((r.Err? && r.error.statusCode == 400) <==> slug.None? || slug.value == [] || '-' !in slug.value)
      && ((r.Err? && r.error.statusCode == 500) <==> req.Ok? && Records(l, req.value).Err?)
      && ((r.Err? && r.error.statusCode == 404) <==> req.Ok? && Records(l, req.value) == Ok([]))
      && (r.Ok? ==> r.value.sgUf == Upper(Split(slug.value, '-')[0])
                    && Records(l, req.value).Ok?
                    && |r.value.eleicoes| == |Records(l, req.value).value| > 0)
  {
    var req := ParseRequestSlug(slug);
    if req.Ok? {
      RecordsOrder(l, req.value);
      var found := Records(l, req.value);
      if found.Ok? && found.value != [] {
        SortDescSpec(Eleicoes(found.value), AnoKey);
      }
    }
  }

  // ---------------------------------------------------------------------------
  // Cache key

  /** `v13:{slug || 'unknown'}`: the response is cached per slug for a year. */
  function CacheKey(slug: Option<string>): (k: string)
    ensures |k| > 4 && k[..4] == "v13:"
    ensures slug.Some? && slug.value != [] ==> k[4..] == slug.value
  {
    "v13:" + (if slug.None? || slug.value == [] then "unknown" else slug.value)
  }

  /** Two different slugs never share a cached response. */
  lemma CacheKeyInjective(a: string, b: string)
    requires a != [] && b != [] && a != b
    ensures CacheKey(Some(a)) != CacheKey(Some(b))
  {
    assert CacheKey(Some(a))[4..] == a;
  }

  /**
   * A request without a slug, or with an empty one, shares its cache key with
   * the slug `unknown`; only successful responses are stored, and the missing
   * slug is answered with a 400, so that entry holds the `unknown` slug's answer.
   */
  lemma CacheKeyUnknown()
    ensures CacheKey(None) == CacheKey(Some([])) == CacheKey(Some("unknown"))
  {
  }
}

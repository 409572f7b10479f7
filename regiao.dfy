/**
 * The candidates of a region, shared by the mesoregion page and the region
 * query: the municipal result rows aggregated per candidate, sorted by
 * votes, and the region's statistics.
 */
module Regiao {
  import opened Wrappers
  import opened Text
  import opened Seqs
  import opened Grouping

  /**
   * A row of the per-municipality view. `totalVotos` is `None` when it is
   * not a number; the other fields are taken as their `String(...)` text.
   */
  datatype RegiaoRow = RegiaoRow(
    nmCandidato: string, nmUrnaCandidato: string, sgPartido: string, dsCargo: string,
    anoEleicao: int, sgUf: string, totalVotos: Option<int>, dsSitTotTurno: string, nmMunicipio: string)

  datatype CandidatoRegiao = CandidatoRegiao(
    nmCandidato: string, nmUrnaCandidato: string, sgPartido: string, dsCargo: string,
    anoEleicao: int, sgUf: string, totalVotos: int, dsSitTotTurno: string, municipiosVotados: seq<string>)

  datatype StatsRegiao = StatsRegiao(
    totalVotos: int, totalCandidatos: int, totalPartidos: int, topPartido: string, topCandidato: string)

  /**
   * The query both pages send: one state, one year, first round, the listed
   * municipalities, ordered by `total_votos` descending so that the 5000 rows
   * kept are those with the most votes, and `ds_cargo ilike %cargo%` when an
   * office is chosen. The rows the database returns for it are an input.
   */
  datatype RegiaoQuery = RegiaoQuery(
    sgUf: string, anoEleicao: int, nrTurno: int, municipios: seq<string>,
    orderBy: string, ascending: bool, limit: nat, cargoPattern: Option<string>)

  /** What the query yields: rows (`data ?? []`), an error it returns, or one it throws. */
  datatype QueryOutcome = Rows(rows: seq<RegiaoRow>) | FetchError(message: string) | Thrown(text: string)

  /** A municipality of the IBGE list. */
  datatype Municipio = Municipio(id: int, nome: string)

  /** `municipios.map(m => m.nome.toUpperCase())`: the names the query matches against. */
  function NomesMunicipios(ms: seq<Municipio>): (ns: seq<string>)
    ensures |ns| == |ms| && forall i :: 0 <= i < |ms| ==> ns[i] == Upper(ms[i].nome)
  {
    seq(|ms|, i requires 0 <= i < |ms| => Upper(ms[i].nome))
  }

  /** The raw rows a query outcome leaves: `data ?? []`, or none after an error. */
  function RawOf(o: QueryOutcome): seq<RegiaoRow> {
    if o.Rows? then o.rows else []
  }

  function QueryOf(uf: string, ano: int, nomes: seq<string>, cargo: Option<string>): RegiaoQuery {
    RegiaoQuery(uf, ano, 1, nomes, "total_votos", false, 5000, if Truthy(cargo) then Some("%" + cargo.value + "%") else None)
  }

  // ---------------------------------------------------------------------------
  // Candidates

  /** `Number(row.total_votos) || 0`. */
  function Votos(r: RegiaoRow): int {
    if r.totalVotos.Some? then r.totalVotos.value else 0
  }

  /** `${nm_candidato}-${sg_partido}-${ds_cargo}`. */
  function Chave(nome: string, partido: string, cargo: string): string {
    nome + "-" + partido + "-" + cargo
  }

  function RowKey(r: RegiaoRow): string { Chave(r.nmCandidato, r.sgPartido, r.dsCargo) }
  function CandKey(c: CandidatoRegiao): string { Chave(c.nmCandidato, c.sgPartido, c.dsCargo) }

  function CandInit(r: RegiaoRow): CandidatoRegiao {
    CandidatoRegiao(r.nmCandidato, r.nmUrnaCandidato, r.sgPartido, r.dsCargo, r.anoEleicao, r.sgUf,
      Votos(r), r.dsSitTotTurno, [r.nmMunicipio])
  }

  /** Adds the row's votes and, when new, its municipality. */
  function CandStep(c: CandidatoRegiao, r: RegiaoRow): CandidatoRegiao {
    c.(totalVotos := c.totalVotos + Votos(r),
       municipiosVotados := if r.nmMunicipio in c.municipiosVotados then c.municipiosVotados
                            else c.municipiosVotados + [r.nmMunicipio])
  }

  function CandVotos(c: CandidatoRegiao): int { c.totalVotos }
  function CandVotosKey(c: CandidatoRegiao): real { c.totalVotos as real }

  /** The computed `candidatos`. */
  function Candidatos(raw: seq<RegiaoRow>): seq<CandidatoRegiao> {
    if raw == [] then []
    else SortDesc(Values(GroupRows(raw, RowKey, CandInit, CandStep)), CandVotosKey)
  }

  /** The aggregation loop and the sort. */
  method AgregarCandidatos(raw: seq<RegiaoRow>) returns (cs: seq<CandidatoRegiao>)
    ensures cs == Candidatos(raw)
  {
    if |raw| == 0 {
      return [];
    }
    var mapa := Aggregate(raw, RowKey, CandInit, CandStep);
    cs := SortDesc(Values(mapa), CandVotosKey);
  }

  function Municipios(rs: seq<RegiaoRow>): (ms: seq<string>)
    ensures |ms| == |rs| && forall i :: 0 <= i < |rs| ==> ms[i] == rs[i].nmMunicipio
  {
    seq(|rs|, i requires 0 <= i < |rs| => rs[i].nmMunicipio)
  }

  /** The municipality list a candidate's rows build is their distinct municipalities in first-seen order. */
  lemma {:induction false} FoldMunicipios(rs: seq<RegiaoRow>)
    requires |rs| > 0
    ensures Fold(rs, CandInit, CandStep).municipiosVotados == Distinct(Municipios(rs))
    decreases |rs|
  {
    var ms := Municipios(rs);
    DistinctSnoc(ms);
    if |rs| == 1 {
      assert ms[..0] == [];
    } else {
      var pre := rs[..|rs| - 1];
      FoldMunicipios(pre);
      assert ms[..|ms| - 1] == Municipios(pre);
    }
  }

  /** `c` is the aggregate of the rows with its key. */
  predicate IsCandidatoOf(raw: seq<RegiaoRow>, c: CandidatoRegiao) {
    var rs := RowsWithKey(raw, RowKey, CandKey(c));
    && rs != []
    && c.totalVotos == Sum(rs, Votos)
    && c.municipiosVotados == Distinct(Municipios(rs))
    && c.nmUrnaCandidato == rs[0].nmUrnaCandidato && c.dsSitTotTurno == rs[0].dsSitTotTurno
  }

  function FirstFields(c: CandidatoRegiao): (string, string) { (c.nmUrnaCandidato, c.dsSitTotTurno) }
  function RowFields(r: RegiaoRow): (string, string) { (r.nmUrnaCandidato, r.dsSitTotTurno) }

  /** The map's values, before the sort: one aggregate per key, every row counted. */
  lemma ValuesSpec(raw: seq<RegiaoRow>)
    ensures var vs := Values(GroupRows(raw, RowKey, CandInit, CandStep));
      && DistinctKeys(vs, CandKey)
      && (forall j :: 0 <= j < |vs| ==> IsCandidatoOf(raw, vs[j]))
      && (forall k :: 0 <= k < |raw| ==> exists j :: 0 <= j < |vs| && CandKey(vs[j]) == RowKey(raw[k]))
      && Sum(vs, CandVotos) == Sum(raw, Votos)
  {
    var gs := GroupRows(raw, RowKey, CandInit, CandStep);
    var vs := Values(gs);
    GroupRowsKeys(raw, RowKey, CandInit, CandStep);
    GroupRowsAcc(raw, RowKey, CandInit, CandStep);
    GroupAccKey(raw, RowKey, CandInit, CandStep, CandKey);
    GroupSums(raw, RowKey, CandInit, CandStep, CandVotos, Votos);
    GroupKeepsFirst(raw, RowKey, CandInit, CandStep, FirstFields, RowFields);
    GroupTotal(raw, RowKey, CandInit, CandStep, CandVotos, Votos);
    forall i, j | 0 <= i < j < |vs| ensures CandKey(vs[i]) != CandKey(vs[j]) {
      assert CandKey(vs[i]) == gs[i].key && CandKey(vs[j]) == gs[j].key;
    }
    forall j | 0 <= j < |vs| ensures IsCandidatoOf(raw, vs[j]) {
      assert CandKey(vs[j]) == gs[j].key;
      FoldMunicipios(RowsWithKey(raw, RowKey, gs[j].key));
      assert FirstFields(vs[j]) == RowFields(RowsWithKey(raw, RowKey, gs[j].key)[0]);
    }
    forall k | 0 <= k < |raw| ensures exists j :: 0 <= j < |vs| && CandKey(vs[j]) == RowKey(raw[k]) {
      assert raw[k] in raw;
      var g := IndexOfKey(gs, RowKey(raw[k]));
      assert CandKey(vs[g]) == gs[g].key;
    }
  }

  /**
   * One candidate per name-party-office key, each with the summed votes and
   * the distinct municipalities of its rows, most votes first; every row is
   * counted and none is lost.
   */
  lemma CandidatosSpec(raw: seq<RegiaoRow>)
    ensures var cs := Candidatos(raw);
      && (raw == [] ==> cs == [])
      && SortedDesc(cs, CandVotosKey)
      && DistinctKeys(cs, CandKey)
      && (forall i :: 0 <= i < |cs| ==> IsCandidatoOf(raw, cs[i]))
      && (forall k :: 0 <= k < |raw| ==> exists i :: 0 <= i < |cs| && CandKey(cs[i]) == RowKey(raw[k]))
      && Sum(cs, CandVotos) == Sum(raw, Votos)
  {
    if raw != [] {
      var vs := Values(GroupRows(raw, RowKey, CandInit, CandStep));
      var cs := Candidatos(raw);
      assert cs == SortDesc(vs, CandVotosKey);
      ValuesSpec(raw);
      SortDescSpec(vs, CandVotosKey);
      SumPermutation(vs, cs, CandVotos);
      DistinctKeysPermutation(vs, cs, CandKey);
      forall i | 0 <= i < |cs| ensures IsCandidatoOf(raw, cs[i]) {
        var j := IndexOf(vs, cs[i]);
      }
      forall k | 0 <= k < |raw| ensures exists i :: 0 <= i < |cs| && CandKey(cs[i]) == RowKey(raw[k]) {
        var j :| 0 <= j < |vs| && CandKey(vs[j]) == RowKey(raw[k]);
        assert vs[j] in multiset(cs);
        var i := IndexOf(cs, vs[j]);
      }
    }
  }

  // ---------------------------------------------------------------------------
  // Statistics

  function Partido(c: CandidatoRegiao): string { c.sgPartido }
  function PartyInit(c: CandidatoRegiao): int { c.totalVotos }
  function PartyStep(v: int, c: CandidatoRegiao): int { v + c.totalVotos }
  function PartyVotesKey(g: Group<string, int>): real { g.acc as real }
  function Acc(v: int): int { v }

  /** The party map: votes per party, parties in order of first appearance. */
  function Partidos(cs: seq<CandidatoRegiao>): seq<Group<string, int>> {
    GroupRows(cs, Partido, PartyInit, PartyStep)
  }

  /** The computed `stats`. */
  function StatsOf(cs: seq<CandidatoRegiao>): StatsRegiao {
    if cs == [] then StatsRegiao(0, 0, 0, "-", "-")
    else
      var ps := Partidos(cs);
      var top := SortDesc(ps, PartyVotesKey);
      StatsRegiao(Sum(cs, CandVotos), |cs|, |ps|, if top != [] then top[0].key else "-", cs[0].nmUrnaCandidato)
  }

  /** The statistics loop: a running total and a party map. */
  method ComputeStats(cs: seq<CandidatoRegiao>) returns (s: StatsRegiao)
    ensures s == StatsOf(cs)
  {
    if |cs| == 0 {
      return StatsRegiao(0, 0, 0, "-", "-");
    }
    var partidos: seq<Group<string, int>> := [];
    var totalVotos := 0;
    for i := 0 to |cs|
      invariant totalVotos == Sum(cs[..i], CandVotos)
      invariant partidos == GroupRows(cs[..i], Partido, PartyInit, PartyStep)
    {
      var c := cs[i];
      totalVotos := totalVotos + c.totalVotos;
      var j := IndexOfKey(partidos, c.sgPartido);
      if j == |partidos| {
        partidos := partidos + [Group(c.sgPartido, c.totalVotos)];
      } else {
        partidos := partidos[j := Group(c.sgPartido, partidos[j].acc + c.totalVotos)];
      }
      assert cs[..i + 1][..i] == cs[..i];
    }
    assert cs[..|cs|] == cs;
    var top := SortDesc(partidos, PartyVotesKey);
    s := StatsRegiao(totalVotos, |cs|, |partidos|, if |top| > 0 then top[0].key else "-", cs[0].nmUrnaCandidato);
  }

  /** The votes of party `p` among the candidates. */
  function PartyVotes(cs: seq<CandidatoRegiao>, p: string): int {
    Sum(RowsWithKey(cs, Partido, p), CandVotos)
  }

  /**
   * With no candidates every count is zero and both names are `-`;
   * otherwise the vote total is the candidates' total, the party count is
   * the number of distinct parties, the top party has the most votes of any
   * party, and the top candidate is the first (most voted) one.
   */
  lemma StatsSpec(cs: seq<CandidatoRegiao>)
    ensures var s := StatsOf(cs);
      && (cs == [] ==> s == StatsRegiao(0, 0, 0, "-", "-"))
      && (cs != [] ==>
            && s.totalVotos == Sum(cs, CandVotos)
            && s.totalCandidatos == |cs|
            && s.totalPartidos == |Distinct(RowKeys(cs, Partido))|
            && s.topCandidato == cs[0].nmUrnaCandidato
            && (exists i :: 0 <= i < |cs| && cs[i].sgPartido == s.topPartido)
            && forall i :: 0 <= i < |cs| ==> PartyVotes(cs, s.topPartido) >= PartyVotes(cs, cs[i].sgPartido))
  {
    if cs != [] {
      GroupKeys(cs, Partido, PartyInit, PartyStep);
      TopPartidoExists(cs);
      TopPartidoIsMax(cs);
    }
  }

  /** The top party of a non-empty list is the party of one of its candidates. */
  lemma TopPartidoExists(cs: seq<CandidatoRegiao>)
    requires cs != []
    ensures var top := SortDesc(Partidos(cs), PartyVotesKey);
      top != [] && exists i :: 0 <= i < |cs| && cs[i].sgPartido == top[0].key
  {
    var ps := Partidos(cs);
    var top := SortDesc(ps, PartyVotesKey);
    GroupRowsKeys(cs, Partido, PartyInit, PartyStep);
    SortDescSpec(ps, PartyVotesKey);
    assert cs[0] in cs;
    assert top[0] in multiset(ps);
    var t := IndexOf(ps, top[0]);
    RowsWithKeyMember(cs, Partido, ps[t].key);
    var rs := RowsWithKey(cs, Partido, ps[t].key);
    assert rs[0] in rs;
  }

  /** No party has more votes than the top party. */
  lemma TopPartidoIsMax(cs: seq<CandidatoRegiao>)
    requires cs != []
    ensures var top := SortDesc(Partidos(cs), PartyVotesKey);
      top != [] && forall i :: 0 <= i < |cs| ==> PartyVotes(cs, top[0].key) >= PartyVotes(cs, cs[i].sgPartido)
  {
    var ps := Partidos(cs);
    var top := SortDesc(ps, PartyVotesKey);
    GroupRowsKeys(cs, Partido, PartyInit, PartyStep);
    GroupSums(cs, Partido, PartyInit, PartyStep, Acc, CandVotos);
    SortDescSpec(ps, PartyVotesKey);
    assert cs[0] in cs;
    assert top[0] in multiset(ps);
    var t := IndexOf(ps, top[0]);
    forall i | 0 <= i < |cs| ensures PartyVotes(cs, top[0].key) >= PartyVotes(cs, cs[i].sgPartido) {
      assert cs[i] in cs;
      var j := IndexOfKey(ps, Partido(cs[i]));
      assert ps[j] in multiset(top);
      var k := IndexOf(top, ps[j]);
      assert PartyVotesKey(top[0]) >= PartyVotesKey(top[k]);
    }
  }

}

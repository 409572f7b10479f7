/**
 * The client-side helpers over the vote table: per-year statistics, the
 * paginated search, the party ranking and the per-state totals. Each
 * aggregation runs over the rows the table query returned (`data`, or none
 * when it is null); a query error is thrown to the caller.
 */
module Postgrest {
  import opened Wrappers
  import opened Text
  import opened Seqs
  import opened Grouping
  import CandidatoSearch
  import EleicoesCandidatos

  /** A row of the vote table, with the columns the helpers select. */
  datatype VotoRow = VotoRow(
    anoEleicao: int, sqCandidato: int, nmMunicipio: string, sgUf: string,
    sgPartido: string, nmPartido: string, qtVotosNominais: Option<int>)

  /** A query's outcome: the rows, or the error that is thrown. */
  datatype Fetch<T> = Data(value: T) | Error(message: string)

  /** `Number(row.qt_votos_nominais) || 0`. */
  function Votos(r: VotoRow): int {
    if r.qtVotosNominais.Some? then r.qtVotosNominais.value else 0
  }

  // ---------------------------------------------------------------------------
  // getStats

  /** A year's entry while the rows are read: three sets and a vote total. */
  datatype YearAcc = YearAcc(
    anoEleicao: int, candidatos: set<int>, municipios: set<string>, partidos: set<string>, totalVotos: int)

  datatype YearStats = YearStats(
    anoEleicao: int, totalCandidatos: nat, totalMunicipios: nat, totalPartidos: nat, totalVotos: int)

  function Ano(r: VotoRow): int { r.anoEleicao }
  function Sq(r: VotoRow): int { r.sqCandidato }
  function Municipio(r: VotoRow): string { r.nmMunicipio }
  function Partido(r: VotoRow): string { r.sgPartido }

  /** One row added to a year's entry. */
  function YearStep(s: YearAcc, r: VotoRow): YearAcc {
    s.(candidatos := s.candidatos + {r.sqCandidato}, municipios := s.municipios + {r.nmMunicipio},
       partidos := s.partidos + {r.sgPartido}, totalVotos := s.totalVotos + Votos(r))
  }

  /** A fresh entry for the row's year, then the row added to it. */
  function YearInit(r: VotoRow): YearAcc {
    YearStep(YearAcc(r.anoEleicao, {}, {}, {}, 0), r)
  }

  function YearOf(s: YearAcc): YearStats {
    YearStats(s.anoEleicao, |s.candidatos|, |s.municipios|, |s.partidos|, s.totalVotos)
  }

  function YearKey(s: YearStats): real { s.anoEleicao as real }

  function YearStatsOf(accs: seq<YearAcc>): (r: seq<YearStats>)
    ensures |r| == |accs| && forall i :: 0 <= i < |accs| ==> r[i] == YearOf(accs[i])
  {
    seq(|accs|, i requires 0 <= i < |accs| => YearOf(accs[i]))
  }

  /** The result of `getStats`. */
  function Stats(rows: seq<VotoRow>): seq<YearStats> {
    SortDesc(YearStatsOf(Values(GroupRows(rows, Ano, YearInit, YearStep))), YearKey)
  }

  method GetStats(data: Fetch<seq<VotoRow>>) returns (r: Fetch<seq<YearStats>>)
    ensures data.Error? ==> r == Error(data.message)
    ensures data.Data? ==> r == Data(Stats(data.value))
  {
    if data.Error? {
      return Error(data.message);
    }
    var statsMap := Aggregate(data.value, Ano, YearInit, YearStep);
    r := Data(SortDesc(YearStatsOf(Values(statsMap)), YearKey));
  }

  function AccCandidatos(s: YearAcc): set<int> { s.candidatos }
  function AccMunicipios(s: YearAcc): set<string> { s.municipios }
  function AccPartidos(s: YearAcc): set<string> { s.partidos }
  function AccVotos(s: YearAcc): int { s.totalVotos }
  function AccAno(s: YearAcc): int { s.anoEleicao }

  /** `s` is the statistics of the rows of its year. */
  predicate IsYearOf(rows: seq<VotoRow>, s: YearStats) {
    var rs := RowsWithKey(rows, Ano, s.anoEleicao);
    && rs != []
    && s.totalCandidatos == |Image(rs, Sq)|
    && s.totalMunicipios == |Image(rs, Municipio)|
    && s.totalPartidos == |Image(rs, Partido)|
    && s.totalVotos == Sum(rs, Votos)
  }

  function YearsOf(rows: seq<VotoRow>): seq<YearStats> {
    YearStatsOf(Values(GroupRows(rows, Ano, YearInit, YearStep)))
  }

  /** Each year's entry holds the sets and the vote total of its year's rows. */
  lemma YearAccs(rows: seq<VotoRow>)
    ensures var gs := GroupRows(rows, Ano, YearInit, YearStep);
      forall i :: 0 <= i < |gs| ==>
        var rs := RowsWithKey(rows, Ano, gs[i].key);
        gs[i].acc == YearAcc(gs[i].key, Image(rs, Sq), Image(rs, Municipio), Image(rs, Partido), Sum(rs, Votos))
  {
    GroupAccKey(rows, Ano, YearInit, YearStep, AccAno);
    GroupSums(rows, Ano, YearInit, YearStep, AccVotos, Votos);
    GroupSets(rows, Ano, YearInit, YearStep, AccCandidatos, Sq);
    GroupSets(rows, Ano, YearInit, YearStep, AccMunicipios, Municipio);
    GroupSets(rows, Ano, YearInit, YearStep, AccPartidos, Partido);
  }

  /** The `i`-th entry before the sort is the statistics of the `i`-th year met. */
  lemma YearOfGroup(rows: seq<VotoRow>, i: nat)
    requires i < |GroupRows(rows, Ano, YearInit, YearStep)|
    ensures var gs := GroupRows(rows, Ano, YearInit, YearStep);
      YearsOf(rows)[i].anoEleicao == gs[i].key && IsYearOf(rows, YearsOf(rows)[i])
  {
    var gs := GroupRows(rows, Ano, YearInit, YearStep);
    GroupRowsKeys(rows, Ano, YearInit, YearStep);
    YearAccs(rows);
    var rs := RowsWithKey(rows, Ano, gs[i].key);
    assert gs[i].acc == YearAcc(gs[i].key, Image(rs, Sq), Image(rs, Municipio), Image(rs, Partido), Sum(rs, Votos));
    assert YearsOf(rows)[i] == YearOf(gs[i].acc);
  }

  function StatsAno(s: YearStats): int { s.anoEleicao }

  /** The entries before the sort carry the years of the groups, so no year appears twice. */
  lemma YearsDistinct(rows: seq<VotoRow>)
    ensures var gs := GroupRows(rows, Ano, YearInit, YearStep);
      && |YearsOf(rows)| == |gs|
      && (forall i :: 0 <= i < |gs| ==> YearsOf(rows)[i].anoEleicao == gs[i].key)
      && DistinctKeys(YearsOf(rows), StatsAno)
  {
    var gs := GroupRows(rows, Ano, YearInit, YearStep);
    var ys := YearsOf(rows);
    GroupRowsKeys(rows, Ano, YearInit, YearStep);
    GroupAccKey(rows, Ano, YearInit, YearStep, AccAno);
    forall i | 0 <= i < |gs| ensures ys[i].anoEleicao == gs[i].key {
      assert ys[i] == YearOf(gs[i].acc);
    }
  }

  /** Before the sort: one entry per year, in order of first appearance, each the statistics of its year. */
  lemma YearsOfSpec(rows: seq<VotoRow>)
    ensures var ys := YearsOf(rows);
      && DistinctKeys(ys, StatsAno)
      && (forall i :: 0 <= i < |ys| ==> IsYearOf(rows, ys[i]))
      && (forall k :: 0 <= k < |rows| ==> exists i :: 0 <= i < |ys| && ys[i].anoEleicao == rows[k].anoEleicao)
  {
    var gs := GroupRows(rows, Ano, YearInit, YearStep);
    var ys := YearsOf(rows);
    GroupRowsKeys(rows, Ano, YearInit, YearStep);
    YearsDistinct(rows);
    forall i | 0 <= i < |ys| ensures IsYearOf(rows, ys[i]) {
      YearOfGroup(rows, i);
    }
    forall k | 0 <= k < |rows| ensures exists i :: 0 <= i < |ys| && ys[i].anoEleicao == rows[k].anoEleicao {
      assert rows[k] in rows;
      var g := IndexOfKey(gs, Ano(rows[k]));
      assert ys[g].anoEleicao == gs[g].key;
    }
  }

  lemma YearOfMember(rows: seq<VotoRow>, y: YearStats)
    requires y in YearsOf(rows)
    ensures IsYearOf(rows, y)
  {
    YearsOfSpec(rows);
    var j :| 0 <= j < |YearsOf(rows)| && YearsOf(rows)[j] == y;
  }

  lemma StatsYears(rows: seq<VotoRow>)
    ensures forall i :: 0 <= i < |Stats(rows)| ==> IsYearOf(rows, Stats(rows)[i])
  {
    var st := Stats(rows);
    SortDescMembers(YearsOf(rows), YearKey);
    forall i | 0 <= i < |st| ensures IsYearOf(rows, st[i]) {
      YearOfMember(rows, st[i]);
    }
  }

  /** Sorted by year with no year twice: the years strictly decrease. */
  lemma StrictlyDescending(st: seq<YearStats>)
    requires SortedDesc(st, YearKey) && DistinctKeys(st, StatsAno)
    ensures forall i, j :: 0 <= i < j < |st| ==> st[i].anoEleicao > st[j].anoEleicao
  {
    forall i, j | 0 <= i < j < |st| ensures st[i].anoEleicao > st[j].anoEleicao {
      assert YearKey(st[i]) >= YearKey(st[j]);
      assert StatsAno(st[i]) != StatsAno(st[j]);
    }
  }

  lemma StatsOrder(rows: seq<VotoRow>)
    ensures var st := Stats(rows);
      forall i, j :: 0 <= i < j < |st| ==> st[i].anoEleicao > st[j].anoEleicao
  {
    var ys := YearsOf(rows);
    var st := Stats(rows);
    assert st == SortDesc(ys, YearKey);
    YearsDistinct(rows);
    SortDescSpec(ys, YearKey);
    DistinctKeysPermutation(ys, st, StatsAno);
    StrictlyDescending(st);
  }

  lemma StatsCover(rows: seq<VotoRow>)
    ensures var st := Stats(rows);
      forall k :: 0 <= k < |rows| ==> exists i :: 0 <= i < |st| && st[i].anoEleicao == rows[k].anoEleicao
  {
    var ys := YearsOf(rows);
    var st := Stats(rows);
    YearsOfSpec(rows);
    SortDescMembers(ys, YearKey);
    forall k | 0 <= k < |rows| ensures exists i :: 0 <= i < |st| && st[i].anoEleicao == rows[k].anoEleicao {
      var g :| 0 <= g < |ys| && ys[g].anoEleicao == rows[k].anoEleicao;
      var i :| 0 <= i < |st| && st[i] == ys[g];
    }
  }

  /**
   * One entry per year present in the rows, newest first; each counts the
   * distinct candidates, municipalities and parties of its year's rows and
   * sums their votes.
   */
  lemma StatsSpec(rows: seq<VotoRow>)
    ensures var st := Stats(rows);
      && (forall i, j :: 0 <= i < j < |st| ==> st[i].anoEleicao > st[j].anoEleicao)
      && (forall i :: 0 <= i < |st| ==> IsYearOf(rows, st[i]))
      && (forall k :: 0 <= k < |rows| ==> exists i :: 0 <= i < |st| && st[i].anoEleicao == rows[k].anoEleicao)
  {
    StatsOrder(rows);
    StatsYears(rows);
    StatsCover(rows);
  }

  // ---------------------------------------------------------------------------
  // searchCandidatos

  datatype SearchFilters = SearchFilters(
    candidato: Option<string>, partido: Option<string>, uf: Option<string>, municipio: Option<string>,
    ano: Option<int>, cargo: Option<string>, turno: Option<int>, page: Option<int>, limit: Option<int>)

  function Like(v: Option<string>, column: CandidatoSearch.Column): seq<CandidatoSearch.Condition> {
    if Truthy(v) then [CandidatoSearch.Ilike(column, "%" + v.value + "%")] else []
  }

  function EqUpper(v: Option<string>, column: CandidatoSearch.Column): seq<CandidatoSearch.Condition> {
    if Truthy(v) then [CandidatoSearch.EqText(column, Upper(v.value))] else []
  }

  function EqNumber(v: Option<int>, column: CandidatoSearch.Column): seq<CandidatoSearch.Condition> {
    if TruthyInt(v) then [CandidatoSearch.EqInt(column, v.value)] else []
  }

  /** The filters of the search, in the order they are added. */
  function SearchConditions(f: SearchFilters): seq<CandidatoSearch.Condition> {
    Like(f.candidato, CandidatoSearch.NmCandidato) + EqUpper(f.partido, CandidatoSearch.SgPartido) + EqUpper(f.uf, CandidatoSearch.SgUf)
      + Like(f.municipio, CandidatoSearch.NmMunicipio) + EqNumber(f.ano, CandidatoSearch.AnoEleicao) + Like(f.cargo, CandidatoSearch.DsCargo)
      + EqNumber(f.turno, CandidatoSearch.NrTurno)
  }

  /** `page` and `limit` default to 1 and 50. */
  function PageOf(f: SearchFilters): int { if f.page.Some? then f.page.value else 1 }
  function LimitOf(f: SearchFilters): int { if f.limit.Some? then f.limit.value else 50 }

  /** The search request: its filters, ordered by votes, and the row range `[from, to]`. */
  datatype SearchRequest = SearchRequest(conditions: seq<CandidatoSearch.Condition>, from: int, to: int)

  function RequestOf(f: SearchFilters): SearchRequest {
    var offset := (PageOf(f) - 1) * LimitOf(f);
    SearchRequest(SearchConditions(f), offset, offset + LimitOf(f) - 1)
  }

  /** The rows of the page and the exact row count (`null` as `None`). */
  datatype SearchData<R> = SearchData(rows: seq<R>, count: Option<int>)

  datatype SearchPagination = SearchPagination(total: int, pages: Option<int>, page: int, limit: int)

  datatype SearchResult<R> = SearchResult(data: seq<R>, pagination: SearchPagination)

  /** `count || 0`. */
  function CountOr0(c: Option<int>): int { if c.Some? then c.value else 0 }

  function Search<R>(f: SearchFilters, run: SearchRequest -> Fetch<SearchData<R>>): Fetch<SearchResult<R>> {
    var res := run(RequestOf(f));
    if res.Error? then Error(res.message)
    else
      var total := CountOr0(res.value.count);
      Data(SearchResult(res.value.rows,
        SearchPagination(total, EleicoesCandidatos.Pages(Some(total), Some(LimitOf(f))), PageOf(f), LimitOf(f))))
  }

  /**
   * The range holds exactly `limit` rows starting at `(page - 1) * limit`;
   * with a positive limit the page count is the least that covers the count.
   */
  lemma SearchPagesSpec<R>(f: SearchFilters, run: SearchRequest -> Fetch<SearchData<R>>)
    ensures RequestOf(f).to - RequestOf(f).from + 1 == LimitOf(f)
    ensures RequestOf(f).from == (PageOf(f) - 1) * LimitOf(f)
    ensures f.page.None? && f.limit.None? ==> RequestOf(f).from == 0 && RequestOf(f).to == 49
    ensures var r := Search(f, run);
      r.Data? && LimitOf(f) > 0 && r.value.pagination.total >= 0 ==>
        var p := r.value.pagination.pages;
        p.Some? && p.value * LimitOf(f) >= r.value.pagination.total > (p.value - 1) * LimitOf(f)
  {
    var r := Search(f, run);
    if r.Data? && LimitOf(f) > 0 && r.value.pagination.total >= 0 {
      EleicoesCandidatos.PagesSpec(r.value.pagination.total, LimitOf(f));
    }
  }

  lemma ItemCounts(v: Option<string>, n: Option<int>, col: CandidatoSearch.Column, column: CandidatoSearch.Column)
    ensures CandidatoSearch.ColumnCount(Like(v, col), column) == if Truthy(v) && col == column then 1 else 0
    ensures CandidatoSearch.ColumnCount(EqUpper(v, col), column) == if Truthy(v) && col == column then 1 else 0
    ensures CandidatoSearch.ColumnCount(EqNumber(n, col), column) == if TruthyInt(n) && col == column then 1 else 0
  {
  }

  /** How many conditions of the search are on `column`: one per truthy filter on that column. */
  lemma SearchColumnCount(f: SearchFilters, column: CandidatoSearch.Column)
    ensures CandidatoSearch.ColumnCount(SearchConditions(f), column) ==
      (if Truthy(f.candidato) && column == CandidatoSearch.NmCandidato then 1 else 0)
      + (if Truthy(f.partido) && column == CandidatoSearch.SgPartido then 1 else 0)
      + (if Truthy(f.uf) && column == CandidatoSearch.SgUf then 1 else 0)
      + (if Truthy(f.municipio) && column == CandidatoSearch.NmMunicipio then 1 else 0)
      + (if TruthyInt(f.ano) && column == CandidatoSearch.AnoEleicao then 1 else 0)
      + (if Truthy(f.cargo) && column == CandidatoSearch.DsCargo then 1 else 0)
      + (if TruthyInt(f.turno) && column == CandidatoSearch.NrTurno then 1 else 0)
  {
    var c1, c2, c3, c4, c5 := Like(f.candidato, CandidatoSearch.NmCandidato), EqUpper(f.partido, CandidatoSearch.SgPartido),
      EqUpper(f.uf, CandidatoSearch.SgUf), Like(f.municipio, CandidatoSearch.NmMunicipio), EqNumber(f.ano, CandidatoSearch.AnoEleicao);
    var c6, c7 := Like(f.cargo, CandidatoSearch.DsCargo), EqNumber(f.turno, CandidatoSearch.NrTurno);
    CandidatoSearch.ColumnCountOfFive(c1, c2, c3, c4, c5, column);
    CandidatoSearch.ColumnCountConcat(c1 + c2 + c3 + c4 + c5, c6, column);
    CandidatoSearch.ColumnCountConcat(c1 + c2 + c3 + c4 + c5 + c6, c7, column);
    ItemCounts(f.candidato, f.ano, CandidatoSearch.NmCandidato, column);
    ItemCounts(f.partido, f.ano, CandidatoSearch.SgPartido, column);
    ItemCounts(f.uf, f.ano, CandidatoSearch.SgUf, column);
    ItemCounts(f.municipio, f.ano, CandidatoSearch.NmMunicipio, column);
    ItemCounts(f.cargo, f.ano, CandidatoSearch.AnoEleicao, column);
    ItemCounts(f.cargo, f.ano, CandidatoSearch.DsCargo, column);
    ItemCounts(f.cargo, f.turno, CandidatoSearch.NrTurno, column);
  }

  /** Each truthy filter adds exactly one condition on its own column, and no other filter adds one. */
  lemma SearchConditionsSpec(f: SearchFilters)
    ensures var cs := SearchConditions(f);
      && CandidatoSearch.ColumnCount(cs, CandidatoSearch.NmCandidato) == (if Truthy(f.candidato) then 1 else 0)
      && CandidatoSearch.ColumnCount(cs, CandidatoSearch.SgPartido) == (if Truthy(f.partido) then 1 else 0)
      && CandidatoSearch.ColumnCount(cs, CandidatoSearch.SgUf) == (if Truthy(f.uf) then 1 else 0)
      && CandidatoSearch.ColumnCount(cs, CandidatoSearch.NmMunicipio) == (if Truthy(f.municipio) then 1 else 0)
      && CandidatoSearch.ColumnCount(cs, CandidatoSearch.AnoEleicao) == (if TruthyInt(f.ano) then 1 else 0)
      && CandidatoSearch.ColumnCount(cs, CandidatoSearch.DsCargo) == (if Truthy(f.cargo) then 1 else 0)
      && CandidatoSearch.ColumnCount(cs, CandidatoSearch.NrTurno) == (if TruthyInt(f.turno) then 1 else 0)
  {
    SearchColumnCount(f, CandidatoSearch.NmCandidato);
    assert CandidatoSearch.ColumnCount(SearchConditions(f), CandidatoSearch.NmCandidato) == (if Truthy(f.candidato) then 1 else 0);
    SearchColumnCount(f, CandidatoSearch.SgPartido);
    assert CandidatoSearch.ColumnCount(SearchConditions(f), CandidatoSearch.SgPartido) == (if Truthy(f.partido) then 1 else 0);
    SearchColumnCount(f, CandidatoSearch.SgUf);
    assert CandidatoSearch.ColumnCount(SearchConditions(f), CandidatoSearch.SgUf) == (if Truthy(f.uf) then 1 else 0);
    SearchColumnCount(f, CandidatoSearch.NmMunicipio);
    assert CandidatoSearch.ColumnCount(SearchConditions(f), CandidatoSearch.NmMunicipio) == (if Truthy(f.municipio) then 1 else 0);
    SearchColumnCount(f, CandidatoSearch.AnoEleicao);
    assert CandidatoSearch.ColumnCount(SearchConditions(f), CandidatoSearch.AnoEleicao) == (if TruthyInt(f.ano) then 1 else 0);
    SearchColumnCount(f, CandidatoSearch.DsCargo);
    assert CandidatoSearch.ColumnCount(SearchConditions(f), CandidatoSearch.DsCargo) == (if Truthy(f.cargo) then 1 else 0);
    SearchColumnCount(f, CandidatoSearch.NrTurno);
    assert CandidatoSearch.ColumnCount(SearchConditions(f), CandidatoSearch.NrTurno) == (if TruthyInt(f.turno) then 1 else 0);
  }

  // ---------------------------------------------------------------------------
  // getTopPartidos

  /** A party's entry; its candidate set is created empty and never added to. */
  datatype PartidoAcc = PartidoAcc(sgPartido: string, nmPartido: string, totalVotos: int, candidatos: set<int>)

  datatype PartidoStats = PartidoStats(sgPartido: string, nmPartido: string, totalVotos: int, totalCandidatos: nat)

  /** Every row, the first one included, adds its votes to its party's entry. */
  function PartidoStep(p: PartidoAcc, r: VotoRow): PartidoAcc {
    p.(totalVotos := p.totalVotos + Votos(r))
  }

  function PartidoInit(r: VotoRow): PartidoAcc {
    PartidoStep(PartidoAcc(r.sgPartido, r.nmPartido, 0, {}), r)
  }

  function PartidoOf(p: PartidoAcc): PartidoStats {
    PartidoStats(p.sgPartido, p.nmPartido, p.totalVotos, |p.candidatos|)
  }

  function PartidoStatsOf(ps: seq<PartidoAcc>): (r: seq<PartidoStats>)
    ensures |r| == |ps| && forall i :: 0 <= i < |ps| ==> r[i] == PartidoOf(ps[i])
  {
    seq(|ps|, i requires 0 <= i < |ps| => PartidoOf(ps[i]))
  }

  function PartidoVotosKey(p: PartidoStats): real { p.totalVotos as real }

  /** The result of `getTopPartidos(limit)`. */
  function TopPartidos(rows: seq<VotoRow>, limit: nat): seq<PartidoStats> {
    Take(SortDesc(PartidoStatsOf(Values(GroupRows(rows, Partido, PartidoInit, PartidoStep))), PartidoVotosKey), limit)
  }

  /** `getTopPartidos(limit)`, `limit` defaulting to 10. */
  method GetTopPartidos(data: Fetch<seq<VotoRow>>, limit: Option<nat>) returns (r: Fetch<seq<PartidoStats>>)
    ensures data.Error? ==> r == Error(data.message)
    ensures data.Data? ==> r == Data(TopPartidos(data.value, limit.GetOr(10)))
  {
    if data.Error? {
      return Error(data.message);
    }
    var l := limit.GetOr(10);
    var partidoMap := Aggregate(data.value, Partido, PartidoInit, PartidoStep);
    r := Data(Take(SortDesc(PartidoStatsOf(Values(partidoMap)), PartidoVotosKey), l));
  }

  function AccPartidoVotos(p: PartidoAcc): int { p.totalVotos }
  function AccPartidoKey(p: PartidoAcc): string { p.sgPartido }
  function AccPartidoFirst(p: PartidoAcc): (string, set<int>) { (p.nmPartido, p.candidatos) }
  function RowPartidoFirst(r: VotoRow): (string, set<int>) { (r.nmPartido, {}) }

  function StatsPartido(p: PartidoStats): string { p.sgPartido }

  /** `p` is the entry of its party: the votes of the party's rows, the name of its first row, no candidates. */
  predicate IsPartidoOf(rows: seq<VotoRow>, p: PartidoStats) {
    var rs := RowsWithKey(rows, Partido, p.sgPartido);
    && rs != [] && p.totalVotos == Sum(rs, Votos) && p.nmPartido == rs[0].nmPartido
    && p.totalCandidatos == 0
  }

  /** The entries before the sort: one per party, each the entry of its party. */
  lemma PartidosUnsorted(rows: seq<VotoRow>)
    ensures var ps := PartidoStatsOf(Values(GroupRows(rows, Partido, PartidoInit, PartidoStep)));
      DistinctKeys(ps, StatsPartido) && forall j :: 0 <= j < |ps| ==> IsPartidoOf(rows, ps[j])
  {
    var gs := GroupRows(rows, Partido, PartidoInit, PartidoStep);
    var ps := PartidoStatsOf(Values(gs));
    GroupRowsKeys(rows, Partido, PartidoInit, PartidoStep);
    GroupAccKey(rows, Partido, PartidoInit, PartidoStep, AccPartidoKey);
    GroupSums(rows, Partido, PartidoInit, PartidoStep, AccPartidoVotos, Votos);
    GroupKeepsFirst(rows, Partido, PartidoInit, PartidoStep, AccPartidoFirst, RowPartidoFirst);
    forall i, j | 0 <= i < j < |ps| ensures ps[i].sgPartido != ps[j].sgPartido {
      assert ps[i].sgPartido == gs[i].key && ps[j].sgPartido == gs[j].key;
    }
    forall j | 0 <= j < |ps| ensures IsPartidoOf(rows, ps[j]) {
      assert ps[j].sgPartido == gs[j].key;
      assert AccPartidoFirst(gs[j].acc) == RowPartidoFirst(RowsWithKey(rows, Partido, gs[j].key)[0]);
    }
  }

  /** `sigla` has an entry in `ps`. */
  predicate HasPartido(ps: seq<PartidoStats>, sigla: string) {
    exists i :: 0 <= i < |ps| && ps[i].sgPartido == sigla
  }

  /** One entry per distinct party of the rows, before the sort and the cut. */
  lemma PartidosCount(rows: seq<VotoRow>)
    ensures |PartidoStatsOf(Values(GroupRows(rows, Partido, PartidoInit, PartidoStep)))| == |Distinct(RowKeys(rows, Partido))|
  {
    var gs := GroupRows(rows, Partido, PartidoInit, PartidoStep);
    GroupKeys(rows, Partido, PartidoInit, PartidoStep);
    assert |Keys(gs)| == |gs|;
  }

  /** The entry, before the sort, of a row's party. */
  lemma PartidoEntryOfRow(rows: seq<VotoRow>, k: nat) returns (p: PartidoStats)
    requires k < |rows|
    ensures p in PartidoStatsOf(Values(GroupRows(rows, Partido, PartidoInit, PartidoStep)))
    ensures p.sgPartido == rows[k].sgPartido && IsPartidoOf(rows, p)
  {
    var gs := GroupRows(rows, Partido, PartidoInit, PartidoStep);
    var ps := PartidoStatsOf(Values(gs));
    GroupRowsKeys(rows, Partido, PartidoInit, PartidoStep);
    PartidosUnsorted(rows);
    assert rows[k] in rows;
    var g := IndexOfKey(gs, Partido(rows[k]));
    GroupAccKey(rows, Partido, PartidoInit, PartidoStep, AccPartidoKey);
    p := ps[g];
    assert p.sgPartido == gs[g].key;
  }

  /** A party left out by the cut has no more votes than any party kept. */
  lemma TopPartidosCut(rows: seq<VotoRow>, limit: nat, k: nat)
    requires k < |rows| && !HasPartido(TopPartidos(rows, limit), rows[k].sgPartido)
    ensures var tp := TopPartidos(rows, limit);
      forall i :: 0 <= i < |tp| ==> Sum(RowsWithKey(rows, Partido, rows[k].sgPartido), Votos) <= tp[i].totalVotos
  {
    var ps := PartidoStatsOf(Values(GroupRows(rows, Partido, PartidoInit, PartidoStep)));
    var tp := TopPartidos(rows, limit);
    var p := PartidoEntryOfRow(rows, k);
    assert p !in tp;
    SortDescCut(ps, PartidoVotosKey, limit, p);
    forall i | 0 <= i < |tp| ensures p.totalVotos <= tp[i].totalVotos {
      assert PartidoVotosKey(tp[i]) >= PartidoVotosKey(p);
    }
  }

  /** `limit` entries, fewer only when there are fewer parties; one each, most votes first. */
  lemma TopPartidosShape(rows: seq<VotoRow>, limit: nat)
    ensures var tp := TopPartidos(rows, limit);
      var n := |Distinct(RowKeys(rows, Partido))|;
      && |tp| == (if limit < n then limit else n)
      && SortedDesc(tp, PartidoVotosKey)
      && DistinctKeys(tp, StatsPartido)
  {
    var ps := PartidoStatsOf(Values(GroupRows(rows, Partido, PartidoInit, PartidoStep)));
    var sorted := SortDesc(ps, PartidoVotosKey);
    PartidosCount(rows);
    PartidosUnsorted(rows);
    SortDescSpec(ps, PartidoVotosKey);
    DistinctKeysPermutation(ps, sorted, StatsPartido);
  }

  /** Each kept entry is the entry of its party. */
  lemma TopPartidosOfParty(rows: seq<VotoRow>, limit: nat)
    ensures var tp := TopPartidos(rows, limit);
      forall i :: 0 <= i < |tp| ==> IsPartidoOf(rows, tp[i])
  {
    var ps := PartidoStatsOf(Values(GroupRows(rows, Partido, PartidoInit, PartidoStep)));
    var sorted := SortDesc(ps, PartidoVotosKey);
    var tp := TopPartidos(rows, limit);
    PartidosUnsorted(rows);
    SortDescMembers(ps, PartidoVotosKey);
    forall i | 0 <= i < |tp| ensures IsPartidoOf(rows, tp[i]) {
      assert tp[i] == sorted[i];
      var j := IndexOf(ps, sorted[i]);
    }
  }

  /**
   * `getTopPartidos(limit)`'s result: `limit` parties, fewer only when the
   * rows hold fewer; one entry each, most votes first; each sums its rows'
   * votes, names the party as its first row does, and counts no candidates;
   * and every party cut off has no more votes than any party kept.
   */
  lemma TopPartidosSpec(rows: seq<VotoRow>, limit: nat)
    ensures var tp := TopPartidos(rows, limit);
      var n := |Distinct(RowKeys(rows, Partido))|;
      && |tp| == (if limit < n then limit else n)
      && SortedDesc(tp, PartidoVotosKey)
      && DistinctKeys(tp, StatsPartido)
      && (forall i :: 0 <= i < |tp| ==> IsPartidoOf(rows, tp[i]))
      && (forall k :: 0 <= k < |rows| && !HasPartido(tp, rows[k].sgPartido) ==>
            forall i :: 0 <= i < |tp| ==> Sum(RowsWithKey(rows, Partido, rows[k].sgPartido), Votos) <= tp[i].totalVotos)
  {
    TopPartidosShape(rows, limit);
    TopPartidosOfParty(rows, limit);
    forall k | 0 <= k < |rows| && !HasPartido(TopPartidos(rows, limit), rows[k].sgPartido)
      ensures forall i :: 0 <= i < |TopPartidos(rows, limit)| ==>
        Sum(RowsWithKey(rows, Partido, rows[k].sgPartido), Votos) <= TopPartidos(rows, limit)[i].totalVotos
    {
      TopPartidosCut(rows, limit, k);
    }
  }

  // ---------------------------------------------------------------------------
  // getByUF

  datatype UfAcc = UfAcc(sgUf: string, candidatos: set<int>, totalVotos: int)

  datatype UfStats = UfStats(sgUf: string, totalCandidatos: nat, totalVotos: int)

  function Uf(r: VotoRow): string { r.sgUf }

  function UfStep(u: UfAcc, r: VotoRow): UfAcc {
    u.(candidatos := u.candidatos + {r.sqCandidato}, totalVotos := u.totalVotos + Votos(r))
  }

  function UfInit(r: VotoRow): UfAcc {
    UfStep(UfAcc(r.sgUf, {}, 0), r)
  }

  function UfOf(u: UfAcc): UfStats { UfStats(u.sgUf, |u.candidatos|, u.totalVotos) }

  function UfStatsOf(us: seq<UfAcc>): (r: seq<UfStats>)
    ensures |r| == |us| && forall i :: 0 <= i < |us| ==> r[i] == UfOf(us[i])
  {
    seq(|us|, i requires 0 <= i < |us| => UfOf(us[i]))
  }

  function UfVotosKey(u: UfStats): real { u.totalVotos as real }

  /** The result of `getByUF`. */
  function ByUF(rows: seq<VotoRow>): seq<UfStats> {
    SortDesc(UfStatsOf(Values(GroupRows(rows, Uf, UfInit, UfStep))), UfVotosKey)
  }

  method GetByUF(data: Fetch<seq<VotoRow>>) returns (r: Fetch<seq<UfStats>>)
    ensures data.Error? ==> r == Error(data.message)
    ensures data.Data? ==> r == Data(ByUF(data.value))
  {
    if data.Error? {
      return Error(data.message);
    }
    var ufMap := Aggregate(data.value, Uf, UfInit, UfStep);
    r := Data(SortDesc(UfStatsOf(Values(ufMap)), UfVotosKey));
  }

  function AccUfCandidatos(u: UfAcc): set<int> { u.candidatos }
  function AccUfVotos(u: UfAcc): int { u.totalVotos }
  function AccUfKey(u: UfAcc): string { u.sgUf }

  function UfsOf(rows: seq<VotoRow>): seq<UfStats> {
    UfStatsOf(Values(GroupRows(rows, Uf, UfInit, UfStep)))
  }

  /** `u` is the entry of the rows of its state. */
  predicate IsUfOf(rows: seq<VotoRow>, u: UfStats) {
    var rs := RowsWithKey(rows, Uf, u.sgUf);
    rs != [] && u.totalCandidatos == |Image(rs, Sq)| && u.totalVotos == Sum(rs, Votos)
  }

  lemma UfsOfSpec(rows: seq<VotoRow>)
    ensures var us := UfsOf(rows);
      && DistinctKeys(us, (u: UfStats) => u.sgUf)
      && (forall i :: 0 <= i < |us| ==> IsUfOf(rows, us[i]))
      && (forall k :: 0 <= k < |rows| ==> exists i :: 0 <= i < |us| && us[i].sgUf == rows[k].sgUf)
  {
    var gs := GroupRows(rows, Uf, UfInit, UfStep);
    var us := UfsOf(rows);
    GroupRowsKeys(rows, Uf, UfInit, UfStep);
    GroupAccKey(rows, Uf, UfInit, UfStep, AccUfKey);
    GroupSums(rows, Uf, UfInit, UfStep, AccUfVotos, Votos);
    GroupSets(rows, Uf, UfInit, UfStep, AccUfCandidatos, Sq);
    forall i | 0 <= i < |us| ensures us[i].sgUf == gs[i].key && IsUfOf(rows, us[i]) {
    }
    forall k | 0 <= k < |rows| ensures exists i :: 0 <= i < |us| && us[i].sgUf == rows[k].sgUf {
      assert rows[k] in rows;
      var g := IndexOfKey(gs, Uf(rows[k]));
      assert us[g].sgUf == gs[g].key;
    }
  }

  /**
   * One entry per state present in the rows, most votes first, each with
   * the number of distinct candidates and the vote sum of its rows.
   */
  lemma ByUFSpec(rows: seq<VotoRow>)
    ensures var bu := ByUF(rows);
      && SortedDesc(bu, UfVotosKey)
      && DistinctKeys(bu, (u: UfStats) => u.sgUf)
      && (forall i :: 0 <= i < |bu| ==> IsUfOf(rows, bu[i]))
      && (forall k :: 0 <= k < |rows| ==> exists i :: 0 <= i < |bu| && bu[i].sgUf == rows[k].sgUf)
  {
    var us := UfsOf(rows);
    var bu := ByUF(rows);
    UfsOfSpec(rows);
    SortDescSpec(us, UfVotosKey);
    DistinctKeysPermutation(us, bu, (u: UfStats) => u.sgUf);
    forall i | 0 <= i < |bu| ensures IsUfOf(rows, bu[i]) {
      var j := IndexOf(us, bu[i]);
    }
    forall k | 0 <= k < |rows| ensures exists i :: 0 <= i < |bu| && bu[i].sgUf == rows[k].sgUf {
      var g :| 0 <= g < |us| && us[g].sgUf == rows[k].sgUf;
      assert us[g] in multiset(bu);
      var i := IndexOf(bu, us[g]);
    }
  }
}

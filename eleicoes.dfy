/**
 * The client of the materialised views: the per-party merge of
 * `getStatsPartido`, the query record of `searchCandidatos` with its error
 * and loading handling, and the guard of `getHistoricoCandidato`.
 *
 * `$fetch` is a parameter from the request to its outcome: the decoded
 * body, or the error it throws.
 */
module Eleicoes {
  import opened Wrappers
  import opened Text
  import opened Seqs
  import opened Grouping

  const ApiBase: string := "/api/proxy"

  /** The keys a query record of this client may hold. */
  datatype Field = Select | Order | Limit | NmCandidato | SgPartido | SgUf | AnoEleicao | DsCargo | NrTurno

  /** The key's name in the query string. */
  function FieldName(f: Field): string {
    match f
    case Select => "select"
    case Order => "order"
    case Limit => "limit"
    case NmCandidato => "nm_candidato"
    case SgPartido => "sg_partido"
    case SgUf => "sg_uf"
    case AnoEleicao => "ano_eleicao"
    case DsCargo => "ds_cargo"
    case NrTurno => "nr_turno"
  }

  /** A query-string entry; a record's entries are kept in assignment order. */
  datatype Param = Param(field: Field, value: string)

  datatype Request = Request(path: string, query: seq<Param>)

  /** The value recorded under `f`, if any. */
  function ValueOf(q: seq<Param>, f: Field): Option<string> {
    if q == [] then None else if q[0].field == f then Some(q[0].value) else ValueOf(q[1..], f)
  }

  // ---------------------------------------------------------------------------
  // getStatsPartido

  /** A row of `mv_stats_partido`: one per party, year and office. */
  datatype StatsPartido = StatsPartido(sgPartido: string, nmPartido: string, totalVotos: int, totalCandidatos: int)

  /** Four times as many rows as the parties wanted, and more, since the view repeats parties. */
  function StatsPartidoRequest(limit: nat): Request {
    Request(ApiBase + "/mv_stats_partido",
      [Param(Select, "sg_partido,nm_partido,total_votos,total_candidatos"),
       Param(Order, "total_votos.desc"),
       Param(Limit, IntToString(limit * 4))])
  }

  function Sigla(p: StatsPartido): string { p.sgPartido }

  /** `{ ...p }`: the first row of a party is copied, so the rows themselves are left as they are. */
  function Copy(p: StatsPartido): StatsPartido { p }

  function Merge(e: StatsPartido, p: StatsPartido): StatsPartido {
    e.(totalVotos := e.totalVotos + p.totalVotos, totalCandidatos := e.totalCandidatos + p.totalCandidatos)
  }

  function VotosKey(p: StatsPartido): real { p.totalVotos as real }

  /** `Array.from(partidoMap.values())`. */
  function Partidos(rows: seq<StatsPartido>): seq<StatsPartido> {
    Values(GroupRows(rows, Sigla, Copy, Merge))
  }

  /** The merged parties, most votes first, at most `limit` of them. */
  function TopPartidos(rows: seq<StatsPartido>, limit: nat): seq<StatsPartido> {
    Take(SortDesc(Partidos(rows), VotosKey), limit)
  }

  /** `getStatsPartido(limit)`, `limit` defaulting to 10; a throw of the fetch reaches the caller. */
  method GetStatsPartido(limit: Option<nat>, fetch: Request -> Outcome<seq<StatsPartido>>)
    returns (r: Outcome<seq<StatsPartido>>)
    ensures var l := limit.GetOr(10);
      var reply := fetch(StatsPartidoRequest(l));
      && (reply.Raised? ==> r == reply)
      && (reply.Done? ==> r == Done(TopPartidos(reply.value, l)))
  {
    var l := limit.GetOr(10);
    var reply := fetch(StatsPartidoRequest(l));
    if reply.Raised? {
      return reply;
    }
    var partidoMap := Aggregate(reply.value, Sigla, Copy, Merge);
    r := Done(Take(SortDesc(Values(partidoMap), VotosKey), l));
  }

  /** The request asks for four rows per party wanted, a number `parseInt` reads back. */
  lemma StatsPartidoRequestLimit(limit: nat)
    ensures ValueOf(StatsPartidoRequest(limit).query, Limit) == Some(IntToString(limit * 4))
    ensures ParseInt(IntToString(limit * 4)) == Some(limit * 4)
  {
    var q := StatsPartidoRequest(limit).query;
    assert ValueOf(q, Limit) == ValueOf(q[1..], Limit) == ValueOf(q[2..], Limit);
    ParseIntOfIntToString(limit * 4);
  }

  function Votos(p: StatsPartido): int { p.totalVotos }
  function Candidatos(p: StatsPartido): int { p.totalCandidatos }

  /** A row with its two totals cleared: what the merge copies from a party's first row. */
  function Rest(p: StatsPartido): StatsPartido { p.(totalVotos := 0, totalCandidatos := 0) }

  /** `p` is the merge of the rows of its party: the first row, with both totals summed over them all. */
  predicate IsPartidoOf(rows: seq<StatsPartido>, p: StatsPartido) {
    var rs := RowsWithKey(rows, Sigla, p.sgPartido);
    rs != [] && p == rs[0].(totalVotos := Sum(rs, Votos), totalCandidatos := Sum(rs, Candidatos))
  }

  lemma PartidoOfGroup(rows: seq<StatsPartido>)
    ensures var gs := GroupRows(rows, Sigla, Copy, Merge);
      forall i :: 0 <= i < |gs| ==> gs[i].acc.sgPartido == gs[i].key && IsPartidoOf(rows, gs[i].acc)
  {
    var gs := GroupRows(rows, Sigla, Copy, Merge);
    GroupAccKey(rows, Sigla, Copy, Merge, Sigla);
    GroupSums(rows, Sigla, Copy, Merge, Votos, Votos);
    GroupSums(rows, Sigla, Copy, Merge, Candidatos, Candidatos);
    GroupKeepsFirst(rows, Sigla, Copy, Merge, Rest, Rest);
    forall i | 0 <= i < |gs| ensures IsPartidoOf(rows, gs[i].acc) {
      var rs := RowsWithKey(rows, Sigla, gs[i].key);
      assert Rest(gs[i].acc) == Rest(rs[0]);
    }
  }

  /**
   * One merged entry per party of the rows, in order of first appearance,
   * each the first row of its party with both totals summed.
   */
  lemma PartidosSpec(rows: seq<StatsPartido>)
    ensures var ps := Partidos(rows);
      && |ps| == |Distinct(RowKeys(rows, Sigla))|
      && DistinctKeys(ps, Sigla)
      && (forall i :: 0 <= i < |ps| ==> IsPartidoOf(rows, ps[i]))
      && (forall k :: 0 <= k < |rows| ==> exists i :: 0 <= i < |ps| && ps[i].sgPartido == rows[k].sgPartido)
  {
    PartidosDistinct(rows);
    PartidosCover(rows);
  }

  /** One row per party, each the merge of that party's rows. */
  lemma PartidosDistinct(rows: seq<StatsPartido>)
    ensures var ps := Partidos(rows);
      && |ps| == |Distinct(RowKeys(rows, Sigla))|
      && DistinctKeys(ps, Sigla)
      && (forall i :: 0 <= i < |ps| ==> IsPartidoOf(rows, ps[i]))
  {
    var gs := GroupRows(rows, Sigla, Copy, Merge);
    var ps := Partidos(rows);
    GroupRowsKeys(rows, Sigla, Copy, Merge);
    GroupKeys(rows, Sigla, Copy, Merge);
    PartidoOfGroup(rows);
    assert |Keys(gs)| == |gs|;
    forall i, j | 0 <= i < j < |ps| ensures Sigla(ps[i]) != Sigla(ps[j]) {
      assert ps[i].sgPartido == gs[i].key && ps[j].sgPartido == gs[j].key;
    }
  }

  /** Every party of the input has its row. */
  lemma PartidosCover(rows: seq<StatsPartido>)
    ensures var ps := Partidos(rows);
      forall k :: 0 <= k < |rows| ==> exists i :: 0 <= i < |ps| && ps[i].sgPartido == rows[k].sgPartido
  {
    var gs := GroupRows(rows, Sigla, Copy, Merge);
    var ps := Partidos(rows);
    GroupRowsKeys(rows, Sigla, Copy, Merge);
    PartidoOfGroup(rows);
    forall k | 0 <= k < |rows| ensures exists i :: 0 <= i < |ps| && ps[i].sgPartido == rows[k].sgPartido {
      assert rows[k] in rows;
      var g := IndexOfKey(gs, Sigla(rows[k]));
      assert ps[g].sgPartido == gs[g].key;
    }
  }


  lemma PartidoOfMember(rows: seq<StatsPartido>, p: StatsPartido)
    requires p in Partidos(rows)
    ensures IsPartidoOf(rows, p)
  {
    PartidosSpec(rows);
    var j :| 0 <= j < |Partidos(rows)| && Partidos(rows)[j] == p;
  }

  /** `sigla` has an entry in `ps`. */
  predicate HasSigla(ps: seq<StatsPartido>, sigla: string) {
    exists i :: 0 <= i < |ps| && ps[i].sgPartido == sigla
  }

  lemma TopPartidosShape(rows: seq<StatsPartido>, limit: nat)
    ensures var tp := TopPartidos(rows, limit);
      var n := |Distinct(RowKeys(rows, Sigla))|;
      && |tp| == (if limit < n then limit else n)
      && SortedDesc(tp, VotosKey)
      && DistinctKeys(tp, Sigla)
  {
    var ps := Partidos(rows);
    var sorted := SortDesc(ps, VotosKey);
    PartidosSpec(rows);
    SortDescSpec(ps, VotosKey);
    DistinctKeysPermutation(ps, sorted, Sigla);
  }

  lemma TopPartidosMerged(rows: seq<StatsPartido>, limit: nat)
    ensures var tp := TopPartidos(rows, limit);
      forall i :: 0 <= i < |tp| ==> IsPartidoOf(rows, tp[i])
  {
    var sorted := SortDesc(Partidos(rows), VotosKey);
    var tp := TopPartidos(rows, limit);
    SortDescMembers(Partidos(rows), VotosKey);
    forall i | 0 <= i < |tp| ensures IsPartidoOf(rows, tp[i]) {
      assert tp[i] == sorted[i];
      PartidoOfMember(rows, tp[i]);
    }
  }

  /** The merged entry of a row's party. */
  lemma PartidoOfRow(rows: seq<StatsPartido>, k: nat) returns (p: StatsPartido)
    requires k < |rows|
    ensures p in Partidos(rows) && p.sgPartido == rows[k].sgPartido
    ensures p.totalVotos == Sum(RowsWithKey(rows, Sigla, rows[k].sgPartido), Votos)
  {
    PartidosSpec(rows);
    var g :| 0 <= g < |Partidos(rows)| && Partidos(rows)[g].sgPartido == rows[k].sgPartido;
    p := Partidos(rows)[g];
  }

  /** A party left out by the cut has no more votes than any party kept. */
  lemma TopPartidosCut(rows: seq<StatsPartido>, limit: nat, k: nat)
    requires k < |rows| && !HasSigla(TopPartidos(rows, limit), rows[k].sgPartido)
    ensures var tp := TopPartidos(rows, limit);
      forall i :: 0 <= i < |tp| ==> Sum(RowsWithKey(rows, Sigla, rows[k].sgPartido), Votos) <= tp[i].totalVotos
  {
    var tp := TopPartidos(rows, limit);
    var p := PartidoOfRow(rows, k);
    assert p !in tp;
    SortDescCut(Partidos(rows), VotosKey, limit, p);
    forall i | 0 <= i < |tp| ensures p.totalVotos <= tp[i].totalVotos {
      assert VotosKey(tp[i]) >= VotosKey(p);
    }
  }

  /**
   * `getStatsPartido`'s result: at most `limit` entries, fewer only when the
   * rows hold fewer parties; one per party, most votes first; each the first
   * row of its party with `total_votos` and `total_candidatos` summed over
   * the party's rows; and every party cut off has no more votes than any kept.
   */
  lemma TopPartidosSpec(rows: seq<StatsPartido>, limit: nat)
    ensures var tp := TopPartidos(rows, limit);
      var n := |Distinct(RowKeys(rows, Sigla))|;
      && |tp| == (if limit < n then limit else n)
      && SortedDesc(tp, VotosKey)
      && DistinctKeys(tp, Sigla)
      && (forall i :: 0 <= i < |tp| ==> IsPartidoOf(rows, tp[i]))
      && (forall k :: 0 <= k < |rows| && !HasSigla(tp, rows[k].sgPartido) ==>
            forall i :: 0 <= i < |tp| ==> Sum(RowsWithKey(rows, Sigla, rows[k].sgPartido), Votos) <= tp[i].totalVotos)
  {
    TopPartidosShape(rows, limit);
    TopPartidosMerged(rows, limit);
    forall k | 0 <= k < |rows| && !HasSigla(TopPartidos(rows, limit), rows[k].sgPartido)
      ensures forall i :: 0 <= i < |TopPartidos(rows, limit)| ==>
        Sum(RowsWithKey(rows, Sigla, rows[k].sgPartido), Votos) <= TopPartidos(rows, limit)[i].totalVotos
    {
      TopPartidosCut(rows, limit, k);
    }
  }

  // ---------------------------------------------------------------------------
  // searchCandidatos

  datatype SearchFilters = SearchFilters(
    candidato: Option<string>, partido: Option<string>, uf: Option<string>, ano: Option<int>,
    cargo: Option<string>, turno: Option<int>, limit: Option<int>)

  /** A row of `mv_votos_candidato`. */
  datatype CandidatoVotos = CandidatoVotos(
    nmCandidato: string, sgPartido: string, sgUf: string, anoEleicao: int, dsCargo: string,
    nrTurno: int, totalVotos: int)

  /** `ilike.*term*`: a case-insensitive substring match. */
  function Ilike(term: string): string { "ilike.*" + term + "*" }

  /** `eq.value`: an exact match. */
  function Eq(value: string): string { "eq." + value }

  /** The record with `p` assigned when `present` holds. */
  function WithParam(q: seq<Param>, present: bool, p: Param): seq<Param> {
    if present then q + [p] else q
  }

  /** The query record, built by the successive assignments of the source. */
  function SearchQuery(f: SearchFilters): seq<Param> {
    var q0 := SearchBase(f);
    var q1 := WithParam(q0, Truthy(f.candidato), Param(NmCandidato, Ilike(f.candidato.GetOr(""))));
    var q2 := WithParam(q1, Truthy(f.partido), Param(SgPartido, Eq(f.partido.GetOr(""))));
    var q3 := WithParam(q2, Truthy(f.uf), Param(SgUf, Eq(f.uf.GetOr(""))));
    var q4 := WithParam(q3, TruthyInt(f.ano), Param(AnoEleicao, Eq(IntToString(f.ano.GetOr(0)))));
    var q5 := WithParam(q4, Truthy(f.cargo), Param(DsCargo, Ilike(f.cargo.GetOr(""))));
    WithParam(q5, TruthyInt(f.turno), Param(NrTurno, Eq(IntToString(f.turno.GetOr(0)))))
  }

  function SearchRequest(f: SearchFilters): Request {
    Request(ApiBase + "/mv_votos_candidato", SearchQuery(f))
  }

  /** The record as the source builds it. */
  method BuildSearchQuery(f: SearchFilters) returns (q: seq<Param>)
    ensures q == SearchQuery(f)
  {
    q := SearchBase(f);
    if Truthy(f.candidato) {
      q := q + [Param(NmCandidato, Ilike(f.candidato.value))];
    }
    if Truthy(f.partido) {
      q := q + [Param(SgPartido, Eq(f.partido.value))];
    }
    if Truthy(f.uf) {
      q := q + [Param(SgUf, Eq(f.uf.value))];
    }
    if TruthyInt(f.ano) {
      q := q + [Param(AnoEleicao, Eq(IntToString(f.ano.value)))];
    }
    if Truthy(f.cargo) {
      q := q + [Param(DsCargo, Ilike(f.cargo.value))];
    }
    if TruthyInt(f.turno) {
      q := q + [Param(NrTurno, Eq(IntToString(f.turno.value)))];
    }
  }

  /** The position of a key in the order the source assigns them. */
  function Rank(f: Field): nat {
    match f
    case Select => 0
    case Order => 1
    case Limit => 2
    case NmCandidato => 3
    case SgPartido => 4
    case SgUf => 5
    case AnoEleicao => 6
    case DsCargo => 7
    case NrTurno => 8
  }

  predicate Ascending(q: seq<Param>) {
    forall i, j :: 0 <= i < j < |q| ==> Rank(q[i].field) < Rank(q[j].field)
  }

  predicate Below(q: seq<Param>, r: nat) {
    forall i :: 0 <= i < |q| ==> Rank(q[i].field) < r
  }

  lemma {:induction false} ValueOfAppend(q: seq<Param>, p: Param, f: Field)
    ensures ValueOf(q + [p], f) == if ValueOf(q, f).Some? then ValueOf(q, f) else if p.field == f then Some(p.value) else None
    decreases |q|
  {
    if q != [] {
      assert (q + [p])[1..] == q[1..] + [p];
      ValueOfAppend(q[1..], p, f);
    }
  }

  /** Per key, what the search record holds under it: the independent reading of the source's assignments. */
  function SearchEntry(f: SearchFilters, g: Field): Option<string> {
    match g
    case Select => None
    case Order => Some("total_votos.desc")
    case Limit => Some(IntToString(if TruthyInt(f.limit) then f.limit.value else 50))
    case NmCandidato => if Truthy(f.candidato) then Some(Ilike(f.candidato.value)) else None
    case SgPartido => if Truthy(f.partido) then Some(Eq(f.partido.value)) else None
    case SgUf => if Truthy(f.uf) then Some(Eq(f.uf.value)) else None
    case AnoEleicao => if TruthyInt(f.ano) then Some(Eq(IntToString(f.ano.value))) else None
    case DsCargo => if Truthy(f.cargo) then Some(Ilike(f.cargo.value)) else None
    case NrTurno => if TruthyInt(f.turno) then Some(Eq(IntToString(f.turno.value))) else None
  }

  /** The record once every key ranked below `r` has been assigned. */
  predicate AssignedBelow(f: SearchFilters, q: seq<Param>, r: nat) {
    && Ascending(q) && Below(q, r)
    && forall g :: ValueOf(q, g) == if Rank(g) < r then SearchEntry(f, g) else None
  }

  /** Assigning the next key, as the filters call for, extends the record by one rank. */
  lemma AssignNext(f: SearchFilters, q: seq<Param>, present: bool, p: Param)
    requires AssignedBelow(f, q, Rank(p.field))
    requires SearchEntry(f, p.field) == if present then Some(p.value) else None
    ensures AssignedBelow(f, WithParam(q, present, p), Rank(p.field) + 1)
  {
    var q' := WithParam(q, present, p);
    forall g ensures ValueOf(q', g) == if Rank(g) < Rank(p.field) + 1 then SearchEntry(f, g) else None {
      if present {
        ValueOfAppend(q, p, g);
      }
      if g != p.field && Rank(g) >= Rank(p.field) + 1 {
        assert Rank(g) != Rank(p.field);
      }
    }
  }

  /** The first two entries of the search record. */
  function SearchBase(f: SearchFilters): seq<Param> {
    [Param(Order, "total_votos.desc"), Param(Limit, IntToString(if TruthyInt(f.limit) then f.limit.value else 50))]
  }

  lemma SearchBaseAssigned(f: SearchFilters)
    ensures AssignedBelow(f, SearchBase(f), 3)
  {
    var q0 := SearchBase(f);
    forall g ensures ValueOf(q0, g) == if Rank(g) < 3 then SearchEntry(f, g) else None {
      assert ValueOf(q0, g) == (if g == Order then Some(q0[0].value) else ValueOf(q0[1..], g));
      assert ValueOf(q0[1..], g) == (if g == Limit then Some(q0[1].value) else ValueOf(q0[2..], g));
      assert q0[2..] == [];
    }
  }

  lemma SearchQueryAssigned(f: SearchFilters)
    ensures AssignedBelow(f, SearchQuery(f), 9)
  {
    SearchFirstAssigned(f);
    var q3 := WithParam(WithParam(WithParam(SearchBase(f),
      Truthy(f.candidato), Param(NmCandidato, Ilike(f.candidato.GetOr("")))),
      Truthy(f.partido), Param(SgPartido, Eq(f.partido.GetOr("")))),
      Truthy(f.uf), Param(SgUf, Eq(f.uf.GetOr(""))));
    SearchLastAssigned(f, q3);
  }

  /** The text filters, assigned after the two fixed keys. */
  lemma SearchFirstAssigned(f: SearchFilters)
    ensures AssignedBelow(f, WithParam(WithParam(WithParam(SearchBase(f),
      Truthy(f.candidato), Param(NmCandidato, Ilike(f.candidato.GetOr("")))),
      Truthy(f.partido), Param(SgPartido, Eq(f.partido.GetOr("")))),
      Truthy(f.uf), Param(SgUf, Eq(f.uf.GetOr("")))), 6)
  {
    var q0 := SearchBase(f);
    var p1, p2, p3 := Param(NmCandidato, Ilike(f.candidato.GetOr(""))), Param(SgPartido, Eq(f.partido.GetOr(""))),
      Param(SgUf, Eq(f.uf.GetOr("")));
    var q1 := WithParam(q0, Truthy(f.candidato), p1);
    var q2 := WithParam(q1, Truthy(f.partido), p2);
    SearchBaseAssigned(f);
    AssignNext(f, q0, Truthy(f.candidato), p1);
    AssignNext(f, q1, Truthy(f.partido), p2);
    AssignNext(f, q2, Truthy(f.uf), p3);
  }

  /** The year, office and round filters, assigned last. */
  lemma SearchLastAssigned(f: SearchFilters, q3: seq<Param>)
    requires AssignedBelow(f, q3, 6)
    ensures AssignedBelow(f, WithParam(WithParam(WithParam(q3,
      TruthyInt(f.ano), Param(AnoEleicao, Eq(IntToString(f.ano.GetOr(0))))),
      Truthy(f.cargo), Param(DsCargo, Ilike(f.cargo.GetOr("")))),
      TruthyInt(f.turno), Param(NrTurno, Eq(IntToString(f.turno.GetOr(0))))), 9)
  {
    var p4, p5, p6 := Param(AnoEleicao, Eq(IntToString(f.ano.GetOr(0)))), Param(DsCargo, Ilike(f.cargo.GetOr(""))),
      Param(NrTurno, Eq(IntToString(f.turno.GetOr(0))));
    var q4 := WithParam(q3, TruthyInt(f.ano), p4);
    var q5 := WithParam(q4, Truthy(f.cargo), p5);
    AssignNext(f, q3, TruthyInt(f.ano), p4);
    AssignNext(f, q4, Truthy(f.cargo), p5);
    AssignNext(f, q5, TruthyInt(f.turno), p6);
  }

  /** Keys in strictly ascending rank are pairwise different. */
  lemma AscendingDistinct(q: seq<Param>)
    requires Ascending(q)
    ensures DistinctKeys(q, (p: Param) => p.field)
  {
    forall i, j | 0 <= i < j < |q| ensures q[i].field != q[j].field {
      assert Rank(q[i].field) < Rank(q[j].field);
    }
  }

  /** The numbers of the record read back with `parseInt` as the filters gave them. */
  lemma SearchEntryNumbers(f: SearchFilters)
    ensures ParseInt(SearchEntry(f, Limit).value) == Some(if TruthyInt(f.limit) then f.limit.value else 50)
    ensures TruthyInt(f.ano) ==> ParseInt(SearchEntry(f, AnoEleicao).value[3..]) == f.ano
    ensures TruthyInt(f.turno) ==> ParseInt(SearchEntry(f, NrTurno).value[3..]) == f.turno
  {
    ParseIntOfIntToString(if TruthyInt(f.limit) then f.limit.value else 50);
    if TruthyInt(f.ano) {
      ParseIntOfIntToString(f.ano.value);
      assert Eq(IntToString(f.ano.value))[3..] == IntToString(f.ano.value);
    }
    if TruthyInt(f.turno) {
      ParseIntOfIntToString(f.turno.value);
      assert Eq(IntToString(f.turno.value))[3..] == IntToString(f.turno.value);
    }
  }

  /**
   * The search record holds, under each key, exactly the entry the filters
   * call for (see `SearchEntry`), and no key twice.
   */
  lemma SearchQuerySpec(f: SearchFilters)
    ensures var q := SearchQuery(f);
      && DistinctKeys(q, (p: Param) => p.field)
      && (forall g :: ValueOf(q, g) == SearchEntry(f, g))
  {
    SearchQueryAssigned(f);
    AscendingDistinct(SearchQuery(f));
    forall g ensures ValueOf(SearchQuery(f), g) == SearchEntry(f, g) {
      assert Rank(g) < 9;
    }
  }

  /** The message `searchCandidatos` records for a throw. */
  function SearchErrorMessage(message: Option<string>): string {
    message.GetOr("Erro ao buscar candidatos")
  }

  /** The composable's two shared refs and the operations that write them. */
  class EleicoesClient {
    var loading: bool
    var error: Option<string>

    constructor()
      ensures !loading && error == None
    {
      loading := false;
      error := None;
    }

    /**
     * `searchCandidatos`: the rows of the fetch, or `[]` with the throw's
     * message recorded; the error is cleared on success and loading is off
     * on every path.
     */
    method SearchCandidatos(f: SearchFilters, fetch: Request -> Outcome<seq<CandidatoVotos>>)
      returns (r: seq<CandidatoVotos>)
      modifies this
      ensures !loading
      ensures var reply := fetch(SearchRequest(f));
        && (reply.Done? ==> r == reply.value && error == None)
        && (reply.Raised? ==> r == [] && error == Some(SearchErrorMessage(reply.message)))
    {
      loading := true;
      error := None;
      var q := BuildSearchQuery(f);
      var reply := fetch(Request(ApiBase + "/mv_votos_candidato", q));
      if reply.Done? {
        r := reply.value;
      } else {
        error := Some(SearchErrorMessage(reply.message));
        r := [];
      }
      loading := false;
    }
  }

  // ---------------------------------------------------------------------------
  // getHistoricoCandidato

  /** The history request, or none when the name is empty or shorter than three characters. */
  function HistoricoRequest(nome: string): (r: Option<Request>)
    ensures r.None? <==> |nome| < 3
    ensures r.Some? ==> ValueOf(r.value.query, NmCandidato) == Some(Ilike(nome))
  {
    if nome == [] || |nome| < 3 then None
    else Some(Request(ApiBase + "/mv_votos_candidato",
      [Param(NmCandidato, Ilike(nome)), Param(Order, "ano_eleicao.desc,total_votos.desc"), Param(Limit, "100")]))
  }

  /** `getHistoricoCandidato`: `[]` without a fetch for a short name; otherwise the fetch, throws included. */
  function Historico(nome: string, fetch: Request -> Outcome<seq<CandidatoVotos>>): (r: Outcome<seq<CandidatoVotos>>)
    ensures |nome| < 3 ==> r == Done([])
    ensures |nome| >= 3 ==> r == fetch(HistoricoRequest(nome).value)
  {
    var req := HistoricoRequest(nome);
    if req.None? then Done([]) else fetch(req.value)
  }
}

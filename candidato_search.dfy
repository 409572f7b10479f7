/**
 * The candidate search state: the query, the search mode, four filters and
 * the results, kept across navigations. `Search` builds the table query from
 * the state, runs it and stores the records; the other operations clear or
 * reset parts of the state.
 */
module CandidatoSearch {
  import opened Wrappers
  import opened Text
  import opened Seqs
  import opened Busca

  datatype SearchType = Candidato | Cidade

  datatype Filters = Filters(uf: Option<string>, ano: Option<int>, cidade: Option<string>, cargo: Option<string>)

  /** The columns of the search views that queries filter on. */
  datatype Column = NmUrnaCandidato | NmCandidato | NmMunicipio | SgUf | SgPartido | AnoEleicao | DsCargo | NrTurno

  /** A condition of the table query: `ilike(column, pattern)` or `eq(column, value)`. */
  datatype Condition = Ilike(column: Column, pattern: string) | EqText(column: Column, text: string) | EqInt(column: Column, number: int)

  /** What the query yields: the rows (`data || []`) or the error it throws. */
  datatype QueryResult = Data(rows: seq<RawRow>) | Failed(message: string)

  /** `%term%`, every run of white space inside the term also becoming `%`. */
  function TermPattern(term: string): string {
    "%" + ReplaceSpaceRuns(term, '%') + "%"
  }

  function TermCondition(term: string, searchType: SearchType): seq<Condition> {
    if |term| >= 3 then [Ilike(if searchType == Candidato then NmUrnaCandidato else NmMunicipio, TermPattern(term))] else []
  }

  function UfCondition(f: Filters): seq<Condition> {
    if Truthy(f.uf) then [EqText(SgUf, f.uf.value)] else []
  }

  function AnoCondition(f: Filters): seq<Condition> {
    if TruthyInt(f.ano) then [EqInt(AnoEleicao, f.ano.value)] else []
  }

  function CargoCondition(f: Filters): seq<Condition> {
    if Truthy(f.cargo) then [EqText(DsCargo, f.cargo.value)] else []
  }

  function CidadeCondition(f: Filters): seq<Condition> {
    if Truthy(f.cidade) then [EqText(NmMunicipio, f.cidade.value)] else []
  }

  /** The conditions of the query, in the order they are added. */
  function Conditions(query: string, searchType: SearchType, f: Filters): seq<Condition> {
    TermCondition(Trim(query), searchType) + FilterConditions(f)
  }

  function FilterConditions(f: Filters): seq<Condition> {
    UfCondition(f) + AnoCondition(f) + CargoCondition(f) + CidadeCondition(f)
  }

  /** How many conditions filter on `column`. */
  function ColumnCount(cs: seq<Condition>, column: Column): nat {
    if cs == [] then 0 else (if cs[0].column == column then 1 else 0) + ColumnCount(cs[1..], column)
  }

  lemma {:induction false} ColumnCountConcat(a: seq<Condition>, b: seq<Condition>, column: Column)
    ensures ColumnCount(a + b, column) == ColumnCount(a, column) + ColumnCount(b, column)
    decreases |a|
  {
    if a != [] {
      assert (a + b)[1..] == a[1..] + b;
      ColumnCountConcat(a[1..], b, column);
    } else {
      assert a + b == b;
    }
  }

  lemma ColumnCountOfFive(c1: seq<Condition>, c2: seq<Condition>, c3: seq<Condition>, c4: seq<Condition>,
                          c5: seq<Condition>, column: Column)
    ensures ColumnCount(c1 + c2 + c3 + c4 + c5, column) ==
      ColumnCount(c1, column) + ColumnCount(c2, column) + ColumnCount(c3, column) + ColumnCount(c4, column) + ColumnCount(c5, column)
  {
    ColumnCountConcat(c1 + c2 + c3 + c4, c5, column);
    ColumnCountConcat(c1 + c2 + c3, c4, column);
    ColumnCountConcat(c1 + c2, c3, column);
    ColumnCountConcat(c1, c2, column);
  }

  /** One condition counts for its own column only. */
  lemma ColumnCountSingle(c: Condition, column: Column)
    ensures ColumnCount([c], column) == if c.column == column then 1 else 0
  {
    assert [c][1..] == [];
  }

  /** The term adds one condition, on the name column of the mode, when it is long enough. */
  lemma TermCount(term: string, searchType: SearchType, column: Column)
    ensures ColumnCount(TermCondition(term, searchType), column) ==
      if |term| >= 3 && column == (if searchType == Candidato then NmUrnaCandidato else NmMunicipio) then 1 else 0
  {
    if |term| >= 3 {
      ColumnCountSingle(TermCondition(term, searchType)[0], column);
    }
  }

  /** Each truthy filter adds one condition on its own column. */
  lemma FilterCounts(f: Filters, column: Column)
    ensures ColumnCount(UfCondition(f), column) == if Truthy(f.uf) && column == SgUf then 1 else 0
    ensures ColumnCount(AnoCondition(f), column) == if TruthyInt(f.ano) && column == AnoEleicao then 1 else 0
    ensures ColumnCount(CargoCondition(f), column) == if Truthy(f.cargo) && column == DsCargo then 1 else 0
    ensures ColumnCount(CidadeCondition(f), column) == if Truthy(f.cidade) && column == NmMunicipio then 1 else 0
  {
    if Truthy(f.uf) { ColumnCountSingle(UfCondition(f)[0], column); }
    if TruthyInt(f.ano) { ColumnCountSingle(AnoCondition(f)[0], column); }
    if Truthy(f.cargo) { ColumnCountSingle(CargoCondition(f)[0], column); }
    if Truthy(f.cidade) { ColumnCountSingle(CidadeCondition(f)[0], column); }
  }

  /** How many conditions of the query are on `column`. */
  lemma ConditionsColumn(query: string, searchType: SearchType, f: Filters, column: Column)
    ensures ColumnCount(Conditions(query, searchType, f), column) ==
      (if |Trim(query)| >= 3 && column == (if searchType == Candidato then NmUrnaCandidato else NmMunicipio) then 1 else 0)
      + (if Truthy(f.uf) && column == SgUf then 1 else 0)
      + (if TruthyInt(f.ano) && column == AnoEleicao then 1 else 0)
      + (if Truthy(f.cargo) && column == DsCargo then 1 else 0)
      + (if Truthy(f.cidade) && column == NmMunicipio then 1 else 0)
  {
    var t := Trim(query);
    ColumnCountConcat(TermCondition(t, searchType), FilterConditions(f), column);
    ColumnCountConcat(UfCondition(f) + AnoCondition(f) + CargoCondition(f), CidadeCondition(f), column);
    ColumnCountConcat(UfCondition(f) + AnoCondition(f), CargoCondition(f), column);
    ColumnCountConcat(UfCondition(f), AnoCondition(f), column);
    TermCount(t, searchType, column);
    FilterCounts(f, column);
  }

  /**
   * Each active filter adds exactly one condition on its own column, and the
   * term one ilike on the mode's name column when long enough, so a city
   * search with a city filter has two conditions on the municipality.
   */
  lemma ConditionsCount(query: string, searchType: SearchType, f: Filters)
    ensures var cs := Conditions(query, searchType, f);
      && ColumnCount(cs, SgUf) == (if Truthy(f.uf) then 1 else 0)
      && ColumnCount(cs, AnoEleicao) == (if TruthyInt(f.ano) then 1 else 0)
      && ColumnCount(cs, DsCargo) == (if Truthy(f.cargo) then 1 else 0)
      && ColumnCount(cs, NmUrnaCandidato) == (if |Trim(query)| >= 3 && searchType == Candidato then 1 else 0)
      && ColumnCount(cs, NmMunicipio) ==
        (if |Trim(query)| >= 3 && searchType == Cidade then 1 else 0) + (if Truthy(f.cidade) then 1 else 0)
  {
    ConditionsColumn(query, searchType, f, SgUf);
    ConditionsColumn(query, searchType, f, AnoEleicao);
    ConditionsColumn(query, searchType, f, DsCargo);
    ConditionsColumn(query, searchType, f, NmUrnaCandidato);
    ConditionsColumn(query, searchType, f, NmMunicipio);
  }

  /** Every condition but the term's is an equality. */
  predicate NoIlike(cs: seq<Condition>) {
    forall i :: 0 <= i < |cs| ==> !cs[i].Ilike?
  }

  /** The filters add equalities only. */
  lemma FiltersNoIlike(f: Filters)
    ensures NoIlike(FilterConditions(f))
  {
  }

  /** Ilikes found in a concatenation come from its first part when the second has none. */
  lemma IlikeConcat(c1: seq<Condition>, rest: seq<Condition>, pattern: string, ok: bool)
    requires forall i :: 0 <= i < |c1| ==> c1[i].Ilike? ==> ok && c1[i].pattern == pattern
    requires NoIlike(rest)
    ensures forall i :: 0 <= i < |c1 + rest| ==> (c1 + rest)[i].Ilike? ==> ok && (c1 + rest)[i].pattern == pattern
  {
    forall i | |c1| <= i < |c1 + rest| ensures !(c1 + rest)[i].Ilike? {
      assert (c1 + rest)[i] == rest[i - |c1|];
    }
  }

  /** The only ilike is the term's, present only for a term of three or more characters. */
  lemma ConditionsIlike(query: string, searchType: SearchType, f: Filters)
    ensures var cs := Conditions(query, searchType, f);
      forall i :: 0 <= i < |cs| ==> cs[i].Ilike? ==> |Trim(query)| >= 3 && cs[i].pattern == TermPattern(Trim(query))
  {
    var t := Trim(query);
    FiltersNoIlike(f);
    IlikeConcat(TermCondition(t, searchType), FilterConditions(f), TermPattern(t), |t| >= 3);
  }

  /** The pattern of a term holds no white space and is wrapped in `%`. */
  lemma TermPatternSpec(term: string)
    ensures var p := TermPattern(term);
      && |p| >= 2 && p[0] == '%' && p[|p| - 1] == '%'
      && forall i :: 0 <= i < |p| ==> !IsSpace(p[i])
  {
    ReplaceSpaceRunsNoSpace(term, '%');
    var p := TermPattern(term);
    forall i | 0 <= i < |p| ensures !IsSpace(p[i]) {
      if 0 < i < |p| - 1 {
        assert p[i] == ReplaceSpaceRuns(term, '%')[i - 1];
      }
    }
  }

  /** The records a successful query leaves: aggregated by candidate, or the rows as they are by city. */
  function Resultados(rows: seq<RawRow>, searchType: SearchType): seq<CandidatoBusca> {
    if searchType == Candidato then Agregados(rows, 50)
    else seq(|rows|, i requires 0 <= i < |rows| => ToBusca(rows[i]))
  }

  /** `err.message || 'Erro na busca'`. */
  function ErrorMessage(message: string): string {
    if message == [] then "Erro na busca" else message
  }

  class SearchState {
    var searched: bool
    var candidatos: seq<CandidatoBusca>
    var searchQuery: string
    var searchType: SearchType
    var filters: Filters
    var error: string
    var loading: bool

    /** `defaultState()`. */
    predicate IsDefault()
      reads this
    {
      && !searched && candidatos == [] && searchQuery == [] && searchType == Candidato
      && filters == Filters(None, None, None, None) && error == []
    }

    constructor ()
      ensures IsDefault() && !loading
    {
      searched := false;
      candidatos := [];
      searchQuery := [];
      searchType := Candidato;
      filters := Filters(None, None, None, None);
      error := [];
      loading := false;
    }

    /** `isEleicaoMunicipal`: a municipal election year is selected. */
    predicate IsEleicaoMunicipal()
      reads this
    {
      filters.ano == Some(2020) || filters.ano == Some(2024)
    }

    /** The active filters, one flag each. */
    function ActiveFlags(): seq<bool>
      reads this
    {
      [Truthy(filters.uf), TruthyInt(filters.ano), Truthy(filters.cidade), Truthy(filters.cargo)]
    }

    /** `filterCount`: the counter raised once per active filter. */
    method FilterCount() returns (count: nat)
      ensures count == Count(ActiveFlags(), IsSet)
      ensures count <= 4
      ensures count == 0 <==> !Truthy(filters.uf) && !TruthyInt(filters.ano) && !Truthy(filters.cidade) && !Truthy(filters.cargo)
    {
      count := 0;
      if Truthy(filters.uf) {
        count := count + 1;
      }
      if TruthyInt(filters.ano) {
        count := count + 1;
      }
      if Truthy(filters.cidade) {
        count := count + 1;
      }
      if Truthy(filters.cargo) {
        count := count + 1;
      }
      CountFlags(Truthy(filters.uf), TruthyInt(filters.ano), Truthy(filters.cidade), Truthy(filters.cargo));
    }

    /**
     * `canSearch`: never by city without a state; otherwise a term of three
     * or more characters or a state, year or city filter that is set.
     */
    predicate CanSearch()
      reads this
    {
      CanSearchOf(searchQuery, searchType, filters)
    }

    /**
     * `search`: nothing when the state does not allow a search; otherwise it
     * marks the search as done, runs the query built from the state and keeps
     * its records, or keeps the old records and records the error.
     */
    method Search(run: seq<Condition> -> QueryResult)
      modifies this`loading, this`searched, this`error, this`candidatos
      ensures !old(CanSearch()) ==> unchanged(this)
      ensures old(CanSearch()) ==>
        var res := run(Conditions(old(searchQuery), old(searchType), old(filters)));
        && searched && !loading
        && candidatos == (if res.Data? then Resultados(res.rows, old(searchType)) else old(candidatos))
        && error == (if res.Data? then [] else ErrorMessage(res.message))
      ensures searchQuery == old(searchQuery) && searchType == old(searchType) && filters == old(filters)
    {
      if !CanSearch() {
        return;
      }
      var mode := searchType;
      var res := run(Conditions(searchQuery, mode, filters));
      // The records and the message are computed before the fields are written.
      var found := candidatos;
      var message := [];
      match res {
        case Data(rows) =>
          if mode == Candidato {
            found := AggregateCandidatos(rows, 50);
          } else {
            found := Resultados(rows, Cidade);
          }
        case Failed(m) =>
          message := ErrorMessage(m);
      }
      loading := true;
      searched := true;
      error := message;
      candidatos := found;
      loading := false;
    }

    /** `clearResults`: only the results, the searched flag and the error. */
    method ClearResults()
      modifies this
      ensures candidatos == [] && !searched && error == []
      ensures searchQuery == old(searchQuery) && searchType == old(searchType) && filters == old(filters)
      ensures loading == old(loading)
    {
      candidatos := [];
      searched := false;
      error := [];
    }

    /** `clearFilters`: all four filters, except the state when searching by city. */
    method ClearFilters()
      modifies this
      ensures filters == Filters(if searchType == Candidato then None else old(filters.uf), None, None, None)
      ensures searched == old(searched) && candidatos == old(candidatos) && searchQuery == old(searchQuery)
      ensures searchType == old(searchType) && error == old(error) && loading == old(loading)
    {
      if searchType == Candidato {
        filters := Filters(None, None, None, None);
      } else {
        filters := filters.(ano := None, cidade := None, cargo := None);
      }
    }

    method SetUf(uf: Option<string>)
      modifies this
      ensures filters == old(filters).(uf := uf)
      ensures searched == old(searched) && candidatos == old(candidatos) && searchQuery == old(searchQuery)
      ensures searchType == old(searchType) && error == old(error) && loading == old(loading)
    {
      filters := filters.(uf := uf);
    }

    /** `resetState`. */
    method ResetState()
      modifies this
      ensures IsDefault() && loading == old(loading)
    {
      searched := false;
      candidatos := [];
      searchQuery := [];
      searchType := Candidato;
      filters := Filters(None, None, None, None);
      error := [];
    }
  }

  predicate IsSet(b: bool) { b }

  lemma CountFlags(a: bool, b: bool, c: bool, d: bool)
    ensures Count([a, b, c, d], IsSet) == (if a then 1 else 0) + (if b then 1 else 0) + (if c then 1 else 0) + (if d then 1 else 0)
  {
    assert [a, b, c, d][1..] == [b, c, d];
    assert [b, c, d][1..] == [c, d];
    assert [c, d][1..] == [d];
    assert [d][1..] == [];
    assert |Filter([d], IsSet)| == (if d then 1 else 0);
    assert |Filter([c, d], IsSet)| == (if c then 1 else 0) + |Filter([d], IsSet)|;
    assert |Filter([b, c, d], IsSet)| == (if b then 1 else 0) + |Filter([c, d], IsSet)|;
    assert |Filter([a, b, c, d], IsSet)| == (if a then 1 else 0) + |Filter([b, c, d], IsSet)|;
  }

  /** The search predicate of a state, as a function of its parts. */
  predicate CanSearchOf(query: string, searchType: SearchType, f: Filters) {
    if searchType == Cidade && !Truthy(f.uf) then false
    else |Trim(query)| >= 3 || f.uf.Some? || f.ano.Some? || f.cidade.Some?
  }

  /**
   * A city search without a state never runs; an office filter alone does
   * not allow a search; after `clearFilters` in candidate mode a short query
   * cannot search.
   */
  lemma CanSearchSpec(query: string, f: Filters)
    ensures !Truthy(f.uf) ==> !CanSearchOf(query, Cidade, f)
    ensures |Trim(query)| < 3 && f.uf.None? && f.ano.None? && f.cidade.None? ==> !CanSearchOf(query, Candidato, f)
    ensures |Trim(query)| < 3 ==> !CanSearchOf(query, Candidato, Filters(None, None, None, f.cargo))
    ensures |Trim(query)| >= 3 ==> CanSearchOf(query, Candidato, f)
  {
  }
}

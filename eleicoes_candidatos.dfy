/**
 * The paginated candidate listing endpoint: it builds a parameterised WHERE
 * clause from the query-string filters, runs a page query and a count query
 * with it, and answers the page with its pagination figures. The two SQL
 * executions are parameters.
 */
module EleicoesCandidatos {
  import opened Wrappers
  import opened Text
  import opened Seqs

  /** The query string; every value is `undefined` (`None`) or one string. */
  datatype ListQuery = ListQuery(
    candidato: Option<string>, partido: Option<string>, uf: Option<string>, municipio: Option<string>,
    ano: Option<string>, cargo: Option<string>, turno: Option<string>,
    page: Option<string>, limit: Option<string>)

  /** The filterable columns, in the order the handler tests them. */
  datatype Column = NmCandidato | SgPartido | SgUf | NmMunicipio | AnoEleicao | DsCargo | NrTurno

  const AllColumns: seq<Column> := [NmCandidato, SgPartido, SgUf, NmMunicipio, AnoEleicao, DsCargo, NrTurno]

  function ColumnName(c: Column): string {
    match c
    case NmCandidato => "nm_candidato"
    case SgPartido => "sg_partido"
    case SgUf => "sg_uf"
    case NmMunicipio => "nm_municipio"
    case AnoEleicao => "ano_eleicao"
    case DsCargo => "ds_cargo"
    case NrTurno => "nr_turno"
  }

  /** Text columns are matched with a case-insensitive LIKE, the others with equality. */
  predicate IsLike(c: Column) { c == NmCandidato || c == NmMunicipio || c == DsCargo }

  /** A bound parameter: a string, or `Number.parseInt` of one (`None` for NaN). */
  datatype Param = TextParam(text: string) | IntParam(value: Option<int>)

  /** A filter that is present, before it is numbered. */
  datatype Clause = Clause(column: Column, param: Param)

  /** A condition with its placeholder number. */
  datatype Condition = Condition(column: Column, placeholder: nat)

  function FieldOf(q: ListQuery, c: Column): Option<string> {
    match c
    case NmCandidato => q.candidato
    case SgPartido => q.partido
    case SgUf => q.uf
    case NmMunicipio => q.municipio
    case AnoEleicao => q.ano
    case DsCargo => q.cargo
    case NrTurno => q.turno
  }

  /** `%v%` for LIKE columns, the upper-cased value for party and state, the parsed integer for year and round. */
  function ParamFor(c: Column, v: string): Param {
    if IsLike(c) then TextParam("%" + v + "%")
    else if c == SgPartido || c == SgUf then TextParam(Upper(v))
    else IntParam(ParseInt(v))
  }

  /** The clause a column contributes: one when its value is truthy, none otherwise. */
  function Item(q: ListQuery, c: Column): seq<Clause> {
    var v := FieldOf(q, c);
    if Truthy(v) then [Clause(c, ParamFor(c, v.value))] else []
  }

  function ClausesOf(q: ListQuery, cols: seq<Column>): seq<Clause>
    decreases |cols|
  {
    if cols == [] then [] else Item(q, cols[0]) + ClausesOf(q, cols[1..])
  }

  function ClauseColumn(c: Clause): Column { c.column }

  function Clauses(q: ListQuery): seq<Clause> { ClausesOf(q, AllColumns) }

  /** The conditions numbered from 1, in order. */
  function Numbered(cl: seq<Clause>): (cs: seq<Condition>)
    ensures |cs| == |cl|
    ensures forall i :: 0 <= i < |cl| ==> cs[i] == Condition(cl[i].column, i + 1)
  {
    seq(|cl|, i requires 0 <= i < |cl| => Condition(cl[i].column, i + 1))
  }

  function ParamsOf(cl: seq<Clause>): (ps: seq<Param>)
    ensures |ps| == |cl| && forall i :: 0 <= i < |cl| ==> ps[i] == cl[i].param
  {
    seq(|cl|, i requires 0 <= i < |cl| => cl[i].param)
  }

  /** The SQL text of a condition. */
  function Render(c: Condition): string {
    var ph := "$" + IntToString(c.placeholder);
    if IsLike(c.column) then "UPPER(" + ColumnName(c.column) + ") LIKE UPPER(" + ph + ")"
    else ColumnName(c.column) + " = " + ph
  }

  function RenderAll(cs: seq<Condition>): (r: seq<string>)
    ensures |r| == |cs| && forall i :: 0 <= i < |cs| ==> r[i] == Render(cs[i])
  {
    seq(|cs|, i requires 0 <= i < |cs| => Render(cs[i]))
  }

  /** `WHERE c1 AND c2 …`, or nothing without conditions. */
  function WhereClause(conditions: seq<string>): (w: string)
    ensures w == [] <==> conditions == []
    ensures conditions != [] ==> |w| >= 6 && w[..6] == "WHERE " && w[6..] == Join(conditions, " AND ")
  {
    if conditions == [] then "" else "WHERE " + Join(conditions, " AND ")
  }

  // ---------------------------------------------------------------------------
  // The builder

  /** One `conditions.push(...)` and `params.push(...)` pair, numbered from the current parameter count. */
  method Push(conditions: seq<string>, params: seq<Param>, c: Clause)
    returns (conditions': seq<string>, params': seq<Param>)
    ensures conditions' == conditions + [Render(Condition(c.column, |params| + 1))]
    ensures params' == params + [c.param]
  {
    conditions' := conditions + [Render(Condition(c.column, |params| + 1))];
    params' := params + [c.param];
  }

  lemma ClausesAppend(q: ListQuery, cols: seq<Column>, c: Column)
    ensures ClausesOf(q, cols + [c]) == ClausesOf(q, cols) + Item(q, c)
    decreases |cols|
  {
    if cols != [] {
      assert (cols + [c])[1..] == cols[1..] + [c];
      ClausesAppend(q, cols[1..], c);
    } else {
      assert ClausesOf(q, [c]) == Item(q, c) + ClausesOf(q, []);
    }
  }

  /** Numbering the clauses after `cl` continues from `|cl| + 1`. */
  lemma NumberedAppend(cl: seq<Clause>, c: Clause)
    ensures RenderAll(Numbered(cl + [c])) == RenderAll(Numbered(cl)) + [Render(Condition(c.column, |cl| + 1))]
    ensures ParamsOf(cl + [c]) == ParamsOf(cl) + [c.param]
  {
    assert Numbered(cl + [c]) == Numbered(cl) + [Condition(c.column, |cl| + 1)];
  }

  /** The step of the builder: a present filter is pushed with the next placeholder. */
  method Step(q: ListQuery, k: nat, conditions: seq<string>, params: seq<Param>)
    returns (conditions': seq<string>, params': seq<Param>)
    requires k < |AllColumns|
    requires conditions == RenderAll(Numbered(ClausesOf(q, AllColumns[..k])))
    requires params == ParamsOf(ClausesOf(q, AllColumns[..k]))
    ensures conditions' == RenderAll(Numbered(ClausesOf(q, AllColumns[..k + 1])))
    ensures params' == ParamsOf(ClausesOf(q, AllColumns[..k + 1]))
  {
    var col := AllColumns[k];
    var pre := ClausesOf(q, AllColumns[..k]);
    assert AllColumns[..k + 1] == AllColumns[..k] + [col];
    ClausesAppend(q, AllColumns[..k], col);
    var v := FieldOf(q, col);
    if Truthy(v) {
      var c := Clause(col, ParamFor(col, v.value));
      NumberedAppend(pre, c);
      assert |params| == |pre|;
      conditions', params' := Push(conditions, params, c);
    } else {
      assert pre + Item(q, col) == pre;
      conditions', params' := conditions, params;
    }
  }

  /** The handler's sequence of seven `if (filter) push` blocks. */
  method BuildWhere(q: ListQuery) returns (conditions: seq<string>, params: seq<Param>)
    ensures conditions == RenderAll(Numbered(Clauses(q)))
    ensures params == ParamsOf(Clauses(q))
  {
    conditions, params := [], [];
    assert AllColumns[..0] == [];
    conditions, params := Step(q, 0, conditions, params);
    conditions, params := Step(q, 1, conditions, params);
    conditions, params := Step(q, 2, conditions, params);
    conditions, params := Step(q, 3, conditions, params);
    conditions, params := Step(q, 4, conditions, params);
    conditions, params := Step(q, 5, conditions, params);
    conditions, params := Step(q, 6, conditions, params);
    assert AllColumns[..7] == AllColumns;
  }

  /**
   * Each clause comes from a truthy filter of its own column with that
   * column's parameter, each truthy filter gives exactly one clause, and the
   * clauses keep the column order.
   */
  lemma {:induction false} ClausesOfSpec(q: ListQuery, cols: seq<Column>)
    ensures var cl := ClausesOf(q, cols);
      && |cl| <= |cols|
      && (forall i :: 0 <= i < |cl| ==>
            cl[i].column in cols && Truthy(FieldOf(q, cl[i].column))
            && cl[i].param == ParamFor(cl[i].column, FieldOf(q, cl[i].column).value))
      && (forall c :: c in cols && Truthy(FieldOf(q, c)) ==> exists i :: 0 <= i < |cl| && cl[i].column == c)
    decreases |cols|
  {
    if cols != [] {
      ClausesOfSpec(q, cols[1..]);
      var cl := ClausesOf(q, cols);
      var rest := ClausesOf(q, cols[1..]);
      var it := Item(q, cols[0]);
      assert cl == it + rest;
      forall c | c in cols && Truthy(FieldOf(q, c)) ensures exists i :: 0 <= i < |cl| && cl[i].column == c {
        if c == cols[0] {
          assert cl[0].column == c;
        } else {
          assert c in cols[1..];
          var i :| 0 <= i < |rest| && rest[i].column == c;
          assert cl[|it| + i] == rest[i];
        }
      }
    }
  }

  /** Each column appears at most once among the clauses. */
  lemma {:induction false} ClausesOfDistinct(q: ListQuery, cols: seq<Column>)
    requires forall i, j :: 0 <= i < j < |cols| ==> cols[i] != cols[j]
    ensures DistinctKeys(ClausesOf(q, cols), ClauseColumn)
    decreases |cols|
  {
    if cols != [] {
      ClausesOfDistinct(q, cols[1..]);
      ClausesOfSpec(q, cols[1..]);
      assert cols[0] !in cols[1..];
    }
  }

  lemma AllColumnsComplete(c: Column)
    ensures c in AllColumns
  {
    match c
    case NmCandidato => assert AllColumns[0] == c;
    case SgPartido => assert AllColumns[1] == c;
    case SgUf => assert AllColumns[2] == c;
    case NmMunicipio => assert AllColumns[3] == c;
    case AnoEleicao => assert AllColumns[4] == c;
    case DsCargo => assert AllColumns[5] == c;
    case NrTurno => assert AllColumns[6] == c;
  }

  /**
   * The WHERE clause has one condition and one parameter per truthy filter
   * and none for the others; condition `i` names placeholder `$(i+1)` and is
   * bound to parameter `i`, that column's parameter.
   */
  lemma BuildWhereSpec(q: ListQuery)
    ensures var cl := Clauses(q);
      var cs := Numbered(cl);
      && |RenderAll(cs)| == |ParamsOf(cl)| == |cl| <= |AllColumns|
      && (forall i :: 0 <= i < |cs| ==>
            cs[i].placeholder == i + 1 && Truthy(FieldOf(q, cs[i].column))
            && ParamsOf(cl)[i] == ParamFor(cs[i].column, FieldOf(q, cs[i].column).value))
      && (forall c :: Truthy(FieldOf(q, c)) ==> exists i :: 0 <= i < |cs| && cs[i].column == c)
      && DistinctKeys(cl, ClauseColumn)
  {
    WhereBindings(q);
    WhereCoverage(q);
  }

  lemma WhereBindings(q: ListQuery)
    ensures var cl := Clauses(q);
      var cs := Numbered(cl);
      && |RenderAll(cs)| == |ParamsOf(cl)| == |cl| <= |AllColumns|
      && (forall i :: 0 <= i < |cs| ==>
            cs[i].placeholder == i + 1 && Truthy(FieldOf(q, cs[i].column))
            && ParamsOf(cl)[i] == ParamFor(cs[i].column, FieldOf(q, cs[i].column).value))
  {
    ClausesOfSpec(q, AllColumns);
  }

  lemma WhereCoverage(q: ListQuery)
    ensures var cs := Numbered(Clauses(q));
      && (forall c :: Truthy(FieldOf(q, c)) ==> exists i :: 0 <= i < |cs| && cs[i].column == c)
      && DistinctKeys(Clauses(q), ClauseColumn)
  {
    var cl := Clauses(q);
    ClausesOfSpec(q, AllColumns);
    AllColumnsDistinct();
    ClausesOfDistinct(q, AllColumns);
    var cs := Numbered(cl);
    forall c | Truthy(FieldOf(q, c)) ensures exists i :: 0 <= i < |cs| && cs[i].column == c {
      AllColumnsComplete(c);
      var i :| 0 <= i < |cl| && cl[i].column == c;
      assert cs[i].column == c;
    }
  }

  lemma AllColumnsDistinct()
    ensures forall i, j :: 0 <= i < j < |AllColumns| ==> AllColumns[i] != AllColumns[j]
  {
  }

  /** The WHERE clause is empty exactly when no filter is set. */
  lemma WhereEmpty(q: ListQuery)
    ensures WhereOf(q) == [] <==> forall c :: !Truthy(FieldOf(q, c))
  {
    var cl := Clauses(q);
    ClausesOfSpec(q, AllColumns);
    if cl != [] {
      assert Truthy(FieldOf(q, cl[0].column));
    } else {
      forall c ensures !Truthy(FieldOf(q, c)) {
        AllColumnsComplete(c);
      }
    }
  }

  // ---------------------------------------------------------------------------
  // Pagination

  /** `Number.parseInt(v.toString())` where `v` defaults to the number `d`. */
  function ParseOr(v: Option<string>, d: nat): Option<int> {
    if v.Some? then ParseInt(v.value) else Some(d)
  }

  /** The page, defaulting to 1. */
  function PageOf(q: ListQuery): Option<int> { ParseOr(q.page, 1) }

  /** The limit, defaulting to 50. */
  function LimitOf(q: ListQuery): Option<int> { ParseOr(q.limit, 50) }

  /** `(page - 1) * limit`; `None` stands for NaN. */
  function Offset(page: Option<int>, limit: Option<int>): Option<int> {
    if page.None? || limit.None? then None else Some((page.value - 1) * limit.value)
  }

  /** The exact ceiling of `a / b`. */
  function CeilDiv(a: int, b: int): int
    requires b != 0
  {
    if b > 0 then -((-a) / b) else -(a / (-b))
  }

  /** `Math.ceil(total / limit)`; `None` when it is not a finite number (NaN or a zero limit). */
  function Pages(total: Option<int>, limit: Option<int>): Option<int> {
    if total.None? || limit.None? || limit.value == 0 then None
    else Some(CeilDiv(total.value, limit.value))
  }

  /** With a positive limit the page count is the least number of pages that hold every row. */
  lemma PagesSpec(total: int, limit: int)
    requires total >= 0 && limit > 0
    ensures var p := Pages(Some(total), Some(limit));
      && p.Some? && p.value >= 0
      && p.value * limit >= total
      && (p.value - 1) * limit < total
  {
    var f := (-total) / limit;
    var m := (-total) % limit;
    assert -total == f * limit + m && 0 <= m < limit;
    assert CeilDiv(total, limit) == -f;
  }

  /** Without a page or a limit the first 50 rows are asked for; an integer given as text is read back. */
  lemma ParseOrSpec(q: ListQuery, n: int)
    ensures q.page.None? && q.limit.None? ==>
      PageOf(q) == Some(1) && LimitOf(q) == Some(50) && Offset(PageOf(q), LimitOf(q)) == Some(0)
    ensures q.page == Some(IntToString(n)) ==> PageOf(q) == Some(n)
    ensures q.limit == Some(IntToString(n)) ==> LimitOf(q) == Some(n)
  {
    ParseIntOfIntToString(n);
  }

  // ---------------------------------------------------------------------------
  // The handler

  /** The two statements, with the WHERE clause and its parameters. */
  datatype Statement =
    | SelectPage(whereClause: string, params: seq<Param>, limit: Option<int>, offset: Option<int>)
    | CountRows(whereClause: string, params: seq<Param>)

  /** What executing a statement yields: a value, or a thrown error and its message when it is an `Error`. */
  datatype DbResult<T> = Done(value: T) | Failed(message: Option<string>)

  datatype Pagination = Pagination(page: Option<int>, limit: Option<int>, total: Option<int>, pages: Option<int>)

  datatype ListResponse<R> = ListResponse(data: seq<R>, pagination: Pagination)

  /** `Number.parseInt(countResult[0]?.total || '0')`. */
  function TotalOf(count: Option<string>): Option<int> {
    if count.Some? && count.value != [] then ParseInt(count.value) else Some(0)
  }

  function ErrorOf<T>(r: DbResult<T>): HttpError
    requires r.Failed?
  {
    HttpError(500, if r.message.Some? then r.message.value else "Unknown error")
  }

  /** The WHERE clause of a query. */
  function WhereOf(q: ListQuery): string { WhereClause(RenderAll(Numbered(Clauses(q)))) }

  /** The page statement: `limit` rows from `offset`, filtered by the query's WHERE clause. */
  function SelectOf(q: ListQuery): Statement {
    SelectPage(WhereOf(q), ParamsOf(Clauses(q)), LimitOf(q), Offset(PageOf(q), LimitOf(q)))
  }

  /** The count statement, with the same WHERE clause and parameters. */
  function CountOf(q: ListQuery): Statement {
    CountRows(WhereOf(q), ParamsOf(Clauses(q)))
  }

  /** The handler: the page query, then the count query; any failure is a 500 with the error's message. */
  function Handle<R>(q: ListQuery, select: Statement -> DbResult<seq<R>>, count: Statement -> DbResult<Option<string>>)
    : Result<ListResponse<R>>
  {
    var rows := select(SelectOf(q));
    if rows.Failed? then Err(ErrorOf(rows))
    else
      var c := count(CountOf(q));
      if c.Failed? then Err(ErrorOf(c))
      else
        var total := TotalOf(c.value);
        Ok(ListResponse(rows.value, Pagination(PageOf(q), LimitOf(q), total, Pages(total, LimitOf(q)))))
  }

  /** The handler as the source runs it: the builder, then the two statements. */
  method HandleRequest<R>(q: ListQuery, select: Statement -> DbResult<seq<R>>,
                          count: Statement -> DbResult<Option<string>>)
    returns (r: Result<ListResponse<R>>)
    ensures r == Handle(q, select, count)
  {
    var conditions, params := BuildWhere(q);
    var whereClause := if |conditions| > 0 then "WHERE " + Join(conditions, " AND ") else "";
    assert whereClause == WhereOf(q);
    var page := PageOf(q);
    var limit := LimitOf(q);
    var offset := Offset(page, limit);
    var stmt := SelectPage(whereClause, params, limit, offset);
    assert stmt == SelectOf(q);
    var results := select(stmt);
    if results.Failed? {
      return Err(ErrorOf(results));
    }
    var countResult := count(CountRows(whereClause, params));
    if countResult.Failed? {
      return Err(ErrorOf(countResult));
    }
    var total := TotalOf(countResult.value);
    r := Ok(ListResponse(results.value, Pagination(page, limit, total, Pages(total, limit))));
  }

  /**
   * The answer is the page exactly when both statements succeed, and a 500
   * otherwise; the count query filters with the page query's WHERE clause
   * and parameters.
   */
  lemma HandleSpec<R>(q: ListQuery, select: Statement -> DbResult<seq<R>>, count: Statement -> DbResult<Option<string>>)
    ensures var r := Handle(q, select, count);
      && SelectOf(q).whereClause == CountOf(q).whereClause && SelectOf(q).params == CountOf(q).params
      && (r.Ok? <==> select(SelectOf(q)).Done? && count(CountOf(q)).Done?)
      && (r.Err? ==> r.error.statusCode == 500)
      && (r.Ok? ==>
            && r.value.data == select(SelectOf(q)).value
            && r.value.pagination.page == PageOf(q)
            && r.value.pagination.total == TotalOf(count(CountOf(q)).value)
            && r.value.pagination.pages == Pages(TotalOf(count(CountOf(q)).value), LimitOf(q)))
  {
  }
}

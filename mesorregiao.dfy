/**
 * The on-demand candidate query of a mesoregion page: the raw rows, the
 * loading flag and the error message, and the refresh that fills them.
 */
module Mesorregiao {
  import opened Wrappers
  import opened Regiao

  /** The message a failed refresh records: the returned error's message, or the thrown value as text. */
  function ErrorOf(o: QueryOutcome): Option<string> {
    match o
    case Rows(_) => None
    case FetchError(m) => Some(m)
    case Thrown(t) => Some(t)
  }

  class CandidatosRegiao {
    var candidatosRaw: seq<RegiaoRow>
    var loading: bool
    var error: Option<string>

    constructor()
      ensures candidatosRaw == [] && !loading && error == None
    {
      candidatosRaw := [];
      loading := false;
      error := None;
    }

    /** An error is only ever recorded together with empty rows. */
    predicate Valid()
      reads this
    {
      error.Some? ==> candidatosRaw == []
    }

    function Candidatos(): seq<CandidatoRegiao>
      reads this
    {
      Regiao.Candidatos(candidatosRaw)
    }

    function Stats(): StatsRegiao
      reads this
    {
      StatsOf(Candidatos())
    }

    /**
     * Without a state or without municipalities the rows are cleared and
     * nothing is fetched; otherwise the query's rows are kept, or the rows
     * are cleared and the error recorded, and loading ends.
     */
    method Refresh(nomes: seq<string>, uf: Option<string>, ano: int, cargo: Option<string>,
                   run: RegiaoQuery -> QueryOutcome)
      modifies this
      ensures Valid()
      ensures error.Some? ==> Candidatos() == [] && Stats() == StatsRegiao(0, 0, 0, "-", "-")
      ensures !Truthy(uf) || nomes == [] ==>
        candidatosRaw == [] && loading == old(loading) && error == old(error)
      ensures Truthy(uf) && nomes != [] ==>
        var o := run(QueryOf(uf.value, ano, nomes, cargo));
        candidatosRaw == RawOf(o) && error == ErrorOf(o) && !loading
    {
      if !Truthy(uf) || |nomes| == 0 {
        candidatosRaw := [];
        return;
      }
      loading := true;
      error := None;
      var o := run(QueryOf(uf.value, ano, nomes, cargo));
      match o {
        case FetchError(m) =>
          error := Some(m);
          candidatosRaw := [];
        case Thrown(t) =>
          error := Some(t);
          candidatosRaw := [];
        case Rows(rows) =>
          candidatosRaw := rows;
      }
      loading := false;
    }
  }
}

/**
 * The persistent state of a region query: the selected municipalities,
 * year and office, whether the query was started, and the raw result rows,
 * kept across navigations and reset when the mesoregion changes.
 */
module RegiaoConsulta {
  import opened Wrappers
  import opened Seqs
  import opened Regiao

  const AnoPadrao := 2024

  /** The municipalities of `ms` whose id is not `id`, in order. */
  function SemMunicipio(ms: seq<Municipio>, id: int): (r: seq<Municipio>)
    ensures forall i :: 0 <= i < |r| ==> r[i] in ms && r[i].id != id
    ensures forall i :: 0 <= i < |ms| && ms[i].id != id ==> ms[i] in r
  {
    if ms == [] then []
    else (if ms[0].id != id then [ms[0]] else []) + SemMunicipio(ms[1..], id)
  }

  /** Removing an id that is not selected changes nothing. */
  lemma {:induction false} SemMunicipioAbsent(ms: seq<Municipio>, id: int)
    requires forall i :: 0 <= i < |ms| ==> ms[i].id != id
    ensures SemMunicipio(ms, id) == ms
  {
    if ms != [] {
      SemMunicipioAbsent(ms[1..], id);
    }
  }

  /** Removing the same id twice is removing it once. */
  lemma SemMunicipioIdempotent(ms: seq<Municipio>, id: int)
    ensures SemMunicipio(SemMunicipio(ms, id), id) == SemMunicipio(ms, id)
  {
    var r := SemMunicipio(ms, id);
    SemMunicipioAbsent(r, id);
  }

  class Consulta {
    var mesorregiaoId: Option<int>
    var municipiosSelecionados: seq<Municipio>
    var anoSelecionado: int
    var cargoSelecionado: Option<string>
    var consultaIniciada: bool
    var candidatosRaw: seq<RegiaoRow>
    /** Local to the page, not part of the persisted state. */
    var loading: bool

    /** The default state, for mesoregion `id`. */
    predicate IsDefault(id: Option<int>)
      reads this
    {
      && mesorregiaoId == id && municipiosSelecionados == [] && anoSelecionado == AnoPadrao
      && cargoSelecionado == None && !consultaIniciada && candidatosRaw == []
    }

    constructor()
      ensures IsDefault(None) && !loading
    {
      mesorregiaoId := None;
      municipiosSelecionados := [];
      anoSelecionado := AnoPadrao;
      cargoSelecionado := None;
      consultaIniciada := false;
      candidatosRaw := [];
      loading := false;
    }

    /** Reset to the default state with the new id when it names another mesoregion. */
    method OnMesorregiaoChange(newId: Option<int>, oldId: Option<int>)
      modifies this
      ensures newId.Some? && newId != oldId && old(mesorregiaoId) != newId ==> IsDefault(newId)
      ensures !(newId.Some? && newId != oldId && old(mesorregiaoId) != newId) ==>
        unchanged(this)
      ensures loading == old(loading)
    {
      if newId.Some? && newId != oldId && mesorregiaoId != newId {
        mesorregiaoId := newId;
        municipiosSelecionados := [];
        anoSelecionado := AnoPadrao;
        cargoSelecionado := None;
        consultaIniciada := false;
        candidatosRaw := [];
      }
    }

    /** Fill an empty selection from a non-empty list, recording the current mesoregion. */
    method InitMunicipios(municipios: seq<Municipio>, currentId: Option<int>)
      modifies this
      ensures old(municipiosSelecionados) == [] && municipios != [] ==>
        municipiosSelecionados == municipios && mesorregiaoId == currentId
      ensures !(old(municipiosSelecionados) == [] && municipios != []) ==>
        municipiosSelecionados == old(municipiosSelecionados) && mesorregiaoId == old(mesorregiaoId)
      ensures anoSelecionado == old(anoSelecionado) && cargoSelecionado == old(cargoSelecionado)
      ensures consultaIniciada == old(consultaIniciada) && candidatosRaw == old(candidatosRaw)
      ensures loading == old(loading)
    {
      if |municipiosSelecionados| == 0 && |municipios| > 0 {
        municipiosSelecionados := municipios;
        mesorregiaoId := currentId;
      }
    }

    method RemoverMunicipio(mun: Municipio)
      modifies this`municipiosSelecionados
      ensures municipiosSelecionados == SemMunicipio(old(municipiosSelecionados), mun.id)
    {
      municipiosSelecionados := SemMunicipio(municipiosSelecionados, mun.id);
    }

    method RestaurarTodos(municipios: seq<Municipio>)
      modifies this`municipiosSelecionados
      ensures municipiosSelecionados == municipios
    {
      municipiosSelecionados := municipios;
    }

    method MarcarConsultaIniciada()
      modifies this`consultaIniciada
      ensures consultaIniciada
    {
      consultaIniciada := true;
    }

    method ResetState()
      modifies this
      ensures IsDefault(None) && loading == old(loading)
    {
      mesorregiaoId := None;
      municipiosSelecionados := [];
      anoSelecionado := AnoPadrao;
      cargoSelecionado := None;
      consultaIniciada := false;
      candidatosRaw := [];
    }

    /**
     * Without a state or names the rows are cleared and nothing is fetched;
     * otherwise the query for the selected year and office is run and its
     * rows kept, or the rows cleared when it fails. No error is recorded.
     */
    method BuscarCandidatos(uf: Option<string>, nomes: seq<string>, run: RegiaoQuery -> QueryOutcome)
      modifies this`candidatosRaw, this`loading
      ensures !Truthy(uf) || nomes == [] ==> candidatosRaw == [] && loading == old(loading)
      ensures Truthy(uf) && nomes != [] ==>
        candidatosRaw == RawOf(run(QueryOf(uf.value, anoSelecionado, nomes, cargoSelecionado))) && !loading
    {
      if !Truthy(uf) || |nomes| == 0 {
        candidatosRaw := [];
        return;
      }
      loading := true;
      var o := run(QueryOf(uf.value, anoSelecionado, nomes, cargoSelecionado));
      if o.Rows? {
        candidatosRaw := o.rows;
      } else {
        candidatosRaw := [];
      }
      loading := false;
    }

    function Candidatos(): seq<CandidatoRegiao>
      reads this
    {
      Regiao.Candidatos(candidatosRaw)
    }

    function Stats(): StatsRegiao
      reads this
    {
      StatsOf(Candidatos())
    }
  }
}

/**
 * The selected candidate shared between pages: a single slot that a page
 * fills before navigating and the candidate page reads back, only when the
 * slug it was opened with matches the stored candidate's name.
 */
module CandidatoSelecionado {
  import opened Wrappers
  import opened Slug

  datatype Candidato = Candidato(
    nmCandidato: string, nmUrnaCandidato: string, sgUf: string,
    sgPartido: Option<string>, dsCargo: Option<string>, anoEleicao: Option<int>)

  class Selecao {
    var candidato: Option<Candidato>

    /** The slot starts empty. */
    constructor()
      ensures candidato == None
    {
      candidato := None;
    }

    /** `getCandidatoBySlug`: the stored candidate when its slugified name is the given slug. */
    function CandidatoBySlug(nomeSlug: string): (r: Option<Candidato>)
      reads this
      ensures r.Some? <==> candidato.Some? && Slugify(candidato.value.nmCandidato) == nomeSlug
      ensures r.Some? ==> r == candidato
    {
      if candidato.Some? && Slugify(candidato.value.nmCandidato) == nomeSlug then candidato else None
    }

    method SetCandidato(c: Candidato)
      modifies this
      ensures candidato == Some(c)
      ensures CandidatoBySlug(Slugify(c.nmCandidato)) == Some(c)
    {
      candidato := Some(c);
    }

    method ClearCandidato()
      modifies this
      ensures candidato == None
      ensures forall s :: CandidatoBySlug(s) == None
    {
      candidato := None;
    }
  }

  /**
   * A page that stores a candidate and navigates to the slug generated from
   * its state and name finds the candidate again: parsing that slug yields
   * the slug of the name, which is what the lookup compares against.
   */
  lemma SelectedFoundByGeneratedSlug(sel: Selecao, c: Candidato)
    requires sel.candidato == Some(c) && IsUfCode(c.sgUf)
    ensures var parts := ParseCandidatoSlug(GenerateCandidatoSlug(c.sgUf, c.nmCandidato));
      parts.Some? && sel.CandidatoBySlug(parts.value.nomeSlug) == Some(c)
  {
    ParseGeneratedSlug(c.sgUf, c.nmCandidato);
  }
}

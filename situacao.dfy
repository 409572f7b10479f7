/**
 * Classifiers over the election-result status text (`ds_sit_tot_turno`,
 * e.g. "ELEITO POR QP", "ELEITO POR MÉDIA", "NÃO ELEITO", "SUPLENTE",
 * "2º TURNO"). Every check is a substring test on the upper-cased status.
 */
module Situacao {
  import opened Text

  /** `isEleito` of the cutoff-block analysis. */
  predicate IsEleito(sit: string) {
    var upper := Upper(sit);
    (Contains(upper, "ELEITO") || Contains(upper, "MÉDIA") || Contains(upper, "QP"))
    && !Contains(upper, "NÃO ELEITO")
  }

  /** What the candidate page counts as a victory (`vitorias`). */
  predicate IsVitoria(sit: string) {
    var upper := Upper(sit);
    Contains(upper, "ELEITO") && !Contains(upper, "NÃO ELEITO")
  }

  /** Every victory of the candidate page is an election for the analysis. */
  lemma VitoriaIsEleito(sit: string)
    ensures IsVitoria(sit) ==> IsEleito(sit)
  {
  }

  /** The converse fails: a bare "QP" status is elected for the analysis only. */
  lemma QpIsEleitoButNotVitoria()
    ensures IsEleito("QP") && !IsVitoria("QP")
  {
    assert Upper("QP") == "QP";
    assert Contains("QP", "QP");
    assert !Contains("QP", "ELEITO");
  }

  /** `getSituacaoColor`: the chip colour of a status. */
  function GetSituacaoColor(situacao: string): string {
    if situacao == [] then "grey"
    else
      var s := Upper(situacao);
      if Contains(s, "NÃO ELEITO") then "error"
      else if Contains(s, "SUPLENTE") then "grey"
      else if Contains(s, "2º TURNO") then "warning"
      else if Contains(s, "ELEITO") then "success"
      else "grey"
  }

  /** `formatSituacao`: the status label, empty when it is not to be shown. */
  function FormatSituacao(situacao: string): string {
    if situacao == [] then "—"
    else
      var s := Upper(situacao);
      if Contains(s, "NÃO ELEITO") then ""
      else if Contains(s, "SUPLENTE") then "SUPLENTE"
      else if Contains(s, "2º TURNO") then "2º TURNO"
      else if Contains(s, "ELEITO") then "ELEITO"
      else ""
  }

  /** `'NÃO ELEITO'` contains `'ELEITO'`, yet it is checked first: red chip, no label. */
  lemma NaoEleitoIsError(situacao: string)
    requires Contains(Upper(situacao), "NÃO ELEITO")
    ensures Contains(Upper(situacao), "ELEITO")
    ensures GetSituacaoColor(situacao) == "error" && FormatSituacao(situacao) == ""
  {
    var s := Upper(situacao);
    NaoEleitoContainsEleito(s);
  }

  lemma {:induction false} NaoEleitoContainsEleito(s: string)
    requires Contains(s, "NÃO ELEITO")
    ensures Contains(s, "ELEITO")
    decreases |s|
  {
    if s[..|"NÃO ELEITO"|] == "NÃO ELEITO" {
      assert s[4..4 + |"ELEITO"|] == "ELEITO";
      ContainsAt(s, "ELEITO", 4);
    } else {
      NaoEleitoContainsEleito(s[1..]);
      var i := FindIn(s[1..], "ELEITO");
      assert s[i + 1..i + 1 + |"ELEITO"|] == s[1..][i..i + |"ELEITO"|];
      ContainsAt(s, "ELEITO", i + 1);
    }
  }

  /** Where `sub` occurs in `s`. */
  lemma {:induction false} FindIn(s: string, sub: string) returns (i: nat)
    requires Contains(s, sub)
    ensures i + |sub| <= |s| && s[i..i + |sub|] == sub
    decreases |s|
  {
    if s[..|sub|] == sub {
      i := 0;
    } else {
      var j := FindIn(s[1..], sub);
      assert s[j + 1..j + 1 + |sub|] == s[1..][j..j + |sub|];
      i := j + 1;
    }
  }

  /**
   * The label and the colour follow the same order of checks: the label is
   * "ELEITO" exactly when the chip is green, "2º TURNO" exactly when it is
   * amber, and a red chip has no label.
   */
  lemma FormatAgreesWithColor(situacao: string)
    ensures FormatSituacao(situacao) == "ELEITO" <==> GetSituacaoColor(situacao) == "success"
    ensures FormatSituacao(situacao) == "2º TURNO" <==> GetSituacaoColor(situacao) == "warning"
    ensures GetSituacaoColor(situacao) == "error" ==> FormatSituacao(situacao) == ""
  {
  }

  /** A green chip is a victory for the candidate page and an election for the analysis. */
  lemma SuccessIsVitoria(situacao: string)
    ensures GetSituacaoColor(situacao) == "success" ==> IsVitoria(situacao) && IsEleito(situacao)
  {
  }
}

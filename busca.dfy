/**
 * `aggregateCandidatos`, shared by the suggestions endpoint (at most 15
 * results) and the candidate search (at most 50): zone-level rows of the
 * same candidate in the same contest collapse into one record whose votes
 * are the sum, and the records are sorted by votes, most first.
 */
module Busca {
  import opened Wrappers
  import opened Text
  import opened Seqs
  import opened Grouping

  /**
   * A raw row as the query returns it. A missing or non-numeric vote count
   * is `None`, and so is a missing `nr_turno` or `nm_municipio`.
   */
  datatype RawRow = RawRow(
    nmCandidato: string, nmUrnaCandidato: string, sgPartido: string, dsCargo: string,
    anoEleicao: int, sgUf: string, qtVotosNominais: Option<int>, dsSitTotTurno: string,
    nrTurno: Option<int>, nmMunicipio: Option<string>)

  datatype CandidatoBusca = CandidatoBusca(
    nmCandidato: string, nmUrnaCandidato: string, sgPartido: string, dsCargo: string,
    anoEleicao: int, sgUf: string, qtVotosNominais: int, dsSitTotTurno: string,
    nrTurno: Option<int>, nmMunicipio: Option<string>)

  /** `(d.qt_votos_nominais as number) || 0`. */
  function VotosOrZero(v: Option<int>): int {
    if v.Some? then v.value else 0
  }

  /** How a template literal renders an optional number. */
  function RenderInt(v: Option<int>): string {
    if v.Some? then IntToString(v.value) else "undefined"
  }

  /** `${nm_urna}-${ano}-${cargo}-${uf}-${turno}` of a record. */
  function Chave(urna: string, ano: int, cargo: string, uf: string, turno: Option<int>): string {
    urna + "-" + IntToString(ano) + "-" + cargo + "-" + uf + "-" + RenderInt(turno)
  }

  function RowKey(d: RawRow): string {
    Chave(d.nmUrnaCandidato, d.anoEleicao, d.dsCargo, d.sgUf, d.nrTurno)
  }

  function RecordKey(c: CandidatoBusca): string {
    Chave(c.nmUrnaCandidato, c.anoEleicao, c.dsCargo, c.sgUf, c.nrTurno)
  }

  /** A row as a record, `{...d, qt_votos_nominais: (d.qt_votos_nominais as number) || 0}`. */
  function ToBusca(d: RawRow): CandidatoBusca {
    CandidatoBusca(d.nmCandidato, d.nmUrnaCandidato, d.sgPartido, d.dsCargo, d.anoEleicao, d.sgUf,
      VotosOrZero(d.qtVotosNominais), d.dsSitTotTurno, d.nrTurno, d.nmMunicipio)
  }

  /** The record a first row starts: it has no municipality. */
  function BuscaInit(d: RawRow): CandidatoBusca {
    ToBusca(d).(nmMunicipio := None)
  }

  function BuscaStep(c: CandidatoBusca, d: RawRow): CandidatoBusca {
    c.(qtVotosNominais := c.qtVotosNominais + VotosOrZero(d.qtVotosNominais))
  }

  function VotosKey(c: CandidatoBusca): real { c.qtVotosNominais as real }
  function RecordVotos(c: CandidatoBusca): int { c.qtVotosNominais }
  function RowVotos(d: RawRow): int { VotosOrZero(d.qtVotosNominais) }

  /** All records, most votes first. */
  function Agrupados(raw: seq<RawRow>): seq<CandidatoBusca> {
    SortDesc(Values(GroupRows(raw, RowKey, BuscaInit, BuscaStep)), VotosKey)
  }

  /** `aggregateCandidatos` with its `slice(0, limit)`. */
  function Agregados(raw: seq<RawRow>, limit: nat): seq<CandidatoBusca> {
    Take(Agrupados(raw), limit)
  }

  /** The aggregation loop, the sort and the slice. */
  method AggregateCandidatos(raw: seq<RawRow>, limit: nat) returns (r: seq<CandidatoBusca>)
    ensures r == Agregados(raw, limit)
  {
    var grouped := Aggregate(raw, RowKey, BuscaInit, BuscaStep);
    r := Take(SortDesc(Values(grouped), VotosKey), limit);
  }

  /** The fields a record keeps from its first row. */
  function RecordFields(c: CandidatoBusca): (string, string, string, string, int, string, string, Option<int>, Option<string>) {
    (c.nmCandidato, c.nmUrnaCandidato, c.sgPartido, c.dsCargo, c.anoEleicao, c.sgUf, c.dsSitTotTurno, c.nrTurno, c.nmMunicipio)
  }

  function FirstRowFields(d: RawRow): (string, string, string, string, int, string, string, Option<int>, Option<string>) {
    (d.nmCandidato, d.nmUrnaCandidato, d.sgPartido, d.dsCargo, d.anoEleicao, d.sgUf, d.dsSitTotTurno, d.nrTurno, None)
  }

  /** `r` is the record of the rows with its key: their summed votes, the rest from the first of them. */
  predicate IsRecordOf(raw: seq<RawRow>, r: CandidatoBusca) {
    var rs := RowsWithKey(raw, RowKey, RecordKey(r));
    && rs != []
    && r.qtVotosNominais == Sum(rs, RowVotos)
    && RecordFields(r) == FirstRowFields(rs[0])
  }

  /** Some record has the key of row `d`. */
  predicate HasKeyOf(rs: seq<CandidatoBusca>, d: RawRow) {
    exists i :: 0 <= i < |rs| && RecordKey(rs[i]) == RowKey(d)
  }

  /**
   * Before the slice: one record per key, each the sum of its rows, most
   * votes first, every row's key present, and all votes kept.
   */
  lemma AgrupadosSpec(raw: seq<RawRow>)
    ensures var s := Agrupados(raw);
      && SortedDesc(s, VotosKey)
      && DistinctKeys(s, RecordKey)
      && (forall i :: 0 <= i < |s| ==> IsRecordOf(raw, s[i]))
      && (forall k :: 0 <= k < |raw| ==> HasKeyOf(s, raw[k]))
      && Sum(s, RecordVotos) == Sum(raw, RowVotos)
  {
    var gs := GroupRows(raw, RowKey, BuscaInit, BuscaStep);
    var vs := Values(gs);
    var s := Agrupados(raw);
    SortDescSpec(vs, VotosKey);
    GroupRowsKeys(raw, RowKey, BuscaInit, BuscaStep);
    GroupAccKey(raw, RowKey, BuscaInit, BuscaStep, RecordKey);
    GroupSums(raw, RowKey, BuscaInit, BuscaStep, RecordVotos, RowVotos);
    GroupKeepsFirst(raw, RowKey, BuscaInit, BuscaStep, RecordFields, FirstRowFields);
    GroupTotal(raw, RowKey, BuscaInit, BuscaStep, RecordVotos, RowVotos);
    SumPermutation(vs, s, RecordVotos);
    assert DistinctKeys(vs, RecordKey) by {
      forall i, j | 0 <= i < j < |vs| ensures RecordKey(vs[i]) != RecordKey(vs[j]) {
        assert RecordKey(vs[i]) == gs[i].key && RecordKey(vs[j]) == gs[j].key;
      }
    }
    DistinctKeysPermutation(vs, s, RecordKey);
    forall i | 0 <= i < |s| ensures IsRecordOf(raw, s[i]) {
      var j := IndexOf(vs, s[i]);
      assert RecordKey(vs[j]) == gs[j].key;
    }
    forall k | 0 <= k < |raw| ensures HasKeyOf(s, raw[k]) {
      assert raw[k] in raw;
      var g := IndexOfKey(gs, RowKey(raw[k]));
      assert vs[g] in multiset(s);
      var i := IndexOf(s, vs[g]);
      assert RecordKey(vs[g]) == gs[g].key;
    }
  }

  /**
   * After the slice: `limit` records, or one per distinct key when there are
   * fewer keys, still sorted and one per key, and a row whose key was cut off
   * has no more votes than any kept record.
   */
  lemma AgregadosSpec(raw: seq<RawRow>, limit: nat)
    ensures var r := Agregados(raw, limit);
      var n := |Distinct(RowKeys(raw, RowKey))|;
      && |r| == (if limit < n then limit else n)
      && SortedDesc(r, VotosKey)
      && DistinctKeys(r, RecordKey)
      && (forall i :: 0 <= i < |r| ==> IsRecordOf(raw, r[i]))
      && (forall k :: 0 <= k < |raw| && !HasKeyOf(r, raw[k]) ==>
            forall i :: 0 <= i < |r| ==> r[i].qtVotosNominais >= Sum(RowsWithKey(raw, RowKey, RowKey(raw[k])), RowVotos))
  {
    AgregadosCount(raw, limit);
    AgregadosShape(raw, limit);
    AgregadosCutoff(raw, limit);
  }

  /**
   * The slice keeps the records with the most votes: a prefix of the sorted
   * aggregate, as long as the limit or the number of distinct keys, whichever
   * is smaller.
   */
  lemma AgregadosCount(raw: seq<RawRow>, limit: nat)
    ensures var r := Agregados(raw, limit);
      var n := |Distinct(RowKeys(raw, RowKey))|;
      && |r| == (if limit < n then limit else n)
      && r == Agrupados(raw)[..|r|]
  {
    var gs := GroupRows(raw, RowKey, BuscaInit, BuscaStep);
    GroupKeys(raw, RowKey, BuscaInit, BuscaStep);
    SortDescSpec(Values(gs), VotosKey);
    assert |Agrupados(raw)| == |Keys(gs)|;
  }

  lemma AgregadosShape(raw: seq<RawRow>, limit: nat)
    ensures var r := Agregados(raw, limit);
      && |r| <= limit
      && SortedDesc(r, VotosKey)
      && DistinctKeys(r, RecordKey)
      && (forall i :: 0 <= i < |r| ==> IsRecordOf(raw, r[i]))
  {
    var s := Agrupados(raw);
    var r := Agregados(raw, limit);
    AgrupadosSpec(raw);
    assert forall i :: 0 <= i < |r| ==> r[i] == s[i];
  }

  lemma AgregadosCutoff(raw: seq<RawRow>, limit: nat)
    ensures var r := Agregados(raw, limit);
      forall k :: 0 <= k < |raw| && !HasKeyOf(r, raw[k]) ==>
        forall i :: 0 <= i < |r| ==> r[i].qtVotosNominais >= Sum(RowsWithKey(raw, RowKey, RowKey(raw[k])), RowVotos)
  {
    var s := Agrupados(raw);
    var r := Agregados(raw, limit);
    AgrupadosSpec(raw);
    forall k | 0 <= k < |raw| && !HasKeyOf(r, raw[k])
      ensures forall i :: 0 <= i < |r| ==> r[i].qtVotosNominais >= Sum(RowsWithKey(raw, RowKey, RowKey(raw[k])), RowVotos)
    {
      PrefixCutoff(raw, s, r, k);
    }
  }

  /** A row whose key is missing from a prefix of the sorted records has no more votes than any record kept. */
  lemma PrefixCutoff(raw: seq<RawRow>, s: seq<CandidatoBusca>, r: seq<CandidatoBusca>, k: nat)
    requires SortedDesc(s, VotosKey) && |r| <= |s| && r == s[..|r|]
    requires forall i :: 0 <= i < |s| ==> IsRecordOf(raw, s[i])
    requires k < |raw| && HasKeyOf(s, raw[k]) && !HasKeyOf(r, raw[k])
    ensures forall i :: 0 <= i < |r| ==> r[i].qtVotosNominais >= Sum(RowsWithKey(raw, RowKey, RowKey(raw[k])), RowVotos)
  {
    var p :| 0 <= p < |s| && RecordKey(s[p]) == RowKey(raw[k]);
    assert IsRecordOf(raw, s[p]);
    forall i | 0 <= i < |r| ensures RecordKey(s[i]) != RowKey(raw[k]) {
      assert r[i] == s[i];
    }
    assert p >= |r|;
    forall i | 0 <= i < |r| ensures r[i].qtVotosNominais >= s[p].qtVotosNominais {
      assert r[i] == s[i];
      assert VotosKey(s[i]) >= VotosKey(s[p]);
    }
  }
}

/**
 * What the cutoff-block analysis promises: the ranking is an ordering of the
 * per-candidate totals with positions 1..N, the block is a prefix of it, the
 * competitors are the nearest candidates of their kind, the party table adds
 * up to the block, and no analysis is produced without seats or without the
 * analysed candidate.
 */
module AnaliseSpec {
  import opened Wrappers
  import opened Seqs
  import opened Grouping
  import opened Situacao
  import opened Analise

  // ---------------------------------------------------------------------------
  // The per-candidate totals

  /** The fields a total takes from the first row of its candidate. */
  function TotalFields(c: CandidatoTotal): (string, string, string, string) {
    (c.nmUrnaCandidato, c.nmCandidato, c.sgPartido, c.dsSitTotTurno)
  }

  function RowFields(r: FieldRow): (string, string, string, string) {
    (r.nmUrnaCandidato, r.nmCandidato, r.sgPartido, r.dsSitTotTurno)
  }

  /** `c` aggregates the rows of its candidate: their summed votes and the first row's data. */
  predicate IsTotalOf(rows: seq<FieldRow>, c: CandidatoTotal) {
    var rs := RowsWithKey(rows, CandKey, c.sqCandidato);
    rs != [] && c.totalVotos == Sum(rs, RowVotes) && TotalFields(c) == RowFields(rs[0])
  }

  /** Some total belongs to candidate `sq`. */
  predicate HasTotal(ts: seq<CandidatoTotal>, sq: int) {
    exists i :: 0 <= i < |ts| && ts[i].sqCandidato == sq
  }

  /** One total per candidate of the field, each the aggregate of its rows. */
  lemma TotalsSpec(rows: seq<FieldRow>)
    ensures |Totals(rows)| <= |rows|
    ensures DistinctKeys(Totals(rows), TotalSq)
    ensures forall i :: 0 <= i < |Totals(rows)| ==> IsTotalOf(rows, Totals(rows)[i])
    ensures forall k :: 0 <= k < |rows| ==> HasTotal(Totals(rows), rows[k].sqCandidato)
  {
    var gs := GroupRows(rows, CandKey, CandInit, CandStep);
    var ts := Totals(rows);
    GroupRowsKeys(rows, CandKey, CandInit, CandStep);
    GroupAccKey(rows, CandKey, CandInit, CandStep, TotalSq);
    GroupSums(rows, CandKey, CandInit, CandStep, TotalVotes, RowVotes);
    GroupKeepsFirst(rows, CandKey, CandInit, CandStep, TotalFields, RowFields);
    forall i | 0 <= i < |ts| ensures IsTotalOf(rows, ts[i]) {
      assert ts[i] == gs[i].acc && TotalSq(gs[i].acc) == gs[i].key;
    }
    forall i, j | 0 <= i < j < |ts| ensures TotalSq(ts[i]) != TotalSq(ts[j]) {
      assert TotalSq(gs[i].acc) == gs[i].key && TotalSq(gs[j].acc) == gs[j].key;
    }
    forall k | 0 <= k < |rows| ensures HasTotal(ts, rows[k].sqCandidato) {
      assert rows[k] in rows;
      var i := IndexOfKey(gs, CandKey(rows[k]));
      assert TotalSq(ts[i]) == gs[i].key;
    }
  }

  /** Sorting keeps all of that and orders the totals by votes. */
  lemma OrderedSpec(rows: seq<FieldRow>)
    ensures |Ordered(rows)| == |Totals(rows)| <= |rows|
    ensures SortedDesc(Ordered(rows), TotalKey)
    ensures multiset(Ordered(rows)) == multiset(Totals(rows))
    ensures DistinctKeys(Ordered(rows), TotalSq)
    ensures forall i :: 0 <= i < |Ordered(rows)| ==> IsTotalOf(rows, Ordered(rows)[i])
    ensures forall k :: 0 <= k < |rows| ==> HasTotal(Ordered(rows), rows[k].sqCandidato)
    ensures Ordered(rows) == [] <==> rows == []
  {
    var ts := Totals(rows);
    var os := Ordered(rows);
    TotalsSpec(rows);
    SortDescSpec(ts, TotalKey);
    DistinctKeysPermutation(ts, os, TotalSq);
    forall i | 0 <= i < |os| ensures IsTotalOf(rows, os[i]) {
      var j := IndexOf(ts, os[i]);
    }
    forall k | 0 <= k < |rows| ensures HasTotal(os, rows[k].sqCandidato) {
      assert HasTotal(ts, rows[k].sqCandidato);
      var j :| 0 <= j < |ts| && ts[j].sqCandidato == rows[k].sqCandidato;
      var i := IndexOf(os, ts[j]);
    }
    if rows != [] {
      assert HasTotal(os, rows[0].sqCandidato);
    }
  }

  /**
   * The ranking: positions are exactly 1..N, votes never increase with the
   * position, every candidate of the field appears once, with the votes of
   * all its rows and the data of its first row, and the elected flag is
   * `isEleito` of that status.
   */
  lemma RankingSpec(rows: seq<FieldRow>, uf: string)
    ensures var ranked := Ranked(Ordered(rows), uf);
      && |ranked| <= |rows|
      && (ranked == [] <==> rows == [])
      && (forall i :: 0 <= i < |ranked| ==> ranked[i].posicao == i + 1)
      && (forall i, j :: 0 <= i < j < |ranked| ==> ranked[i].totalVotos >= ranked[j].totalVotos)
      && DistinctKeys(ranked, BlocoSq)
      && (forall k :: 0 <= k < |rows| ==>
            exists i :: 0 <= i < |ranked| && ranked[i].sqCandidato == rows[k].sqCandidato)
      && (forall i :: 0 <= i < |ranked| ==>
            var rs := RowsWithKey(rows, CandKey, ranked[i].sqCandidato);
            && rs != []
            && ranked[i].totalVotos == Sum(rs, RowVotes)
            && ranked[i].sgPartido == rs[0].sgPartido
            && ranked[i].nmCandidato == rs[0].nmCandidato
            && ranked[i].dsSitTotTurno == rs[0].dsSitTotTurno
            && ranked[i].eleito == IsEleito(rs[0].dsSitTotTurno)
            && ranked[i].sgUf == uf)
  {
    RankedOrder(rows, uf);
    RankedRows(rows, uf);
  }

  /** The ranking's length, positions, vote order and distinct candidates. */
  lemma RankedOrder(rows: seq<FieldRow>, uf: string)
    ensures var ranked := Ranked(Ordered(rows), uf);
      && |ranked| <= |rows|
      && (ranked == [] <==> rows == [])
      && (forall i :: 0 <= i < |ranked| ==> ranked[i].posicao == i + 1)
      && (forall i, j :: 0 <= i < j < |ranked| ==> ranked[i].totalVotos >= ranked[j].totalVotos)
      && DistinctKeys(ranked, BlocoSq)
  {
    var os := Ordered(rows);
    var ranked := Ranked(os, uf);
    OrderedSpec(rows);
    forall i, j | 0 <= i < j < |ranked| ensures BlocoSq(ranked[i]) != BlocoSq(ranked[j]) {
      assert TotalSq(os[i]) != TotalSq(os[j]);
    }
    forall i, j | 0 <= i < j < |ranked| ensures ranked[i].totalVotos >= ranked[j].totalVotos {
      assert TotalKey(os[i]) >= TotalKey(os[j]);
    }
  }

  /** Every candidate of the field is ranked, each entry with the data and votes of its rows. */
  lemma RankedRows(rows: seq<FieldRow>, uf: string)
    ensures var ranked := Ranked(Ordered(rows), uf);
      && (forall k :: 0 <= k < |rows| ==>
            exists i :: 0 <= i < |ranked| && ranked[i].sqCandidato == rows[k].sqCandidato)
      && (forall i :: 0 <= i < |ranked| ==>
            var rs := RowsWithKey(rows, CandKey, ranked[i].sqCandidato);
            && rs != []
            && ranked[i].totalVotos == Sum(rs, RowVotes)
            && ranked[i].sgPartido == rs[0].sgPartido
            && ranked[i].nmCandidato == rs[0].nmCandidato
            && ranked[i].dsSitTotTurno == rs[0].dsSitTotTurno
            && ranked[i].eleito == IsEleito(rs[0].dsSitTotTurno)
            && ranked[i].sgUf == uf)
  {
    RankedCovers(rows, uf);
    RankedTotals(rows, uf);
  }

  /** Every candidate of the field has an entry in the ranking. */
  lemma RankedCovers(rows: seq<FieldRow>, uf: string)
    ensures var ranked := Ranked(Ordered(rows), uf);
      forall k :: 0 <= k < |rows| ==>
        exists i :: 0 <= i < |ranked| && ranked[i].sqCandidato == rows[k].sqCandidato
  {
    var os := Ordered(rows);
    var ranked := Ranked(os, uf);
    OrderedSpec(rows);
    forall k | 0 <= k < |rows|
      ensures exists i :: 0 <= i < |ranked| && ranked[i].sqCandidato == rows[k].sqCandidato
    {
      assert HasTotal(os, rows[k].sqCandidato);
      var i :| 0 <= i < |os| && os[i].sqCandidato == rows[k].sqCandidato;
      assert ranked[i].sqCandidato == os[i].sqCandidato;
    }
  }

  /** Every entry of the ranking carries the total and the first record of its candidate's rows. */
  lemma RankedTotals(rows: seq<FieldRow>, uf: string)
    ensures var ranked := Ranked(Ordered(rows), uf);
      forall i :: 0 <= i < |ranked| ==>
        var rs := RowsWithKey(rows, CandKey, ranked[i].sqCandidato);
        && rs != []
        && ranked[i].totalVotos == Sum(rs, RowVotes)
        && ranked[i].sgPartido == rs[0].sgPartido
        && ranked[i].nmCandidato == rs[0].nmCandidato
        && ranked[i].dsSitTotTurno == rs[0].dsSitTotTurno
        && ranked[i].eleito == IsEleito(rs[0].dsSitTotTurno)
        && ranked[i].sgUf == uf
  {
    var os := Ordered(rows);
    var ranked := Ranked(os, uf);
    OrderedSpec(rows);
    forall i | 0 <= i < |ranked|
      ensures var rs := RowsWithKey(rows, CandKey, ranked[i].sqCandidato);
        && rs != []
        && ranked[i].totalVotos == Sum(rs, RowVotes)
        && ranked[i].sgPartido == rs[0].sgPartido
        && ranked[i].nmCandidato == rs[0].nmCandidato
        && ranked[i].dsSitTotTurno == rs[0].dsSitTotTurno
        && ranked[i].eleito == IsEleito(rs[0].dsSitTotTurno)
    {
      assert IsTotalOf(rows, os[i]);
    }
  }


  // ---------------------------------------------------------------------------
  // The block size

  /** More seats never shrink the block. */
  lemma BlockSizeMonotone(a: nat, b: nat)
    requires a <= b
    ensures BlockSize(a) <= BlockSize(b)
  {
  }

  /**
   * The block holds `vagas + 5` entries up to ten seats, and half of
   * `3 * vagas` rounded up from there on.
   */
  lemma BlockSizeClosedForm(vagas: nat)
    ensures BlockSize(vagas) == if vagas <= 10 then vagas + 5 else (3 * vagas + 1) / 2
  {
  }

  // ---------------------------------------------------------------------------
  // When there is no analysis

  lemma VagasZero(ranked: seq<CandidatoBloco>)
    ensures Vagas(ranked) == 0 <==> forall i :: 0 <= i < |ranked| ==> !ranked[i].eleito
  {
    var f := Filter(ranked, Elected);
    if f != [] {
      assert f[0] in ranked;
    }
  }

  /** No ranked entry is elected exactly when no candidate total has an elected status. */
  lemma NoneElected(rows: seq<FieldRow>, uf: string)
    ensures (forall i :: 0 <= i < |Ranked(Ordered(rows), uf)| ==> !Ranked(Ordered(rows), uf)[i].eleito)
        <==> (forall j :: 0 <= j < |Totals(rows)| ==> !IsEleito(Totals(rows)[j].dsSitTotTurno))
  {
    ElectedEntryHasTotal(rows, uf);
    ElectedTotalHasEntry(rows, uf);
  }

  lemma ElectedEntryHasTotal(rows: seq<FieldRow>, uf: string)
    ensures (exists i :: 0 <= i < |Ranked(Ordered(rows), uf)| && Ranked(Ordered(rows), uf)[i].eleito)
        ==> (exists j :: 0 <= j < |Totals(rows)| && IsEleito(Totals(rows)[j].dsSitTotTurno))
  {
    var ts := Totals(rows);
    var os := Ordered(rows);
    var ranked := Ranked(os, uf);
    if exists i :: 0 <= i < |ranked| && ranked[i].eleito {
      OrderedSpec(rows);
      var i :| 0 <= i < |ranked| && ranked[i].eleito;
      var j := IndexOf(ts, os[i]);
      assert IsEleito(ts[j].dsSitTotTurno);
    }
  }

  lemma ElectedTotalHasEntry(rows: seq<FieldRow>, uf: string)
    ensures (exists j :: 0 <= j < |Totals(rows)| && IsEleito(Totals(rows)[j].dsSitTotTurno))
        ==> (exists i :: 0 <= i < |Ranked(Ordered(rows), uf)| && Ranked(Ordered(rows), uf)[i].eleito)
  {
    var ts := Totals(rows);
    var os := Ordered(rows);
    var ranked := Ranked(os, uf);
    if exists j :: 0 <= j < |ts| && IsEleito(ts[j].dsSitTotTurno) {
      OrderedSpec(rows);
      var j :| 0 <= j < |ts| && IsEleito(ts[j].dsSitTotTurno);
      var i := IndexOf(os, ts[j]);
      assert ranked[i].eleito;
    }
  }


  /** The analysed candidate is missing from the ranking exactly when no row of the field is theirs. */
  lemma TargetAbsent(rows: seq<FieldRow>, uf: string, sqs: seq<int>)
    ensures TargetIndex(Ranked(Ordered(rows), uf), sqs) == |Ranked(Ordered(rows), uf)|
        <==> forall k :: 0 <= k < |rows| ==> rows[k].sqCandidato !in sqs
  {
    var ranked := Ranked(Ordered(rows), uf);
    var t := TargetIndex(ranked, sqs);
    RankingSpec(rows, uf);
    if t < |ranked| {
      var rs := RowsWithKey(rows, CandKey, ranked[t].sqCandidato);
      RowsWithKeyMember(rows, CandKey, ranked[t].sqCandidato);
      assert rs[0] in rows;
    }
    if exists k :: 0 <= k < |rows| && rows[k].sqCandidato in sqs {
      var k :| 0 <= k < |rows| && rows[k].sqCandidato in sqs;
      var i :| 0 <= i < |ranked| && ranked[i].sqCandidato == rows[k].sqCandidato;
      assert t <= i;
    }
  }

  /**
   * `null` exactly when the field could not be fetched, is empty, elects
   * nobody, or has no row of the analysed candidate.
   */
  lemma AnalisarIsNull(e: Eleicao, field: Option<seq<FieldRow>>, sqs: seq<int>, partido: string, uf: string)
    ensures Analisar(e, field, sqs, partido, uf).None? <==>
      || field.None?
      || field.value == []
      || (forall j :: 0 <= j < |Totals(field.value)| ==> !IsEleito(Totals(field.value)[j].dsSitTotTurno))
      || (forall k :: 0 <= k < |field.value| ==> field.value[k].sqCandidato !in sqs)
  {
    if field.Some? {
      var rows := field.value;
      var ranked := Ranked(Ordered(rows), uf);
      RankedOrder(rows, uf);
      VagasZero(ranked);
      NoneElected(rows, uf);
      TargetAbsent(rows, uf, sqs);
    }
  }

  // ---------------------------------------------------------------------------
  // The block and the metrics

  /** The ranking of a field is sorted by votes and numbered from 1. */
  lemma RankedShape(rows: seq<FieldRow>, uf: string)
    ensures Positioned(Ranked(Ordered(rows), uf))
    ensures SortedDesc(Ranked(Ordered(rows), uf), BlocoVotes)
  {
    RankedOrder(rows, uf);
  }

  /** Entry `i` sits at position `i + 1`. */
  predicate Positioned(ranked: seq<CandidatoBloco>) {
    forall i :: 0 <= i < |ranked| ==> ranked[i].posicao == i + 1
  }

  /** `votos_corte` is the smallest vote of an elected entry of a sorted ranking. */
  lemma VotosCorteIsMin(ranked: seq<CandidatoBloco>)
    requires SortedDesc(ranked, BlocoVotes) && Vagas(ranked) > 0
    ensures forall i :: 0 <= i < |ranked| && ranked[i].eleito ==> ranked[i].totalVotos >= VotosCorte(ranked)
    ensures exists i :: 0 <= i < |ranked| && ranked[i].eleito && ranked[i].totalVotos == VotosCorte(ranked)
  {
    var eleitos := Filter(ranked, Elected);
    LastOfFilterIsMin(ranked, Elected, BlocoVotes);
    assert Last(eleitos) in ranked;
  }

  /** `votos_ultimo_bloco` is the smallest vote of a sorted block. */
  lemma VotosUltimoBlocoIsMin(block: seq<CandidatoBloco>)
    requires SortedDesc(block, BlocoVotes) && block != []
    ensures forall i :: 0 <= i < |block| ==> block[i].totalVotos >= VotosUltimoBloco(block)
    ensures VotosUltimoBloco(block) == block[|block| - 1].totalVotos
  {
    forall i | 0 <= i < |block| ensures block[i].totalVotos >= VotosUltimoBloco(block) {
      if i < |block| - 1 {
        assert BlocoVotes(block[i]) >= BlocoVotes(block[|block| - 1]);
      }
    }
  }

  /** The analysed candidate of an analysis built at the first entry `t` of the target. */
  lemma CandidatoSpec(ranked: seq<CandidatoBloco>, sqs: seq<int>, size: nat)
    requires Positioned(ranked)
    requires TargetIndex(ranked, sqs) < |ranked|
    ensures var c := CandidatoOf(ranked[TargetIndex(ranked, sqs)], size);
      var block := Take(ranked, size);
      && 1 <= c.posicao <= |ranked|
      && ranked[c.posicao - 1].sqCandidato in sqs
      && ranked[c.posicao - 1].totalVotos == c.totalVotos
      && (forall i :: 0 <= i < c.posicao - 1 ==> ranked[i].sqCandidato !in sqs)
      && (c.noBlocoCorte <==> exists i :: 0 <= i < |block| && block[i].sqCandidato in sqs)
  {
    var t := TargetIndex(ranked, sqs);
    var block := Take(ranked, size);
    if exists i :: 0 <= i < |block| && block[i].sqCandidato in sqs {
      var i :| 0 <= i < |block| && block[i].sqCandidato in sqs;
      assert t <= i;
    }
  }

  /** The block and the metrics of a sorted, numbered ranking with seats. */
  lemma BuildSpec(ranked: seq<CandidatoBloco>, vagas: nat)
    requires Positioned(ranked) && SortedDesc(ranked, BlocoVotes)
    requires vagas == Vagas(ranked) > 0
    ensures var m := MetricasOf(ranked, vagas);
      var block := Take(ranked, BlockSize(vagas));
      && m.totalCandidatos == |ranked|
      && m.vagas == vagas
      && m.blocoCorteTamanho >= m.vagas + 5
      && 2 * m.blocoCorteTamanho >= 3 * m.vagas
      && |block| == (if m.blocoCorteTamanho < |ranked| then m.blocoCorteTamanho else |ranked|)
      && block == ranked[..|block|]
      && (forall i :: 0 <= i < |ranked| && ranked[i].eleito ==> ranked[i].totalVotos >= m.votosCorte)
      && (exists i :: 0 <= i < |ranked| && ranked[i].eleito && ranked[i].totalVotos == m.votosCorte)
      && (forall i :: 0 <= i < |block| ==> block[i].totalVotos >= m.votosUltimoBloco)
  {
    VotosCorteIsMin(ranked);
    var block := Take(ranked, BlockSize(vagas));
    SortedPrefix(ranked, |block|);
    VotosUltimoBlocoIsMin(block);
  }

  lemma SortedPrefix(s: seq<CandidatoBloco>, n: nat)
    requires SortedDesc(s, BlocoVotes) && n <= |s|
    ensures SortedDesc(s[..n], BlocoVotes)
  {
  }

  /** A produced analysis is built from the ranked field at the target's first entry. */
  lemma AnalisarParts(e: Eleicao, field: Option<seq<FieldRow>>, sqs: seq<int>, partido: string, uf: string, a: AnaliseEleicao)
    requires Analisar(e, field, sqs, partido, uf) == Some(a)
    ensures field.Some?
    ensures var ranked := Ranked(Ordered(field.value), uf);
      var vagas := Vagas(ranked);
      var block := Take(ranked, BlockSize(vagas));
      && vagas > 0 && TargetIndex(ranked, sqs) < |ranked|
      && a.candidato == CandidatoOf(ranked[TargetIndex(ranked, sqs)], BlockSize(vagas))
      && a.metricas == MetricasOf(ranked, vagas)
      && a.blocoCorte == block
      && a.partidosEficiencia == PartyTable(block)
  {
  }

  /**
   * When there is an analysis: the metrics describe the ranking, the block is
   * its first `min(size, N)` entries with `size >= vagas + 5`, the analysed
   * candidate is the best-ranked entry of its `sq_candidato` values and is in
   * the block exactly when one of them is, `votos_corte` is the smallest vote
   * of an elected candidate, and `votos_ultimo_bloco` the smallest of the block.
   */
  lemma BlockSpec(e: Eleicao, field: Option<seq<FieldRow>>, sqs: seq<int>, partido: string, uf: string, a: AnaliseEleicao)
    requires Analisar(e, field, sqs, partido, uf) == Some(a)
    ensures field.Some?
    ensures var ranked := Ranked(Ordered(field.value), uf);
      && a.metricas.totalCandidatos == |ranked| > 0
      && a.metricas.vagas == Vagas(ranked) > 0
      && a.metricas.blocoCorteTamanho >= a.metricas.vagas + 5
      && 2 * a.metricas.blocoCorteTamanho >= 3 * a.metricas.vagas
      && |a.blocoCorte| == (if a.metricas.blocoCorteTamanho < |ranked| then a.metricas.blocoCorteTamanho else |ranked|)
      && a.blocoCorte == ranked[..|a.blocoCorte|]
      && 1 <= a.candidato.posicao <= |ranked|
      && ranked[a.candidato.posicao - 1].sqCandidato in sqs
      && ranked[a.candidato.posicao - 1].totalVotos == a.candidato.totalVotos
      && (forall i :: 0 <= i < a.candidato.posicao - 1 ==> ranked[i].sqCandidato !in sqs)
      && (a.candidato.noBlocoCorte <==> exists i :: 0 <= i < |a.blocoCorte| && a.blocoCorte[i].sqCandidato in sqs)
      && (forall i :: 0 <= i < |ranked| && ranked[i].eleito ==> ranked[i].totalVotos >= a.metricas.votosCorte)
      && (exists i :: 0 <= i < |ranked| && ranked[i].eleito && ranked[i].totalVotos == a.metricas.votosCorte)
      && (forall i :: 0 <= i < |a.blocoCorte| ==> a.blocoCorte[i].totalVotos >= a.metricas.votosUltimoBloco)
      && a.partidosEficiencia == PartyTable(a.blocoCorte)
  {
    AnalisarParts(e, field, sqs, partido, uf, a);
    RankedShape(field.value, uf);
    PartsSpec(Ranked(Ordered(field.value), uf), sqs, a);
  }

  /** The facts of `BlockSpec` for any analysis whose parts are those of a sorted, numbered ranking. */
  lemma PartsSpec(ranked: seq<CandidatoBloco>, sqs: seq<int>, a: AnaliseEleicao)
    requires Positioned(ranked) && SortedDesc(ranked, BlocoVotes)
    requires Vagas(ranked) > 0 && TargetIndex(ranked, sqs) < |ranked|
    requires a.candidato == CandidatoOf(ranked[TargetIndex(ranked, sqs)], BlockSize(Vagas(ranked)))
    requires a.metricas == MetricasOf(ranked, Vagas(ranked))
    requires a.blocoCorte == Take(ranked, BlockSize(Vagas(ranked)))
    ensures && a.metricas.totalCandidatos == |ranked| > 0
      && a.metricas.vagas == Vagas(ranked) > 0
      && a.metricas.blocoCorteTamanho >= a.metricas.vagas + 5
      && 2 * a.metricas.blocoCorteTamanho >= 3 * a.metricas.vagas
      && |a.blocoCorte| == (if a.metricas.blocoCorteTamanho < |ranked| then a.metricas.blocoCorteTamanho else |ranked|)
      && a.blocoCorte == ranked[..|a.blocoCorte|]
      && 1 <= a.candidato.posicao <= |ranked|
      && ranked[a.candidato.posicao - 1].sqCandidato in sqs
      && ranked[a.candidato.posicao - 1].totalVotos == a.candidato.totalVotos
      && (forall i :: 0 <= i < a.candidato.posicao - 1 ==> ranked[i].sqCandidato !in sqs)
      && (a.candidato.noBlocoCorte <==> exists i :: 0 <= i < |a.blocoCorte| && a.blocoCorte[i].sqCandidato in sqs)
      && (forall i :: 0 <= i < |ranked| && ranked[i].eleito ==> ranked[i].totalVotos >= a.metricas.votosCorte)
      && (exists i :: 0 <= i < |ranked| && ranked[i].eleito && ranked[i].totalVotos == a.metricas.votosCorte)
      && (forall i :: 0 <= i < |a.blocoCorte| ==> a.blocoCorte[i].totalVotos >= a.metricas.votosUltimoBloco)
  {
    PartsMetricas(ranked, a);
    PartsCandidato(ranked, sqs, a);
  }

  /** The metrics and block half of `PartsSpec`. */
  lemma PartsMetricas(ranked: seq<CandidatoBloco>, a: AnaliseEleicao)
    requires Positioned(ranked) && SortedDesc(ranked, BlocoVotes) && Vagas(ranked) > 0
    requires a.metricas == MetricasOf(ranked, Vagas(ranked))
    requires a.blocoCorte == Take(ranked, BlockSize(Vagas(ranked)))
    ensures && a.metricas.totalCandidatos == |ranked|
      && a.metricas.vagas == Vagas(ranked)
      && a.metricas.blocoCorteTamanho >= a.metricas.vagas + 5
      && 2 * a.metricas.blocoCorteTamanho >= 3 * a.metricas.vagas
      && |a.blocoCorte| == (if a.metricas.blocoCorteTamanho < |ranked| then a.metricas.blocoCorteTamanho else |ranked|)
      && a.blocoCorte == ranked[..|a.blocoCorte|]
      && (forall i :: 0 <= i < |ranked| && ranked[i].eleito ==> ranked[i].totalVotos >= a.metricas.votosCorte)
      && (exists i :: 0 <= i < |ranked| && ranked[i].eleito && ranked[i].totalVotos == a.metricas.votosCorte)
      && (forall i :: 0 <= i < |a.blocoCorte| ==> a.blocoCorte[i].totalVotos >= a.metricas.votosUltimoBloco)
  {
    BuildSpec(ranked, Vagas(ranked));
  }

  /** The analysed-candidate half of `PartsSpec`. */
  lemma PartsCandidato(ranked: seq<CandidatoBloco>, sqs: seq<int>, a: AnaliseEleicao)
    requires Positioned(ranked) && TargetIndex(ranked, sqs) < |ranked|
    requires a.candidato == CandidatoOf(ranked[TargetIndex(ranked, sqs)], BlockSize(Vagas(ranked)))
    requires a.blocoCorte == Take(ranked, BlockSize(Vagas(ranked)))
    ensures && 1 <= a.candidato.posicao <= |ranked|
      && ranked[a.candidato.posicao - 1].sqCandidato in sqs
      && ranked[a.candidato.posicao - 1].totalVotos == a.candidato.totalVotos
      && (forall i :: 0 <= i < a.candidato.posicao - 1 ==> ranked[i].sqCandidato !in sqs)
      && (a.candidato.noBlocoCorte <==> exists i :: 0 <= i < |a.blocoCorte| && a.blocoCorte[i].sqCandidato in sqs)
  {
    CandidatoSpec(ranked, sqs, BlockSize(Vagas(ranked)));
  }

  /** An analysis describes the contest it was asked about, in the requested state. */
  lemma AnalisarOfContest(e: Eleicao, field: Option<seq<FieldRow>>, sqs: seq<int>, partido: string, uf: string)
    ensures var r := Analisar(e, field, sqs, partido, uf);
      r.Some? ==> && r.value.anoEleicao == e.anoEleicao && r.value.dsCargo == e.dsCargo
                  && r.value.nrTurno == e.nrTurno && r.value.nmMunicipio == e.nmMunicipio && r.value.sgUf == uf
  {
  }

  // ---------------------------------------------------------------------------
  // Competitors

  lemma FilterEmpty(ranked: seq<CandidatoBloco>, p: CandidatoBloco -> bool)
    ensures Filter(ranked, p) == [] <==> forall i :: 0 <= i < |ranked| ==> !p(ranked[i])
  {
    var f := Filter(ranked, p);
    if f != [] {
      assert f[0] in ranked;
    }
  }

  /**
   * The last entry of a sorted, numbered ranking that satisfies `p`: it sits
   * at its position and has the fewest votes of all entries satisfying `p`.
   */
  lemma LastMatch(ranked: seq<CandidatoBloco>, p: CandidatoBloco -> bool)
    requires Positioned(ranked) && SortedDesc(ranked, BlocoVotes) && Filter(ranked, p) != []
    ensures var c := Last(Filter(ranked, p));
      && 1 <= c.posicao <= |ranked| && ranked[c.posicao - 1] == c && p(c)
      && forall i :: 0 <= i < |ranked| && p(ranked[i]) ==> ranked[i].totalVotos >= c.totalVotos
  {
    LastMatchPlaced(ranked, p);
    LastMatchFewest(ranked, p);
  }

  /** The last entry satisfying `p` sits at its position in a numbered ranking. */
  lemma LastMatchPlaced(ranked: seq<CandidatoBloco>, p: CandidatoBloco -> bool)
    requires Positioned(ranked) && Filter(ranked, p) != []
    ensures var c := Last(Filter(ranked, p));
      1 <= c.posicao <= |ranked| && ranked[c.posicao - 1] == c && p(c)
  {
    var f := Filter(ranked, p);
    assert f[|f| - 1] in ranked && p(f[|f| - 1]);
    var j :| 0 <= j < |ranked| && ranked[j] == f[|f| - 1];
    assert ranked[j].posicao == j + 1;
  }

  /** The last entry satisfying `p` of a sorted ranking has the fewest votes among those entries. */
  lemma LastMatchFewest(ranked: seq<CandidatoBloco>, p: CandidatoBloco -> bool)
    requires SortedDesc(ranked, BlocoVotes) && Filter(ranked, p) != []
    ensures var c := Last(Filter(ranked, p));
      forall i :: 0 <= i < |ranked| && p(ranked[i]) ==> ranked[i].totalVotos >= c.totalVotos
  {
    var c := Last(Filter(ranked, p));
    LastOfFilterIsMin(ranked, p, BlocoVotes);
    forall i | 0 <= i < |ranked| && p(ranked[i]) ensures ranked[i].totalVotos >= c.totalVotos {
      assert ranked[i] in ranked;
      assert BlocoVotes(ranked[i]) >= BlocoVotes(c);
    }
  }

  /** No entry ranked after the last entry satisfying `p` satisfies `p`. */
  lemma LastMatchIsLast(ranked: seq<CandidatoBloco>, p: CandidatoBloco -> bool)
    requires Positioned(ranked) && Filter(ranked, p) != []
    ensures var c := Last(Filter(ranked, p));
      forall i :: c.posicao <= i < |ranked| ==> !p(ranked[i])
  {
    var j := LastOfFilterIndex(ranked, p);
    assert ranked[j].posicao == j + 1;
  }

  /** More votes than entry `t` of a sorted, numbered ranking means a better position. */
  lemma AboveMeansBefore(ranked: seq<CandidatoBloco>, t: nat, c: CandidatoBloco)
    requires Positioned(ranked) && SortedDesc(ranked, BlocoVotes) && t < |ranked|
    requires 1 <= c.posicao <= |ranked| && ranked[c.posicao - 1] == c
    ensures c.totalVotos > ranked[t].totalVotos ==> c.posicao < ranked[t].posicao
  {
    if c.posicao - 1 > t {
      assert BlocoVotes(ranked[t]) >= BlocoVotes(ranked[c.posicao - 1]);
    }
  }

  /**
   * `concorrente_interno`: present exactly when some candidate of the party
   * has more votes than the analysed one; then it is the one of them with
   * the fewest votes, ranked above, and its difference is positive.
   */
  lemma InternoSpec(ranked: seq<CandidatoBloco>, t: nat, partido: string, uf: string)
    requires Positioned(ranked) && SortedDesc(ranked, BlocoVotes) && t < |ranked|
    ensures var alvo := ranked[t];
      var r := ConcorrenteInternoOf(ranked, alvo, partido, uf);
      && (r.Some? <==> exists i :: 0 <= i < |ranked| && ranked[i].sgPartido == partido && ranked[i].totalVotos > alvo.totalVotos)
      && (r.Some? ==>
            && r.value.sgPartido == partido
            && r.value.diferencaVotos == r.value.totalVotos - alvo.totalVotos > 0
            && 1 <= r.value.posicao < alvo.posicao
            && ranked[r.value.posicao - 1].totalVotos == r.value.totalVotos
            && r.value.slug == GerarSlugOf(ranked[r.value.posicao - 1], uf)
            && (forall i :: 0 <= i < |ranked| && ranked[i].sgPartido == partido && ranked[i].totalVotos > alvo.totalVotos
                  ==> ranked[i].totalVotos >= r.value.totalVotos)
            && r.value == Interno(ranked[r.value.posicao - 1], alvo, uf)
            && (forall i :: r.value.posicao <= i < |ranked| ==>
                  !(ranked[i].sgPartido == partido && ranked[i].totalVotos > alvo.totalVotos)))
  {
    var p := SamePartyAbove(partido, ranked[t].totalVotos);
    FilterEmpty(ranked, p);
    if Filter(ranked, p) != [] {
      LastMatch(ranked, p);
      LastMatchIsLast(ranked, p);
      AboveMeansBefore(ranked, t, Last(Filter(ranked, p)));
    }
  }

  /**
   * `concorrente_externo`: the same with another party; its
   * `score_oportunidade` is its vote difference.
   */
  lemma ExternoSpec(ranked: seq<CandidatoBloco>, t: nat, partido: string, uf: string)
    requires Positioned(ranked) && SortedDesc(ranked, BlocoVotes) && t < |ranked|
    ensures var alvo := ranked[t];
      var r := ConcorrenteExternoOf(ranked, alvo, partido, uf);
      && (r.Some? <==> exists i :: 0 <= i < |ranked| && ranked[i].sgPartido != partido && ranked[i].totalVotos > alvo.totalVotos)
      && (r.Some? ==>
            && r.value.sgPartido != partido
            && r.value.tipo == ProximoAcima
            && r.value.diferencaVotos == r.value.scoreOportunidade == r.value.totalVotos - alvo.totalVotos > 0
            && 1 <= r.value.posicao < alvo.posicao
            && ranked[r.value.posicao - 1].totalVotos == r.value.totalVotos
            && r.value.slug == GerarSlugOf(ranked[r.value.posicao - 1], uf)
            && (forall i :: 0 <= i < |ranked| && ranked[i].sgPartido != partido && ranked[i].totalVotos > alvo.totalVotos
                  ==> ranked[i].totalVotos >= r.value.totalVotos)
            && r.value == Externo(ranked[r.value.posicao - 1], alvo, uf, ProximoAcima)
            && (forall i :: r.value.posicao <= i < |ranked| ==>
                  !(ranked[i].sgPartido != partido && ranked[i].totalVotos > alvo.totalVotos)))
  {
    var p := OtherPartyAbove(partido, ranked[t].totalVotos);
    FilterEmpty(ranked, p);
    if Filter(ranked, p) != [] {
      LastMatch(ranked, p);
      LastMatchIsLast(ranked, p);
      AboveMeansBefore(ranked, t, Last(Filter(ranked, p)));
    }
  }

  /**
   * `pior_eleito_externo`: present exactly when another party elected
   * someone; then it is that party's elected entry with the fewest votes, and
   * its score is its votes minus the analysed candidate's, of either sign.
   */
  lemma PiorEleitoSpec(ranked: seq<CandidatoBloco>, t: nat, partido: string, uf: string)
    requires Positioned(ranked) && SortedDesc(ranked, BlocoVotes) && t < |ranked|
    ensures var alvo := ranked[t];
      var r := PiorEleitoExternoOf(ranked, alvo, partido, uf);
      && (r.Some? <==> exists i :: 0 <= i < |ranked| && ranked[i].eleito && ranked[i].sgPartido != partido)
      && (r.Some? ==>
            && r.value.sgPartido != partido
            && r.value.tipo == PiorEleito
            && r.value.diferencaVotos == r.value.scoreOportunidade == r.value.totalVotos - alvo.totalVotos
            && 1 <= r.value.posicao <= |ranked|
            && ranked[r.value.posicao - 1].eleito
            && ranked[r.value.posicao - 1].totalVotos == r.value.totalVotos
            && (forall i :: 0 <= i < |ranked| && ranked[i].eleito && ranked[i].sgPartido != partido
                  ==> ranked[i].totalVotos >= r.value.totalVotos)
            && r.value == Externo(ranked[r.value.posicao - 1], alvo, uf, PiorEleito)
            && (forall i :: r.value.posicao <= i < |ranked| ==> !(ranked[i].eleito && ranked[i].sgPartido != partido)))
  {
    PiorEleitoPresence(ranked, ranked[t], partido, uf);
    if PiorEleitoExternoOf(ranked, ranked[t], partido, uf).Some? {
      PiorEleitoChosen(ranked, ranked[t], partido, uf);
      PiorEleitoLast(ranked, ranked[t], partido, uf);
    }
  }

  lemma PiorEleitoPresence(ranked: seq<CandidatoBloco>, alvo: CandidatoBloco, partido: string, uf: string)
    ensures PiorEleitoExternoOf(ranked, alvo, partido, uf).Some? <==>
      exists i :: 0 <= i < |ranked| && ranked[i].eleito && ranked[i].sgPartido != partido
  {
    var p := ElectedOtherParty(partido);
    FilterEmpty(ranked, p);
    if Filter(ranked, p) == [] {
      forall i | 0 <= i < |ranked| ensures !(ranked[i].eleito && ranked[i].sgPartido != partido) {
        assert !p(ranked[i]);
      }
    }
  }

  /** The entry `.at(-1)` picks is the entry at its own position, and no later entry is an elected one of another party. */
  lemma PiorEleitoLast(ranked: seq<CandidatoBloco>, alvo: CandidatoBloco, partido: string, uf: string)
    requires Positioned(ranked)
    requires PiorEleitoExternoOf(ranked, alvo, partido, uf).Some?
    ensures var c := PiorEleitoExternoOf(ranked, alvo, partido, uf).value;
      && 1 <= c.posicao <= |ranked|
      && c == Externo(ranked[c.posicao - 1], alvo, uf, PiorEleito)
      && (forall i :: c.posicao <= i < |ranked| ==> !(ranked[i].eleito && ranked[i].sgPartido != partido))
  {
    var p := ElectedOtherParty(partido);
    LastMatchPlaced(ranked, p);
    LastMatchIsLast(ranked, p);
  }

  lemma PiorEleitoChosen(ranked: seq<CandidatoBloco>, alvo: CandidatoBloco, partido: string, uf: string)
    requires Positioned(ranked) && SortedDesc(ranked, BlocoVotes)
    requires PiorEleitoExternoOf(ranked, alvo, partido, uf).Some?
    ensures var c := PiorEleitoExternoOf(ranked, alvo, partido, uf).value;
      && c.sgPartido != partido
      && c.tipo == PiorEleito
      && c.diferencaVotos == c.scoreOportunidade == c.totalVotos - alvo.totalVotos
      && 1 <= c.posicao <= |ranked|
      && ranked[c.posicao - 1].eleito
      && ranked[c.posicao - 1].totalVotos == c.totalVotos
      && (forall i :: 0 <= i < |ranked| && ranked[i].eleito && ranked[i].sgPartido != partido
            ==> ranked[i].totalVotos >= c.totalVotos)
  {
    PiorEleitoPlaced(ranked, alvo, partido, uf);
    PiorEleitoFewest(ranked, alvo, partido, uf);
  }

  /** The chosen elected competitor is built from the entry at its position. */
  lemma PiorEleitoPlaced(ranked: seq<CandidatoBloco>, alvo: CandidatoBloco, partido: string, uf: string)
    requires Positioned(ranked)
    requires PiorEleitoExternoOf(ranked, alvo, partido, uf).Some?
    ensures var c := PiorEleitoExternoOf(ranked, alvo, partido, uf).value;
      && c.sgPartido != partido
      && c.tipo == PiorEleito
      && c.diferencaVotos == c.scoreOportunidade == c.totalVotos - alvo.totalVotos
      && 1 <= c.posicao <= |ranked|
      && ranked[c.posicao - 1].eleito
      && ranked[c.posicao - 1].totalVotos == c.totalVotos
  {
    var p := ElectedOtherParty(partido);
    LastMatchPlaced(ranked, p);
    ExternoFields(Last(Filter(ranked, p)), alvo, uf, PiorEleito);
  }

  /** No elected candidate of another party has fewer votes than the chosen one. */
  lemma PiorEleitoFewest(ranked: seq<CandidatoBloco>, alvo: CandidatoBloco, partido: string, uf: string)
    requires SortedDesc(ranked, BlocoVotes)
    requires PiorEleitoExternoOf(ranked, alvo, partido, uf).Some?
    ensures var c := PiorEleitoExternoOf(ranked, alvo, partido, uf).value;
      forall i :: 0 <= i < |ranked| && ranked[i].eleito && ranked[i].sgPartido != partido
        ==> ranked[i].totalVotos >= c.totalVotos
  {
    var p := ElectedOtherParty(partido);
    var last := Last(Filter(ranked, p));
    LastMatchFewest(ranked, p);
    ExternoFields(last, alvo, uf, PiorEleito);
    forall i | 0 <= i < |ranked| && ranked[i].eleito && ranked[i].sgPartido != partido
      ensures ranked[i].totalVotos >= last.totalVotos
    {
      assert p(ranked[i]);
    }
  }

  /** What a competitor record copies from the entry it is built from. */
  lemma ExternoFields(c: CandidatoBloco, alvo: CandidatoBloco, uf: string, tipo: TipoExterno)
    ensures var x := Externo(c, alvo, uf, tipo);
      && x.sgPartido == c.sgPartido && x.tipo == tipo && x.totalVotos == c.totalVotos && x.posicao == c.posicao
      && x.diferencaVotos == x.scoreOportunidade == c.totalVotos - alvo.totalVotos
  {
  }

  /** The competitors of an analysis are those of its ranking and its analysed candidate. */
  lemma CompetitorsOf(e: Eleicao, field: Option<seq<FieldRow>>, sqs: seq<int>, partido: string, uf: string, a: AnaliseEleicao)
    requires Analisar(e, field, sqs, partido, uf) == Some(a)
    ensures field.Some?
    ensures var ranked := Ranked(Ordered(field.value), uf);
      var t := TargetIndex(ranked, sqs);
      && t < |ranked| && Positioned(ranked) && SortedDesc(ranked, BlocoVotes)
      && a.candidato.totalVotos == ranked[t].totalVotos
      && a.candidato.posicao == ranked[t].posicao
      && a.concorrenteInterno == ConcorrenteInternoOf(ranked, ranked[t], partido, uf)
      && a.concorrenteExterno == ConcorrenteExternoOf(ranked, ranked[t], partido, uf)
      && a.piorEleitoExterno == PiorEleitoExternoOf(ranked, ranked[t], partido, uf)
  {
    RankedShape(field.value, uf);
  }

  // ---------------------------------------------------------------------------
  // The party table

  function TallyCandidatos(t: PartyTally): int { t.candidatos }
  function TallyVotos(t: PartyTally): int { t.votos }
  function TallyEleitos(t: PartyTally): int { t.eleitos }
  function One(c: CandidatoBloco): int { 1 }
  function BlocoTotal(c: CandidatoBloco): int { c.totalVotos }
  function ElectedOne(c: CandidatoBloco): int { if c.eleito then 1 else 0 }
  function EfParty(p: PartidoEficiencia): string { p.sgPartido }
  function EfCandidatos(p: PartidoEficiencia): int { p.candidatosBloco }
  function EfVotos(p: PartidoEficiencia): int { p.totalVotos }

  /** A tally that counts at least one candidate and no more elected than candidates. */
  predicate TallyOk(t: PartyTally) { 1 <= t.candidatos && 0 <= t.eleitos <= t.candidatos }

  /** `p` is the row of its party: the count, votes and elected of the block entries of that party. */
  predicate IsPartyRow(block: seq<CandidatoBloco>, p: PartidoEficiencia) {
    var rs := RowsWithKey(block, PartyKey, p.sgPartido);
    && rs != []
    && p.candidatosBloco == |rs|
    && p.totalVotos == Sum(rs, BlocoTotal)
    && p.eleitos == Sum(rs, ElectedOne)
    && 0 <= p.eleitos <= p.candidatosBloco
    && p.eficiencia == (p.eleitos as real) / (p.candidatosBloco as real)
    && p.mediaVotos == RoundDiv(p.totalVotos, p.candidatosBloco)
  }

  /** The row made from one group whose tally counts its rows is the row of its party. */
  lemma PartyRowOfGroup(block: seq<CandidatoBloco>, g: Group<string, PartyTally>)
    requires var rs := RowsWithKey(block, PartyKey, g.key);
      && rs != [] && TallyOk(g.acc)
      && g.acc.candidatos == Sum(rs, One)
      && g.acc.votos == Sum(rs, BlocoTotal)
      && g.acc.eleitos == Sum(rs, ElectedOne)
    ensures IsPartyRow(block, ToEficiencia(g))
  {
    SumOnes(RowsWithKey(block, PartyKey, g.key), One);
  }

  /** Each unsorted row is the row of its party, and the parties are distinct. */
  lemma PartyRowsEach(block: seq<CandidatoBloco>)
    ensures var gs := GroupRows(block, PartyKey, PartyInit, PartyStep);
      var u := EficienciaRows(gs);
      && DistinctKeys(u, EfParty)
      && (forall i :: 0 <= i < |u| ==> IsPartyRow(block, u[i]))
  {
    var gs := GroupRows(block, PartyKey, PartyInit, PartyStep);
    var u := EficienciaRows(gs);
    GroupRowsKeys(block, PartyKey, PartyInit, PartyStep);
    GroupSums(block, PartyKey, PartyInit, PartyStep, TallyCandidatos, One);
    GroupSums(block, PartyKey, PartyInit, PartyStep, TallyVotos, BlocoTotal);
    GroupSums(block, PartyKey, PartyInit, PartyStep, TallyEleitos, ElectedOne);
    GroupInvariant(block, PartyKey, PartyInit, PartyStep, TallyOk);
    forall i | 0 <= i < |u| ensures IsPartyRow(block, u[i]) {
      PartyRowOfGroup(block, gs[i]);
    }
    forall i, j | 0 <= i < j < |u| ensures EfParty(u[i]) != EfParty(u[j]) {
      assert u[i].sgPartido == gs[i].key && u[j].sgPartido == gs[j].key;
    }
  }

  /** Every party of the block has an unsorted row, and the rows add up to the block. */
  lemma PartyRowsCover(block: seq<CandidatoBloco>)
    ensures var u := EficienciaRows(GroupRows(block, PartyKey, PartyInit, PartyStep));
      && (forall k :: 0 <= k < |block| ==> exists i :: 0 <= i < |u| && u[i].sgPartido == block[k].sgPartido)
      && Sum(u, EfCandidatos) == |block|
      && Sum(u, EfVotos) == Sum(block, BlocoTotal)
  {
    var gs := GroupRows(block, PartyKey, PartyInit, PartyStep);
    var u := EficienciaRows(gs);
    GroupRowsKeys(block, PartyKey, PartyInit, PartyStep);
    forall k | 0 <= k < |block| ensures exists i :: 0 <= i < |u| && u[i].sgPartido == block[k].sgPartido {
      assert block[k] in block;
      var i := IndexOfKey(gs, PartyKey(block[k]));
      assert u[i].sgPartido == gs[i].key;
    }
    SumPointwise(u, Values(gs), EfCandidatos, TallyCandidatos);
    GroupTotal(block, PartyKey, PartyInit, PartyStep, TallyCandidatos, One);
    SumOnes(block, One);
    SumPointwise(u, Values(gs), EfVotos, TallyVotos);
    GroupTotal(block, PartyKey, PartyInit, PartyStep, TallyVotos, BlocoTotal);
  }

  /**
   * `partidos_eficiencia`: one row per party of the block, each with the
   * count, votes and elected of that party's entries (elected never more
   * than candidates), the counts adding up to the block's length and the
   * votes to the block's votes, sorted by efficiency, descending.
   */
  lemma PartyTableSpec(block: seq<CandidatoBloco>)
    ensures var tabela := PartyTable(block);
      && DistinctKeys(tabela, EfParty)
      && (forall i :: 0 <= i < |tabela| ==> IsPartyRow(block, tabela[i]))
      && (forall k :: 0 <= k < |block| ==> exists i :: 0 <= i < |tabela| && tabela[i].sgPartido == block[k].sgPartido)
      && Sum(tabela, EfCandidatos) == |block|
      && Sum(tabela, EfVotos) == Sum(block, BlocoTotal)
      && SortedDesc(tabela, EficienciaKey)
  {
    var u := EficienciaRows(GroupRows(block, PartyKey, PartyInit, PartyStep));
    var tabela := PartyTable(block);
    PartyRowsEach(block);
    PartyRowsCover(block);
    SortDescSpec(u, EficienciaKey);
    DistinctKeysPermutation(u, tabela, EfParty);
    forall i | 0 <= i < |tabela| ensures IsPartyRow(block, tabela[i]) {
      var j := IndexOf(u, tabela[i]);
    }
    forall k | 0 <= k < |block| ensures exists i :: 0 <= i < |tabela| && tabela[i].sgPartido == block[k].sgPartido {
      var j :| 0 <= j < |u| && u[j].sgPartido == block[k].sgPartido;
      var i := IndexOf(tabela, u[j]);
    }
    SumPermutation(u, tabela, EfCandidatos);
    SumPermutation(u, tabela, EfVotos);
  }
}

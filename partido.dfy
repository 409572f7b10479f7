/**
 * Party logos: a table from party acronym to logo file, looked up with the
 * trimmed, upper-cased acronym.
 */
module Partido {
  import opened Wrappers
  import opened Text

  /** The acronym-to-file table, in its declared order. */
  const PartidoLogos: seq<(string, string)> := [
    ("AGIR", "AGIR.png"), ("AVANTE", "AVANTE.png"), ("CIDADANIA", "CIDADANIA.png"), ("DC", "DC.png"),
    ("MDB", "MDB.png"), ("MOBILIZA", "MOBILIZA.png"), ("NOVO", "NOVO.png"), ("PCB", "PCB.png"),
    ("PC do B", "PCdoB.png"), ("PCdoB", "PCdoB.png"), ("PCO", "PCO.png"), ("PDT", "PDT.png"),
    ("PL", "PL.png"), ("PMB", "PMB.png"), ("PODE", "PODE.png"), ("PODEMOS", "PODE.png"),
    ("PP", "PP.png"), ("PRD", "PRD.png"), ("PRTB", "PRTB.png"), ("PSB", "PSB.png"),
    ("PSD", "PSD.png"), ("PSDB", "PSDB.png"), ("PSOL", "PSOL.png"), ("PSTU", "PSTU.png"),
    ("PT", "PT.png"), ("PV", "PV.jpg"), ("REDE", "REDE.png"), ("REPUBLICANOS", "REPUBLICANOS.png"),
    ("RFB", "RFB.png"), ("SOLIDARIEDADE", "SOLIDARIEDADE.png"), ("SOLIDARIEDADE ", "SOLIDARIEDADE.png"),
    ("UNIÃO", "UNIAO.png"), ("UNIAO", "UNIAO.png"), ("UNIÃO BRASIL", "UNIAO.png"), ("UP", "UP.png")
  ]

  predicate HasKey(table: seq<(string, string)>, k: string) {
    exists i :: 0 <= i < |table| && table[i].0 == k
  }

  /** `table[k]`: the file of the first entry with key `k`, or `undefined`. */
  function Lookup(table: seq<(string, string)>, k: string): (r: Option<string>)
    ensures r.Some? <==> HasKey(table, k)
    ensures r.Some? ==> exists i :: 0 <= i < |table| && table[i] == (k, r.value)
  {
    if table == [] then None
    else if table[0].0 == k then Some(table[0].1)
    else
      var r := Lookup(table[1..], k);
      assert HasKey(table, k) <==> HasKey(table[1..], k) by {
        if HasKey(table, k) {
          var i :| 0 <= i < |table| && table[i].0 == k;
          assert table[1..][i - 1].0 == k;
        }
        if HasKey(table[1..], k) {
          var i :| 0 <= i < |table[1..]| && table[1..][i].0 == k;
          assert table[i + 1].0 == k;
        }
      }
      if r.Some? then
        assert exists i :: 0 <= i < |table| && table[i] == (k, r.value) by {
          var i :| 0 <= i < |table[1..]| && table[1..][i] == (k, r.value);
          assert table[i + 1] == (k, r.value);
        }
        r
      else r
  }

  /** The key the table is searched with. */
  function LogoKey(sigla: string): string {
    Upper(Trim(sigla))
  }

  /** `getPartidoLogoUrl` over a given table: no acronym or an unknown one gives none, a known one its file under `/partido/`. */
  function LogoUrlIn(table: seq<(string, string)>, sigla: Option<string>): Option<string> {
    if sigla.None? || sigla.value == [] then None
    else
      var file := Lookup(table, LogoKey(sigla.value));
      if file.None? || file.value == [] then None
      else Some("/partido/" + file.value)
  }

  /** `getPartidoLogoUrl`. */
  function GetPartidoLogoUrl(sigla: Option<string>): Option<string> {
    LogoUrlIn(PartidoLogos, sigla)
  }

  predicate HasPartidoLogo(sigla: Option<string>) {
    GetPartidoLogoUrl(sigla) != None
  }

  /** Every file name in the table is non-empty, so a found entry is never falsy. */
  lemma FilesNonEmpty()
    ensures forall j :: 0 <= j < |PartidoLogos| ==> PartidoLogos[j].1 != []
  {
  }

  /**
   * A logo URL exists exactly for a non-empty acronym whose trimmed,
   * upper-cased form is a table key, and it is `/partido/` and that key's file.
   */
  lemma GetPartidoLogoUrlSpec(sigla: Option<string>)
    ensures var r := GetPartidoLogoUrl(sigla);
      && (r.Some? <==> sigla.Some? && sigla.value != [] && HasKey(PartidoLogos, LogoKey(sigla.value)))
      && (r.Some? ==>
            exists i :: 0 <= i < |PartidoLogos| && PartidoLogos[i].0 == LogoKey(sigla.value)
              && r.value == "/partido/" + PartidoLogos[i].1)
      && (HasPartidoLogo(sigla) <==> r.Some?)
  {
    FilesNonEmpty();
    LogoUrlInSpec(PartidoLogos, sigla);
  }

  lemma LogoUrlInSpec(table: seq<(string, string)>, sigla: Option<string>)
    requires forall j :: 0 <= j < |table| ==> table[j].1 != []
    ensures var r := LogoUrlIn(table, sigla);
      && (r.Some? <==> sigla.Some? && sigla.value != [] && HasKey(table, LogoKey(sigla.value)))
      && (r.Some? ==>
            exists i :: 0 <= i < |table| && table[i].0 == LogoKey(sigla.value)
              && r.value == "/partido/" + table[i].1)
  {
    if sigla.Some? && sigla.value != [] {
      var file := Lookup(table, LogoKey(sigla.value));
      if file.Some? {
        var i :| 0 <= i < |table| && table[i] == (LogoKey(sigla.value), file.value);
        assert file.value != [];
      }
    }
  }

  /**
   * Three table keys can never be looked up: two hold lower-case letters
   * and one ends in a space, while the lookup key is upper-cased and trimmed.
   */
  lemma UnreachableKeys(sigla: string)
    ensures LogoKey(sigla) != "PC do B"
    ensures LogoKey(sigla) != "PCdoB"
    ensures LogoKey(sigla) != "SOLIDARIEDADE "
  {
    var t := Trim(sigla);
    var k := LogoKey(sigla);
    UpperHasNoAsciiLower(t);
    if |k| > 3 {
      assert !IsAsciiLower(k[2]) && !IsAsciiLower(k[3]);
    }
    if t != [] {
      var c := t[|t| - 1];
      assert !IsSpace(c);
      assert k[|k| - 1] == UpperChar(c);
      assert UpperChar(c) != ' ';
    }
  }
}

/**
 * The user's state (UF) preference: a cookie slot that the user sets or
 * clears, the geolocated state as the fallback when the slot is empty, and
 * the check that a code is one of the 27 state codes.
 */
module UfPreference {
  import opened Wrappers
  import opened Text
  import opened Slug

  /** The state codes, in the order of the data table. */
  const Estados: seq<string> := [
    "AC", "AL", "AM", "AP", "BA", "CE", "DF", "ES", "GO", "MA", "MG", "MS", "MT", "PA",
    "PB", "PE", "PI", "PR", "RJ", "RN", "RO", "RR", "RS", "SC", "SE", "SP", "TO"]

  /** A value of the `Estado | null` type. */
  predicate IsEstadoOrNull(uf: Option<string>) {
    uf.None? || uf.value in Estados
  }

  /** Every state code is two upper-case ASCII letters. */
  lemma EstadoCodes()
    ensures forall e :: e in Estados ==> IsUfCode(e)
  {
  }

  /** `isValidEstado`: a falsy code is rejected before the table lookup. */
  function IsValidEstado(code: Option<string>): (b: bool)
    ensures b <==> code.Some? && code.value in Estados
    ensures b ==> IsUfCode(code.value)
  {
    EstadoCodes();
    Truthy(code) && code.value in Estados
  }

  /** The preference cookie next to the geolocated state, which these operations only read. */
  class Preference {
    var cookie: Option<string>
    var detected: Option<string>

    /** The cookie as the browser kept it (`null` by default) and the state geolocation found. */
    constructor(cookie: Option<string>, detected: Option<string>)
      ensures this.cookie == cookie && this.detected == detected
    {
      this.cookie := cookie;
      this.detected := detected;
    }

    predicate HasUserPreference()
      reads this
    {
      cookie.Some?
    }

    /** `ufEfetivo`: the user's choice first, geolocation otherwise. */
    function UfEfetivo(): (u: Option<string>)
      reads this
      ensures HasUserPreference() ==> u == cookie
      ensures !HasUserPreference() ==> u == detected
      ensures IsEstadoOrNull(cookie) && IsEstadoOrNull(detected) ==> IsEstadoOrNull(u)
    {
      if cookie.Some? then cookie else detected
    }

    method Save(uf: Option<string>)
      modifies this`cookie
      ensures cookie == uf
      ensures uf.Some? ==> HasUserPreference() && UfEfetivo() == uf
      ensures uf.None? ==> !HasUserPreference() && UfEfetivo() == detected
    {
      cookie := uf;
    }

    method Clear()
      modifies this`cookie
      ensures !HasUserPreference() && UfEfetivo() == detected
    {
      cookie := None;
    }
  }
}

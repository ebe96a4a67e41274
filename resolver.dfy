/**
 * Address resolution: a length guard, text normalisation, the known-places
 * dictionary, the external provider, the first comuna whose name occurs in
 * the text, and finally an error. The provider and the dictionary are
 * parameters.
 */
module Resolver {
  import opened Wrappers
  import opened Text
  import opened Comunas

  /** The `reemplazos` list of `normalizar_texto`, in its iteration order. */
  const Reemplazos: seq<(string, string)> := [
    ("av ", "avenida "),
    ("av.", "avenida "),
    ("stgo", "santiago"),
    ("rm", "region metropolitana"),
    ("metro ", ""),
    ("mall ", "mall ")
  ]

  /** The suffix appended to the text before it is sent to the provider. */
  const ProviderSuffix: string := ", region metropolitana, chile"

  predicate KeysNonEmpty(reps: seq<(string, string)>) {
    forall i :: 0 <= i < |reps| ==> |reps[i].0| > 0
  }

  predicate ValuesLower(reps: seq<(string, string)>) {
    forall i :: 0 <= i < |reps| ==> NoUpper(reps[i].1)
  }

  /** Every key of the list is non-empty and every value is lower case. */
  lemma ReemplazosWellFormed()
    ensures KeysNonEmpty(Reemplazos) && ValuesLower(Reemplazos)
  {
    var vals := ["avenida ", "avenida ", "santiago", "region metropolitana", "", "mall "];
    assert forall i :: 0 <= i < 6 ==> Reemplazos[i].1 == vals[i];
    forall i | 0 <= i < 6 ensures NoUpper(vals[i]) {
      var v := vals[i];
      forall j | 0 <= j < |v| ensures !IsUpper(v[j]) {
      }
    }
  }

  /** The replacements applied one after the other, first pair first. */
  function ReplaceAll(t: string, reps: seq<(string, string)>): string
    requires KeysNonEmpty(reps)
    decreases |reps|
  {
    if reps == [] then t else ReplaceAll(Replace(t, reps[0].0, reps[0].1), reps[1..])
  }

  /** `normalizar_texto`: lower-case, strip, the replacements in order, then one blank per whitespace run. */
  function Normalized(texto: string): (r: string)
    ensures NoUpper(r) && NoDoubleSpace(r)
  {
    ReemplazosWellFormed();
    StripPreservesNoUpper(Lower(texto));
    ReplaceAllPreservesNoUpper(Strip(Lower(texto)), Reemplazos);
    CollapsePreservesNoUpper(ReplaceAll(Strip(Lower(texto)), Reemplazos));
    CollapseSpaces(ReplaceAll(Strip(Lower(texto)), Reemplazos))
  }

  /** The replacement loop of `normalizar_texto`: `t` is reassigned once per pair, in order. */
  method ReplaceEach(t0: string, reps: seq<(string, string)>) returns (t: string)
    requires KeysNonEmpty(reps)
    ensures t == ReplaceAll(t0, reps)
  {
    t := t0;
    for i := 0 to |reps|
      invariant ReplaceAll(t, reps[i..]) == ReplaceAll(t0, reps)
    {
      assert reps[i..][1..] == reps[i + 1..];
      t := Replace(t, reps[i].0, reps[i].1);
    }
    assert reps[|reps|..] == [];
  }

  /** `normalizar_texto` as the source runs it. */
  method NormalizarTexto(texto: string) returns (r: string)
    ensures r == Normalized(texto)
    ensures NoUpper(r) && NoDoubleSpace(r)
  {
    ReemplazosWellFormed();
    var t := Strip(Lower(texto));
    t := ReplaceEach(t, Reemplazos);
    r := CollapseSpaces(t);
  }

  lemma ReplacePreservesNoUpper(s: string, k: string, v: string)
    requires |k| > 0 && NoUpper(s) && NoUpper(v)
    ensures NoUpper(Replace(s, k, v))
  {
    var r := Replace(s, k, v);
    forall i | 0 <= i < |r| ensures !IsUpper(r[i]) {
      assert r[i] in s || r[i] in v;
    }
  }

  lemma {:induction false} CollapsePreservesNoUpper(s: string)
    requires NoUpper(s)
    ensures NoUpper(CollapseSpaces(s))
    decreases |s|
  {
    if s != [] {
      var rest := if IsSpace(s[0]) then TrimLeft(s[1..]) else s[1..];
      forall i | 0 <= i < |rest| ensures !IsUpper(rest[i]) {
        assert rest[i] == s[|s| - |rest| + i];
      }
      CollapsePreservesNoUpper(rest);
      var r := CollapseSpaces(s);
      forall i | 0 <= i < |r| ensures !IsUpper(r[i]) {
        if i > 0 {
          assert r[i] == CollapseSpaces(rest)[i - 1];
        }
      }
    }
  }

  lemma {:induction false} ReplaceAllPreservesNoUpper(t: string, reps: seq<(string, string)>)
    requires KeysNonEmpty(reps) && ValuesLower(reps) && NoUpper(t)
    ensures NoUpper(ReplaceAll(t, reps))
    decreases |reps|
  {
    if reps != [] {
      ReplacePreservesNoUpper(t, reps[0].0, reps[0].1);
      ReplaceAllPreservesNoUpper(Replace(t, reps[0].0, reps[0].1), reps[1..]);
    }
  }


  /** The last replacement maps `"mall "` to itself and so changes nothing. */
  lemma MallReplacementIsIdentity(t: string)
    ensures Replace(t, Reemplazos[5].0, Reemplazos[5].1) == t
  {
    ReplaceBySelf(t, "mall ");
  }

  /**
   * The index of the first table entry, at `from` or after, whose key occurs
   * in `texto`.
   */
  function FirstMatch(table: seq<(string, Coord)>, texto: string, from: nat): (r: Option<nat>)
    requires from <= |table|
    ensures r.Some? ==> from <= r.value < |table| && IsSubstring(table[r.value].0, texto)
    ensures r.Some? ==> forall j :: from <= j < r.value ==> !IsSubstring(table[j].0, texto)
    ensures r.None? ==> forall j :: from <= j < |table| ==> !IsSubstring(table[j].0, texto)
    decreases |table| - from
  {
    if from == |table| then None
    else if IsSubstring(table[from].0, texto) then Some(from)
    else FirstMatch(table, texto, from + 1)
  }

  /** The comuna fallback as a value: the centroid of the first matching entry, if any. */
  function FallbackCoord(texto: string): (r: Option<Coord>)
    ensures r.Some? <==> exists i :: 0 <= i < |ComunasRM| && IsSubstring(ComunasRM[i].0, texto)
    ensures r.Some? ==> exists i :: 0 <= i < |ComunasRM| && IsSubstring(ComunasRM[i].0, texto)
                          && r.value == ComunasRM[i].1
                          && forall j :: 0 <= j < i ==> !IsSubstring(ComunasRM[j].0, texto)
  {
    match FirstMatch(ComunasRM, texto, 0)
    case Some(i) => Some(ComunasRM[i].1)
    case None => None
  }

  /**
   * `fallback_comuna`: walks the table in order and returns the coordinates
   * of the first entry whose key occurs in `texto`; `None` stands for its
   * `ValueError`.
   */
  method FallbackComuna(texto: string) returns (r: Option<Coord>)
    ensures r == FallbackCoord(texto)
  {
    var i := 0;
    while i < |ComunasRM|
      invariant 0 <= i <= |ComunasRM|
      invariant FirstMatch(ComunasRM, texto, 0) == FirstMatch(ComunasRM, texto, i)
      invariant forall j :: 0 <= j < i ==> !IsSubstring(ComunasRM[j].0, texto)
    {
      var (comuna, coords) := ComunasRM[i];
      if IsSubstring(comuna, texto) {
        return Some(coords);
      }
      i := i + 1;
    }
    return None;
  }

  /** How resolution fails. */
  datatype ResolveError =
    | DireccionInvalida            // the input is too short
    | NoGeocodificada(texto: string) // no stage found coordinates; carries the original input

  /** The outcome of `resolver_direccion`, with the queries it sent to the provider. */
  datatype Resolution = Resolution(result: Result<Coord, ResolveError>, consulted: seq<string>)

  /** The length guard: an empty input, or one whose stripped length is under 3. */
  predicate TooShort(texto: string) {
    texto == [] || |Strip(texto)| < 3
  }

  /** `resolver_direccion`, with the dictionary `known` and the provider oracle as parameters. */
  function ResolverDireccion(texto: string, known: map<string, Coord>,
                             provider: string -> Option<Coord>): (r: Resolution)
    ensures |r.consulted| <= 1
  {
    if TooShort(texto) then Resolution(Failure(DireccionInvalida), [])
    else Lookup(texto, Normalized(texto), known, provider)
  }

  /**
   * The stages of `resolver_direccion` after normalisation, on the
   * normalised text `t`: the dictionary, then the provider, then the comuna
   * fallback, then the error carrying the original input.
   */
  function Lookup(texto: string, t: string, known: map<string, Coord>,
                  provider: string -> Option<Coord>): (r: Resolution)
    ensures |r.consulted| <= 1
    ensures t in known <==> r.consulted == []
    ensures t in known ==> r.result == Success(known[t])
    ensures t !in known ==> r.consulted == [t + ProviderSuffix]
  {
    if t in known then Resolution(Success(known[t]), [])
    else
      var query := t + ProviderSuffix;
      match provider(query)
      case Some(c) => Resolution(Success(c), [query])
      case None =>
        match FallbackCoord(t)
        case Some(c) => Resolution(Success(c), [query])
        case None => Resolution(Failure(NoGeocodificada(texto)), [query])
  }

  /** A too-short input fails before normalisation, lookup or any provider call. */
  lemma ShortInputRejected(texto: string, known: map<string, Coord>, provider: string -> Option<Coord>)
    requires TooShort(texto)
    ensures ResolverDireccion(texto, known, provider) == Resolution(Failure(DireccionInvalida), [])
  {
  }

  /** The empty input is too short. */
  lemma EmptyInputRejected(known: map<string, Coord>, provider: string -> Option<Coord>)
    ensures ResolverDireccion("", known, provider) == Resolution(Failure(DireccionInvalida), [])
  {
  }

  /** A normalised text that is a key of the dictionary gets its value and the provider is never asked. */
  lemma KnownPlaceWins(texto: string, known: map<string, Coord>, provider: string -> Option<Coord>)
    requires !TooShort(texto) && Normalized(texto) in known
    ensures ResolverDireccion(texto, known, provider)
            == Resolution(Success(known[Normalized(texto)]), [])
  {
  }

  /** Otherwise the provider is asked exactly once, with the suffixed text, and its answer wins. */
  lemma ProviderBeforeFallback(texto: string, known: map<string, Coord>, provider: string -> Option<Coord>)
    requires !TooShort(texto) && Normalized(texto) !in known
    ensures ResolverDireccion(texto, known, provider).consulted == [Normalized(texto) + ProviderSuffix]
    ensures provider(Normalized(texto) + ProviderSuffix).Some? ==>
              ResolverDireccion(texto, known, provider).result
              == Success(provider(Normalized(texto) + ProviderSuffix).value)
  {
  }

  /** When the provider fails, the comuna fallback decides; when both fail, the result is the final error. */
  lemma FallbackAfterProvider(texto: string, known: map<string, Coord>, provider: string -> Option<Coord>)
    requires !TooShort(texto) && Normalized(texto) !in known
    requires provider(Normalized(texto) + ProviderSuffix).None?
    ensures FallbackCoord(Normalized(texto)).Some? ==>
              ResolverDireccion(texto, known, provider).result == Success(FallbackCoord(Normalized(texto)).value)
    ensures FallbackCoord(Normalized(texto)).None? ==>
              ResolverDireccion(texto, known, provider).result == Failure(NoGeocodificada(texto))
  {
  }

  /** Santiago is the first entry, so any text that contains "santiago" gets its centroid. */
  lemma SantiagoFirst(texto: string)
    requires IsSubstring("santiago", texto)
    ensures FallbackCoord(texto) == Some(Coord(-33.4489, -70.6693))
  {
  }

  /** Table keys with an upper-case letter ("Paine", "San Bernardo", ...) never match a normalised text. */
  lemma CapitalisedKeysNeverMatch(texto: string, i: nat)
    requires i < |ComunasRM| && HasUpper(ComunasRM[i].0)
    ensures !IsSubstring(ComunasRM[i].0, Normalized(texto))
    ensures FirstMatch(ComunasRM, Normalized(texto), 0) != Some(i)
  {
    UpperKeyNotInLowerText(ComunasRM[i].0, Normalized(texto));
  }

  /** The six capitalised keys of the table are the entries 11 to 16. */
  lemma CapitalisedKeys()
    ensures forall i :: 11 <= i < 17 ==> HasUpper(ComunasRM[i].0)
  {
    assert IsUpper(ComunasRM[11].0[10]);
    assert IsUpper(ComunasRM[12].0[0]);
    assert IsUpper(ComunasRM[13].0[0]);
    assert IsUpper(ComunasRM[14].0[0]);
    assert IsUpper(ComunasRM[15].0[0]);
    assert IsUpper(ComunasRM[16].0[0]);
  }
}

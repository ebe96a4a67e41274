/**
 * The bounding-box decision of the Mapbox geocoder: out-of-region keywords
 * veto the Santiago-region box, ambiguous keywords force it, and otherwise
 * no box is sent. The HTTP request itself is not modelled; its URL and
 * parameters are.
 */
module RegionBox {
  import opened Text

  /** `palabras_fuera_rm`, in its order. */
  const FueraRM: seq<string> := [
    "viña", "viña del mar",
    "valparaiso", "valparaíso",
    "quilpue", "quilpué",
    "villa alemana",
    "concon", "concón",
    "san antonio",
    "rancagua",
    "curico", "curicó",
    "talca",
    "chillan", "chillán",
    "concepcion", "concepción",
    "la serena",
    "coquimbo",
    "puerto montt",
    "temuco"
  ]

  /** `palabras_ambiguas`, in its order. */
  const Ambiguas: seq<string> := ["costanera", "mall", "metro", "terminal", "plaza", "santiago"]

  /** The box sent when it applies. */
  const BboxRM: string := "-71.6,-33.7,-70.3,-33.2"

  const GeocodeUrlPrefix: string := "https://api.mapbox.com/geocoding/v5/mapbox.places/"

  /**
   * `normalizar_direccion`: lower-case, then strip. The result is the
   * lower-cased text with only the whitespace at its two ends removed.
   */
  function NormalizarDireccion(texto: string): (r: string)
    ensures exists a :: CutFrom(Lower(texto), r, a)
    ensures NoUpper(r)
    ensures r == [] || (!IsSpace(r[0]) && !IsSpace(r[|r| - 1]))
  {
    StripPreservesNoUpper(Lower(texto));
    Strip(Lower(texto))
  }

  /** Some keyword of the list occurs in `q`. */
  predicate AnyOccurs(keywords: seq<string>, q: string) {
    exists j :: 0 <= j < |keywords| && IsSubstring(keywords[j], q)
  }

  /** The decision `debe_usar_bbox_rm` computes, stated with quantifiers. */
  predicate UsaBboxRM(query: string) {
    var q := NormalizarDireccion(query);
    !AnyOccurs(FueraRM, q) && AnyOccurs(Ambiguas, q)
  }

  /** One keyword loop of `debe_usar_bbox_rm`: does any keyword of the list occur in `q`? */
  method AnyKeywordIn(keywords: seq<string>, q: string) returns (found: bool)
    ensures found == AnyOccurs(keywords, q)
  {
    for i := 0 to |keywords|
      invariant forall j :: 0 <= j < i ==> !IsSubstring(keywords[j], q)
    {
      if IsSubstring(keywords[i], q) {
        return true;
      }
    }
    return false;
  }

  /**
   * `debe_usar_bbox_rm`: the out-of-region loop returns false on its first
   * hit, then the ambiguous loop returns true on its first hit, else false.
   */
  method DebeUsarBboxRM(query: string) returns (b: bool)
    ensures b == UsaBboxRM(query)
    ensures AnyOccurs(FueraRM, NormalizarDireccion(query)) ==> !b
  {
    var q := NormalizarDireccion(query);
    var fuera := AnyKeywordIn(FueraRM, q);
    if fuera {
      return false;
    }
    b := AnyKeywordIn(Ambiguas, q);
  }

  /** A value in the request's query string. */
  datatype Param = Str(s: string) | Num(n: int)

  /**
   * The URL and parameters `geocode` sends: four fixed parameters, and
   * `bbox` exactly when the decision above holds. The token is the value of
   * the `MAPBOX_TOKEN` environment variable.
   */
  method GeocodeRequest(direccion: string, token: string) returns (url: string, params: map<string, Param>)
    ensures url == GeocodeUrlPrefix + direccion + ".json"
    ensures "bbox" in params <==> UsaBboxRM(direccion)
    ensures "bbox" in params ==> params["bbox"] == Str(BboxRM)
    ensures params.Keys - {"bbox"} == {"access_token", "country", "limit", "language"}
    ensures "access_token" in params && params["access_token"] == Str(token)
    ensures "country" in params && params["country"] == Str("CL")
    ensures "limit" in params && params["limit"] == Num(1)
    ensures "language" in params && params["language"] == Str("es")
  {
    url := GeocodeUrlPrefix + direccion + ".json";
    params := map[
      "access_token" := Str(token),
      "country" := Str("CL"),
      "limit" := Num(1),
      "language" := Str("es")
    ];
    var usar := DebeUsarBboxRM(direccion);
    if usar {
      params := params["bbox" := Str(BboxRM)];
    }
  }

  /** An out-of-region keyword vetoes the box, even beside an ambiguous one. */
  lemma OutOfRegionVetoes(query: string, k: string)
    requires k in FueraRM && IsSubstring(k, NormalizarDireccion(query))
    ensures !UsaBboxRM(query)
  {
  }

  /** With no out-of-region keyword, any ambiguous keyword forces the box. */
  lemma AmbiguousForces(query: string, k: string)
    requires !AnyOccurs(FueraRM, NormalizarDireccion(query))
    requires k in Ambiguas && IsSubstring(k, NormalizarDireccion(query))
    ensures UsaBboxRM(query)
  {
  }

  /** When neither list matches, no box is sent. */
  lemma DefaultNoBox(query: string)
    requires !AnyOccurs(Ambiguas, NormalizarDireccion(query))
    ensures !UsaBboxRM(query)
  {
  }

  /** The decision ignores ASCII case and whitespace around the query. */
  lemma DecisionIgnoresCaseAndPadding(query: string, p: string, q: string)
    requires AllSpace(p) && AllSpace(q)
    ensures UsaBboxRM(p + Lower(query) + q) == UsaBboxRM(query)
  {
    LowerConcat(p + Lower(query), q);
    LowerConcat(p, Lower(query));
    LowerOfSpace(p);
    LowerOfSpace(q);
    LowerIdempotent(query);
    assert Lower(p + Lower(query) + q) == p + Lower(query) + q;
    StripOfPadded(p, Lower(query), q);
    assert NormalizarDireccion(p + Lower(query) + q) == NormalizarDireccion(query);
  }

  /** Normalising twice is normalising once, so a pre-normalised query gets the same decision. */
  lemma NormalizarDireccionIdempotent(texto: string)
    ensures NormalizarDireccion(NormalizarDireccion(texto)) == NormalizarDireccion(texto)
    ensures UsaBboxRM(NormalizarDireccion(texto)) == UsaBboxRM(texto)
  {
    var r := NormalizarDireccion(texto);
    assert Lower(r) == r;
    assert TrimLeft(r) == r;
    assert TrimRight(r) == r;
  }
}

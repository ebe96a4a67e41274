/**
 * The `COMUNAS_RM` table: comuna names and their centroids, in the order the
 * fallback search visits them. Keys are kept exactly as written, including
 * the capitalised ones.
 */
module Comunas {

  /** A latitude and longitude pair. */
  datatype Coord = Coord(lat: real, lon: real)

  const ComunasRM: seq<(string, Coord)> := [
    ("santiago", Coord(-33.4489, -70.6693)),
    ("providencia", Coord(-33.4314, -70.6093)),
    ("las condes", Coord(-33.4080, -70.5670)),
    ("ñuñoa", Coord(-33.4569, -70.5975)),
    ("maipu", Coord(-33.5167, -70.7667)),
    ("puente alto", Coord(-33.6117, -70.5758)),
    ("quilicura", Coord(-33.3667, -70.7333)),
    ("pudahuel", Coord(-33.4300, -70.8167)),
    ("viña del mar", Coord(-33.02457, -71.55183)),
    ("peñaflor", Coord(-33.60627, -70.87649)),
    ("valparaiso", Coord(33.036, -71.62963)),
    ("calera de Tango", Coord(-33.6221, -70.783)),
    ("Paine", Coord(-33.8234, -70.7343)),
    ("San Bernardo", Coord(-33.5695, -70.7376)),
    ("Cerrillos", Coord(-33.4978, -70.7164)),
    ("El Bosque", Coord(-33.5657, -70.6728)),
    ("Isla de Maipo", Coord(-33.7509, -70.8983))
  ]
}

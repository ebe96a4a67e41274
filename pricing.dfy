/**
 * Vehicle-class pricing: one vehicle class chosen by passenger count, and a
 * linear cost with a fixed margin on top. Amounts are exact reals; the
 * rounding of the returned figures is not modelled.
 */
module Pricing {

  datatype Vehicle = Van | Taxibus | Bus

  /** Per-class rates: cost per kilometre and cost per hour. */
  datatype Rates = Rates(km: int, hora: int)

  /** The breakdown `calcular_precio` returns, before rounding. */
  datatype Quote = Quote(vehiculo: Vehicle, kmTotal: real, horasTotal: real,
                         costoBase: real, utilidad: real, precioFinal: real)

  /** The `COSTOS` table. */
  function Costos(v: Vehicle): (r: Rates)
    ensures r.hora == 13080 && r.km > 0
  {
    match v
    case Van => Rates(904, 13080)
    case Taxibus => Rates(1264, 13080)
    case Bus => Rates(1190, 13080)
  }

  /** `MARGEN`: 35 %. */
  const Margen: real := 0.35

  /** The order van < taxibus < bus. */
  function Rank(v: Vehicle): nat {
    match v
    case Van => 0
    case Taxibus => 1
    case Bus => 2
  }

  /**
   * `vehiculo_por_pasajeros`: up to 15 passengers (any count at or below 15,
   * zero and negatives included) a van, up to 30 a taxibus, above that one
   * bus however large the count.
   */
  function VehiculoPorPasajeros(pasajeros: int): (v: Vehicle)
    ensures v == Van <==> pasajeros <= 15
    ensures v == Taxibus <==> 16 <= pasajeros <= 30
    ensures v == Bus <==> 31 <= pasajeros
  {
    if pasajeros <= 15 then Van
    else if pasajeros <= 30 then Taxibus
    else Bus
  }

  /** Base cost of running vehicle class `v` over the given distance and time. */
  function CostoBase(v: Vehicle, kmTotal: real, horasTotal: real): (c: real)
    ensures kmTotal >= 0.0 && horasTotal >= 0.0 ==> c >= 0.0
  {
    kmTotal * (Costos(v).km as real) + horasTotal * (Costos(v).hora as real)
  }

  /** `calcular_precio`, before rounding. */
  function CalcularPrecio(kmTotal: real, horasTotal: real, pasajeros: int): (q: Quote)
    ensures q.vehiculo == VehiculoPorPasajeros(pasajeros)
    ensures q.kmTotal == kmTotal && q.horasTotal == horasTotal
    ensures q.costoBase == CostoBase(q.vehiculo, kmTotal, horasTotal)
    ensures q.utilidad == Margen * q.costoBase
    ensures q.precioFinal == 1.35 * q.costoBase
  {
    var vehiculo := VehiculoPorPasajeros(pasajeros);
    var costoBase := CostoBase(vehiculo, kmTotal, horasTotal);
    var utilidad := costoBase * Margen;
    Quote(vehiculo, kmTotal, horasTotal, costoBase, utilidad, costoBase + utilidad)
  }

  /** More passengers never select a smaller class. */
  lemma VehicleMonotone(p: int, q: int)
    requires p <= q
    ensures Rank(VehiculoPorPasajeros(p)) <= Rank(VehiculoPorPasajeros(q))
  {
  }

  /** Any count above 30 is one bus: there is no split over several vehicles. */
  lemma LargeGroupsGetOneBus(p: int, km: real, horas: real)
    requires p > 30
    ensures CalcularPrecio(km, horas, p).vehiculo == Bus
    ensures CalcularPrecio(km, horas, p).costoBase == CostoBase(Bus, km, horas)
  {
  }

  /** Non-negative inputs give a non-negative base cost no larger than the final price. */
  lemma PriceBounds(km: real, horas: real, p: int)
    requires km >= 0.0 && horas >= 0.0
    ensures 0.0 <= CalcularPrecio(km, horas, p).costoBase <= CalcularPrecio(km, horas, p).precioFinal
  {
  }

  /** All classes share the hourly rate, so two classes differ only in the kilometre term. */
  lemma SameHourlyRate(v: Vehicle, w: Vehicle, km: real, horas: real)
    ensures CostoBase(v, km, horas) - CostoBase(w, km, horas)
            == km * ((Costos(v).km - Costos(w).km) as real)
  {
  }
}

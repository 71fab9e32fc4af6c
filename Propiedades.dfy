/**
 * Properties of the warranty rules: what the high-tier day-counting loop
 * computes, the Sunday deferral, the low tier, the price tiers and the
 * order of the request checks.
 */
module Propiedades {
  import opened Calendario
  import opened Dominio

  // ---------------------------------------------------------------------
  // Counting days in a half-open range [s, e)

  /** The number of days in [s, e) that are not Mondays. */
  function NoLunes(s: int, e: int): nat
    decreases e - s
  {
    if e <= s then 0 else (if EsLunes(s) then 0 else 1) + NoLunes(s + 1, e)
  }

  /** The number of Mondays in [s, e). */
  function Lunes(s: int, e: int): nat
    decreases e - s
  {
    if e <= s then 0 else (if EsLunes(s) then 1 else 0) + Lunes(s + 1, e)
  }

  /** Every day of a range is either a Monday or not. */
  lemma {:induction false} LunesYNoLunes(s: int, e: int)
    requires s <= e
    ensures NoLunes(s, e) + Lunes(s, e) == e - s
    decreases e - s
  {
    if s < e {
      LunesYNoLunes(s + 1, e);
    }
  }

  /** Counting over [s, e) is counting over [s, m) and then over [m, e). */
  lemma {:induction false} NoLunesConcat(s: int, m: int, e: int)
    requires s <= m <= e
    ensures NoLunes(s, e) == NoLunes(s, m) + NoLunes(m, e)
    decreases m - s
  {
    if s < m {
      NoLunesConcat(s + 1, m, e);
    }
  }

  /** Any seven consecutive days hold exactly one Monday. */
  lemma NoLunesSemana(d: int)
    ensures NoLunes(d, d + 7) == 6
  {
    DayOfWeekNext(d);
    DayOfWeekNext(d + 1);
    DayOfWeekNext(d + 2);
    DayOfWeekNext(d + 3);
    DayOfWeekNext(d + 4);
    DayOfWeekNext(d + 5);
    assert NoLunes(d + 6, d + 7) == (if EsLunes(d + 6) then 0 else 1);
    assert NoLunes(d + 5, d + 7) == (if EsLunes(d + 5) then 0 else 1) + NoLunes(d + 6, d + 7);
    assert NoLunes(d + 4, d + 7) == (if EsLunes(d + 4) then 0 else 1) + NoLunes(d + 5, d + 7);
    assert NoLunes(d + 3, d + 7) == (if EsLunes(d + 3) then 0 else 1) + NoLunes(d + 4, d + 7);
    assert NoLunes(d + 2, d + 7) == (if EsLunes(d + 2) then 0 else 1) + NoLunes(d + 3, d + 7);
    assert NoLunes(d + 1, d + 7) == (if EsLunes(d + 1) then 0 else 1) + NoLunes(d + 2, d + 7);
  }

  /** k whole weeks hold 6 * k days that are not Mondays. */
  lemma {:induction false} NoLunesSemanas(d: int, k: nat)
    ensures NoLunes(d, d + 7 * k) == 6 * k
  {
    if k > 0 {
      NoLunesSemanas(d, k - 1);
      NoLunesConcat(d, d + 7 * (k - 1), d + 7 * k);
      NoLunesSemana(d + 7 * (k - 1));
    }
  }

  // ---------------------------------------------------------------------
  // The high-tier loop

  /**
   * The loop run from day d with contador days counted stops on the first
   * day e after d such that [d, e) holds the remaining days not on a
   * Monday; the last day it steps over is not a Monday.
   */
  lemma {:induction false} FinConteoCaracterizacion(d: int, contador: nat)
    requires contador < DIAS_GARANTIA_VEINTE_PORCIENTO
    ensures d < FinConteo(d, contador)
    ensures contador + NoLunes(d, FinConteo(d, contador)) == DIAS_GARANTIA_VEINTE_PORCIENTO
    ensures !EsLunes(FinConteo(d, contador) - 1)
    ensures forall x :: d < x < FinConteo(d, contador) ==> contador + NoLunes(d, x) < DIAS_GARANTIA_VEINTE_PORCIENTO
    decreases DIAS_GARANTIA_VEINTE_PORCIENTO - contador, if EsLunes(d) then 1 else 0
  {
    DayOfWeekNext(d);
    var contador' := if !EsLunes(d) then contador + 1 else contador;
    if contador' < DIAS_GARANTIA_VEINTE_PORCIENTO {
      FinConteoCaracterizacion(d + 1, contador');
      var e := FinConteo(d + 1, contador');
      assert FinConteo(d, contador) == e;
      forall x | d < x < e
        ensures contador + NoLunes(d, x) < DIAS_GARANTIA_VEINTE_PORCIENTO
      {
        assert NoLunes(d, x) == (if EsLunes(d) then 0 else 1) + NoLunes(d + 1, x);
      }
    } else {
      assert FinConteo(d, contador) == d + 1;
      assert NoLunes(d, d + 1) == 1;
    }
  }

  /**
   * The days the loop moves the calendar: 200, plus one for every Monday
   * in [inicio, fin).
   */
  lemma DiasTranscurridosGamaAlta(inicio: int)
    ensures FinConteo(inicio, 0) - inicio ==
            DIAS_GARANTIA_VEINTE_PORCIENTO + Lunes(inicio, FinConteo(inicio, 0))
    ensures !EsLunes(FinConteo(inicio, 0) - 1)
  {
    FinConteoCaracterizacion(inicio, 0);
    LunesYNoLunes(inicio, FinConteo(inicio, 0));
  }

  /** Of two ends with 200 counted days whose last day counts, neither comes first. */
  lemma FinUnico(s: int, e1: int, e2: int)
    requires s < e1 && s < e2
    requires NoLunes(s, e1) == NoLunes(s, e2)
    requires !EsLunes(e1 - 1) && !EsLunes(e2 - 1)
    requires forall x :: s < x < e1 ==> NoLunes(s, x) < NoLunes(s, e1)
    ensures e1 == e2
  {
    if e1 < e2 {
      NoLunesConcat(s, e1, e2);
      NoLunesConcat(e1, e2 - 1, e2);
    }
  }

  /**
   * The loop in closed form: 33 weeks hold 198 counted days, and two more
   * counted days follow unless a Monday falls among them.
   */
  lemma FinConteoFormaCerrada(inicio: int)
    ensures FinConteo(inicio, 0) ==
            inicio + (if DayOfWeek(inicio) == MONDAY || DayOfWeek(inicio) == SUNDAY then 234 else 233)
  {
    var extra := if DayOfWeek(inicio) == MONDAY || DayOfWeek(inicio) == SUNDAY then 234 else 233;
    var e := inicio + extra;
    NoLunesSemanas(inicio, 33);
    NoLunesConcat(inicio, inicio + 231, e);
    DayOfWeekPeriod(inicio, 33);
    DayOfWeekPeriod(inicio + 1, 33);
    DayOfWeekPeriod(inicio + 2, 33);
    DayOfWeekNext(inicio);
    DayOfWeekNext(inicio + 1);
    if extra == 233 {
      assert NoLunes(inicio + 231, e) == (if EsLunes(inicio + 231) then 0 else 1) + NoLunes(inicio + 232, e);
      assert NoLunes(inicio + 232, e) == 1;
    } else {
      assert NoLunes(inicio + 231, e) == (if EsLunes(inicio + 231) then 0 else 1) + NoLunes(inicio + 232, e);
      assert NoLunes(inicio + 232, e) == (if EsLunes(inicio + 232) then 0 else 1) + NoLunes(inicio + 233, e);
      assert NoLunes(inicio + 233, e) == 1;
    }
    assert NoLunes(inicio, e) == DIAS_GARANTIA_VEINTE_PORCIENTO;
    FinConteoCaracterizacion(inicio, 0);
    FinUnico(inicio, FinConteo(inicio, 0), e);
  }

  /** The loop ends on a Sunday exactly when it starts on a Friday. */
  lemma FinConteoEnDomingo(inicio: int)
    ensures DayOfWeek(FinConteo(inicio, 0)) == SUNDAY <==> DayOfWeek(inicio) == FRIDAY
  {
    FinConteoFormaCerrada(inicio);
    DayOfWeekPeriod(inicio, 33);
  }

  /**
   * The high-tier expiration in closed form, and its weekday: never a
   * Sunday, because a Sunday is moved on by exactly two days, to a Tuesday.
   */
  lemma FechaFinGamaAlta(inicio: int, precioProducto: real)
    requires EsGamaAlta(precioProducto)
    ensures FechaFinGarantia(inicio, precioProducto) == inicio +
      (if DayOfWeek(inicio) == MONDAY || DayOfWeek(inicio) == SUNDAY then 234
       else if DayOfWeek(inicio) == FRIDAY then 235
       else 233)
    ensures DayOfWeek(FechaFinGarantia(inicio, precioProducto)) != SUNDAY
    ensures DayOfWeek(inicio) == FRIDAY ==> DayOfWeek(FechaFinGarantia(inicio, precioProducto)) == TUESDAY
  {
    FinConteoFormaCerrada(inicio);
    FinConteoEnDomingo(inicio);
    DayOfWeekPeriod(inicio, 33);
  }

  // ---------------------------------------------------------------------
  // Pricer

  /** 20% strictly above 500000, otherwise 10%. */
  lemma PrecioPorTramo(precioProducto: real)
    ensures precioProducto > 500000.0 ==> PrecioGarantia(precioProducto) == precioProducto / 5.0
    ensures precioProducto <= 500000.0 ==> PrecioGarantia(precioProducto) == precioProducto / 10.0
  {
  }

  /** The tier that sets the 20% price is exactly the one whose warranty outlasts 100 days. */
  lemma MismoTramo(inicio: int, precioProducto: real)
    ensures EsGamaAlta(precioProducto) <==> FechaFinGarantia(inicio, precioProducto) > inicio + DIAS_GARANTIA_DIEZ_PORCIENTO
  {
    if EsGamaAlta(precioProducto) {
      FechaFinGamaAlta(inicio, precioProducto);
    }
  }

  // ---------------------------------------------------------------------
  // Validator

  /**
   * The checks run in order and the first failing one decides: missing
   * data whatever the warranties, then an existing warranty, then exactly
   * three vowels.
   */
  lemma OrdenValidacion(codigo: Option<string>, nombreCliente: Option<string>, asegurados: set<string>)
    ensures EsNuloOVacio(codigo) || EsNuloOVacio(nombreCliente) ==>
      Rechazo(codigo, nombreCliente, asegurados) == Some(DATOS_OBLIGATORIOS)
    ensures !EsNuloOVacio(codigo) && !EsNuloOVacio(nombreCliente) && codigo.value in asegurados ==>
      Rechazo(codigo, nombreCliente, asegurados) == Some(EL_PRODUCTO_TIENE_GARANTIA)
    ensures !EsNuloOVacio(codigo) && !EsNuloOVacio(nombreCliente) && codigo.value !in asegurados &&
            NumeroVocales(codigo.value) == 3 ==>
      Rechazo(codigo, nombreCliente, asegurados) == Some(PRODUCTO_SIN_GARANTIA)
  {
  }

  // ---------------------------------------------------------------------
  // Registrar

  /**
   * The record built for a registration keeps the product, the customer
   * name and the request instant, and its end date and price follow the
   * product's tier.
   */
  lemma NuevaGarantiaCampos(producto: Producto, nombreCliente: string, ahora: int)
    ensures NuevaGarantia(producto, nombreCliente, ahora).producto == producto
    ensures NuevaGarantia(producto, nombreCliente, ahora).nombreCliente == nombreCliente
    ensures NuevaGarantia(producto, nombreCliente, ahora).fechaSolicitudGarantia == ahora
    ensures NuevaGarantia(producto, nombreCliente, ahora).precioGarantia == PrecioGarantia(producto.precio)
    ensures ahora + 100 <= NuevaGarantia(producto, nombreCliente, ahora).fechaFinGarantia <= ahora + 235
  {
    if EsGamaAlta(producto.precio) {
      FechaFinGamaAlta(ahora, producto.precio);
    }
  }
}

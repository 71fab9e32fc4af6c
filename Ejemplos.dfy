/**
 * The concrete cases of the repository's unit and integration tests,
 * stated against the model. Dates are written as calendar dates and
 * turned into day numbers; the default product price is 780000.
 */
module Ejemplos {
  import opened Calendario
  import opened Dominio
  import opened Propiedades

  const PRECIO_POR_DEFECTO: real := 780000.0
  const NOMBRE_CLIENTE: string := "Ricardo Ayala Martínez"

  // The codes, dates and prices of the tests enter the lemmas below as
  // parameters fixed by a requires clause, so that the verifier reasons
  // from the lemmas about the rules instead of unfolding them on literals.

  /** "A213398i" has two vowels and is accepted (codigoNoTieneTresVocales). */
  lemma CodigoNoTieneTresVocales(codigo: string)
    requires codigo == "A213398i"
    ensures NumeroVocales(codigo) == 2
    ensures !ValidarVocales(codigo)
  {
    assert NumeroVocales("A213398i") == 2;
  }

  /** "A213e98i" has three vowels and is refused (codigoSiTieneTresVocales). */
  lemma CodigoSiTieneTresVocales(codigo: string)
    requires codigo == "A213e98i"
    ensures NumeroVocales(codigo) == 3
    ensures ValidarVocales(codigo)
  {
    assert NumeroVocales("A213e98i") == 3;
  }

  /** "a123ebI213" has three vowels, upper and lower case (productoNoCuentaConGarantiaExtendida). */
  lemma CodigoConMayusculasTieneTresVocales(codigo: string)
    requires codigo == "a123ebI213"
    ensures ValidarVocales(codigo)
  {
    assert NumeroVocales("a123ebI213") == 3;
  }

  /** The dates of the tests as day numbers, with their weekdays. */
  lemma FechasDePrueba()
    ensures DaysFromCivil(CivilDate(2018, 8, 16)) == 17759 && DayOfWeek(17759) == THURSDAY
    ensures DaysFromCivil(CivilDate(2018, 8, 17)) == 17760 && DayOfWeek(17760) == FRIDAY
    ensures DaysFromCivil(CivilDate(2018, 11, 25)) == 17860
    ensures DaysFromCivil(CivilDate(2019, 4, 6)) == 17992 && DayOfWeek(17992) == SATURDAY
    ensures DaysFromCivil(CivilDate(2019, 4, 7)) == 17993 && DayOfWeek(17993) == SUNDAY
    ensures DaysFromCivil(CivilDate(2019, 4, 9)) == 17995 && DayOfWeek(17995) == TUESDAY
  {
  }

  /** The two price tiers of the unit tests. */
  lemma EjemplosPrecio()
    ensures CalcularPrecioGarantia(650000.0, VEINTE_PORCIENTO) == 130000.0
    ensures CalcularPrecioGarantia(450000.0, DIEZ_PORCIENTO) == 45000.0
    ensures PrecioGarantia(650000.0) == 130000.0
    ensures PrecioGarantia(450000.0) == 45000.0
  {
  }

  /** The default product of the integration tests: 780000 gives a warranty of 156000. */
  lemma PrecioPorDefecto()
    ensures PrecioGarantia(PRECIO_POR_DEFECTO) == 156000.0
  {
  }

  /** The edge of the rule, which no test covers: exactly 500000 is still the 10% tier. */
  lemma PrecioEnElUmbral()
    ensures !EsGamaAlta(PRECIO_BASE_GARANTIA)
    ensures PrecioGarantia(PRECIO_BASE_GARANTIA) == 50000.0
  {
  }

  /** 16/08/2018, a Thursday, gives 06/04/2019, a Saturday: no deferral (fechaFinalizacionDoscientosDias). */
  lemma FechaFinalizacionDoscientosDias(inicio: int)
    requires inicio == DaysFromCivil(CivilDate(2018, 8, 16))
    ensures FechaFinGarantia(inicio, PRECIO_POR_DEFECTO) == DaysFromCivil(CivilDate(2019, 4, 6))
  {
    FechasDePrueba();
    FechaFinGamaAlta(inicio, PRECIO_POR_DEFECTO);
  }

  /**
   * 17/08/2018, a Friday: the loop stops on Sunday 07/04/2019, which is
   * moved to Tuesday 09/04/2019 (garantiaExtendidaReglaVeintePorcDoscientosDiasDomingo).
   */
  lemma FechaFinalizacionDoscientosDiasDomingo(inicio: int)
    requires inicio == DaysFromCivil(CivilDate(2018, 8, 17))
    ensures FinConteo(inicio, 0) == DaysFromCivil(CivilDate(2019, 4, 7))
    ensures DayOfWeek(FinConteo(inicio, 0)) == SUNDAY
    ensures FechaFinGarantia(inicio, PRECIO_POR_DEFECTO) == DaysFromCivil(CivilDate(2019, 4, 9))
  {
    FechasDePrueba();
    FinConteoFormaCerrada(inicio);
  }

  /** 17/08/2018 at 450000 gives 25/11/2018, exactly 100 days later (fechaFinalizacionCienDias). */
  lemma FechaFinalizacionCienDias(inicio: int)
    requires inicio == DaysFromCivil(CivilDate(2018, 8, 17))
    ensures FechaFinGarantia(inicio, 450000.0) == DaysFromCivil(CivilDate(2018, 11, 25))
  {
    FechasDePrueba();
  }

  /**
   * generarGarantiaTest and productoYaTieneGarantiaTest: a registered
   * warranty is found by its code with the customer's name, and a second
   * request for the same code is refused as already insured.
   */
  method EscenarioGenerarDosVeces(ahora: int) returns (primero: Resultado, nombre: string, segundo: Resultado)
    ensures primero == Exito && nombre == NOMBRE_CLIENTE
    ensures segundo == Excepcion(EL_PRODUCTO_TIENE_GARANTIA)
  {
    var repositorioProducto := new RepositorioProducto();
    var repositorioGarantia := new RepositorioGarantiaExtendida();
    var producto := Producto("C001", "Computador Lenovo", PRECIO_POR_DEFECTO);
    repositorioProducto.Agregar(producto);
    var vendedor := new Vendedor(repositorioProducto, repositorioGarantia);

    primero := vendedor.GenerarGarantia(Some("C001"), Some(NOMBRE_CLIENTE), ahora);
    assert primero == Exito;
    assert vendedor.TieneGarantia("C001");
    var garantia := repositorioGarantia.Obtener("C001");
    assert garantia.Some?;
    nombre := garantia.value.nombreCliente;
    assert garantia.value.fechaSolicitudGarantia == ahora;
    assert garantia.value.precioGarantia == 156000.0;

    segundo := vendedor.GenerarGarantia(Some("C001"), Some(NOMBRE_CLIENTE), ahora);
  }

  /** faltanDatosObligatorios: a null code with an empty name is refused and nothing is stored. */
  method EscenarioFaltanDatos(ahora: int) returns (r: Resultado, almacenadas: nat)
    ensures r == Excepcion(DATOS_OBLIGATORIOS)
    ensures almacenadas == 0
  {
    var repositorioProducto := new RepositorioProducto();
    var repositorioGarantia := new RepositorioGarantiaExtendida();
    var vendedor := new Vendedor(repositorioProducto, repositorioGarantia);

    r := vendedor.GenerarGarantia(None, Some(""), ahora);
    almacenadas := |repositorioGarantia.garantias|;
  }

  /**
   * productoNoCuentaConGarantiaExtendida: a product whose code has three
   * vowels is refused and stays without a warranty.
   */
  method EscenarioTresVocales(codigo: string, ahora: int) returns (r: Resultado, asegurado: bool)
    requires codigo == "a123ebI213"
    ensures r == Excepcion(PRODUCTO_SIN_GARANTIA)
    ensures !asegurado
  {
    var repositorioProducto := new RepositorioProducto();
    var repositorioGarantia := new RepositorioGarantiaExtendida();
    repositorioProducto.Agregar(Producto(codigo, "Computador Lenovo", PRECIO_POR_DEFECTO));
    var vendedor := new Vendedor(repositorioProducto, repositorioGarantia);

    CodigoConMayusculasTieneTresVocales(codigo);
    r := vendedor.GenerarGarantia(Some(codigo), Some(NOMBRE_CLIENTE), ahora);
    asegurado := vendedor.TieneGarantia(codigo);
  }
}

/**
 * The extended-warranty rule engine of class dominio.Vendedor: the request
 * validator, the pricer, the expiration calculator and the registrar, with
 * the product and warranty repositories it works against.
 */
module Dominio {
  import opened Calendario

  /** A Java reference that may be null: None stands for null. */
  datatype Option<T> = None | Some(value: T)

  const DATOS_OBLIGATORIOS: string := "El código del producto y el nombre del cliente son requeridos para la generación de la garantía"
  const EL_PRODUCTO_TIENE_GARANTIA: string := "El producto ya cuenta con una garantia extendida"
  const PRODUCTO_SIN_GARANTIA: string := "Este producto no cuenta con garantía extendida"
  /** The pattern handed to replaceAll: an alternation of single characters. */
  const VOCALES: string := "a|A|e|E|i|I|o|O|u|U"
  const PRECIO_BASE_GARANTIA: real := 500000.0
  const VEINTE_PORCIENTO: real := 0.2
  const DIEZ_PORCIENTO: real := 0.1
  const DIAS_GARANTIA_VEINTE_PORCIENTO: nat := 200
  const DIAS_GARANTIA_DIEZ_PORCIENTO: nat := 100

  datatype Producto = Producto(codigo: string, nombre: string, precio: real)

  /** A warranty record; both dates are day numbers. */
  datatype GarantiaExtendida = GarantiaExtendida(
    producto: Producto,
    fechaSolicitudGarantia: int,
    fechaFinGarantia: int,
    precioGarantia: real,
    nombreCliente: string)

  /** How a call to generarGarantia ends: normally, or with a GarantiaExtendidaException and its message. */
  datatype Resultado = Exito | Excepcion(mensaje: string)

  // ---------------------------------------------------------------------
  // Validator

  /** esNuloOVacio: the string is null or has no characters. */
  predicate EsNuloOVacio(dato: Option<string>): (vacio: bool)
    ensures vacio <==> dato == None || dato == Some("")
  {
    dato.None? || |dato.value| == 0
  }

  /** A vowel, upper or lower case. */
  predicate EsVocal(c: char)
  {
    c in {'a', 'A', 'e', 'E', 'i', 'I', 'o', 'O', 'u', 'U'}
  }

  /** The vowels are exactly the characters the alternatives of VOCALES match. */
  lemma VocalesPatron(c: char)
    ensures EsVocal(c) <==> c != '|' && c in VOCALES
  {
  }

  /** codigo.replaceAll(VOCALES, ""): the code with every vowel character deleted. */
  function QuitarVocales(s: string): (r: string)
    ensures |r| <= |s|
    ensures forall i :: 0 <= i < |r| ==> !EsVocal(r[i])
  {
    if s == [] then [] else (if EsVocal(s[0]) then [] else [s[0]]) + QuitarVocales(s[1..])
  }

  /** Deleting the vowels keeps every other character, as often as it occurs. */
  lemma {:induction false} QuitarVocalesConserva(s: string, c: char)
    requires !EsVocal(c)
    ensures multiset(QuitarVocales(s))[c] == multiset(s)[c]
  {
    if s != [] {
      QuitarVocalesConserva(s[1..], c);
      assert s == [s[0]] + s[1..];
    }
  }

  /** The number of vowels in s, counted character by character. */
  function NumeroVocales(s: string): nat
  {
    if s == [] then 0 else (if EsVocal(s[0]) then 1 else 0) + NumeroVocales(s[1..])
  }

  /** Deleting the vowels shortens the code by exactly its number of vowels. */
  lemma {:induction false} QuitarVocalesLongitud(s: string)
    ensures |s| - |QuitarVocales(s)| == NumeroVocales(s)
  {
    if s != [] {
      QuitarVocalesLongitud(s[1..]);
    }
  }

  /** The vowel count is the sum of the occurrences of the ten vowel characters. */
  lemma {:induction false} NumeroVocalesOcurrencias(s: string)
    ensures var m := multiset(s);
      NumeroVocales(s) == m['a'] + m['A'] + m['e'] + m['E'] + m['i'] + m['I'] + m['o'] + m['O'] + m['u'] + m['U']
  {
    if s != [] {
      NumeroVocalesOcurrencias(s[1..]);
      assert s == [s[0]] + s[1..];
      assert multiset(s) == multiset{s[0]} + multiset(s[1..]);
    }
  }

  /** validarVocales: the code has exactly three vowels (not "at least" three). */
  function ValidarVocales(codigo: string): (tres: bool)
    ensures tres <==> NumeroVocales(codigo) == 3
  {
    QuitarVocalesLongitud(codigo);
    |codigo| - |QuitarVocales(codigo)| == 3
  }

  /**
   * The rejection chain of generarGarantia for a request, given the codes
   * that already carry a warranty: the message of the first failing check,
   * or None when the request is accepted.
   */
  function Rechazo(codigo: Option<string>, nombreCliente: Option<string>, asegurados: set<string>): (r: Option<string>)
    ensures r.None? <==>
      codigo.Some? && |codigo.value| > 0 && nombreCliente.Some? && |nombreCliente.value| > 0 &&
      codigo.value !in asegurados && NumeroVocales(codigo.value) != 3
    ensures r.Some? ==>
      r.value == DATOS_OBLIGATORIOS || r.value == EL_PRODUCTO_TIENE_GARANTIA || r.value == PRODUCTO_SIN_GARANTIA
  {
    if EsNuloOVacio(codigo) || EsNuloOVacio(nombreCliente) then Some(DATOS_OBLIGATORIOS)
    else if codigo.value in asegurados then Some(EL_PRODUCTO_TIENE_GARANTIA)
    else if ValidarVocales(codigo.value) then Some(PRODUCTO_SIN_GARANTIA)
    else None
  }

  // ---------------------------------------------------------------------
  // Pricer

  /** The price tier shared by the pricer and the expiration calculator. */
  predicate EsGamaAlta(precioProducto: real)
  {
    precioProducto > PRECIO_BASE_GARANTIA
  }

  /** calcularPrecioGarantia: the given percentage of the product price. */
  function CalcularPrecioGarantia(precioProducto: real, porcentaje: real): (precioGarantia: real)
    ensures precioProducto >= 0.0 && 0.0 <= porcentaje <= 1.0 ==> 0.0 <= precioGarantia <= precioProducto
  {
    precioProducto * porcentaje
  }

  /** The warranty price registrarGarantiaExtendida computes for a product price. */
  function PrecioGarantia(precioProducto: real): (precioGarantia: real)
    ensures precioProducto >= 0.0 ==>
      precioProducto / 10.0 <= precioGarantia <= precioProducto / 5.0
    ensures precioProducto > 0.0 ==>
      (precioGarantia == precioProducto / 5.0 <==> EsGamaAlta(precioProducto))
  {
    if EsGamaAlta(precioProducto) then CalcularPrecioGarantia(precioProducto, VEINTE_PORCIENTO)
    else CalcularPrecioGarantia(precioProducto, DIEZ_PORCIENTO)
  }

  // ---------------------------------------------------------------------
  // Expiration calculator

  predicate EsLunes(d: int)
  {
    DayOfWeek(d) == MONDAY
  }

  /**
   * The do-while loop of the high tier, from an iteration that starts on
   * day d with contador days already counted: the day it leaves the
   * calendar on. Each iteration tests the day it starts on, then steps.
   */
  function FinConteo(d: int, contador: nat): (fin: int)
    requires contador < DIAS_GARANTIA_VEINTE_PORCIENTO
    ensures d + (DIAS_GARANTIA_VEINTE_PORCIENTO - contador) <= fin
    decreases DIAS_GARANTIA_VEINTE_PORCIENTO - contador, if EsLunes(d) then 1 else 0
  {
    DayOfWeekNext(d);
    var contador' := if !EsLunes(d) then contador + 1 else contador;
    if contador' < DIAS_GARANTIA_VEINTE_PORCIENTO then FinConteo(d + 1, contador') else d + 1
  }

  /** The expiration date calcularFechaGaratia computes from a start day and a product price. */
  function FechaFinGarantia(inicio: int, precioProducto: real): (fin: int)
    ensures EsGamaAlta(precioProducto) ==>
      inicio + DIAS_GARANTIA_VEINTE_PORCIENTO <= fin && DayOfWeek(fin) != SUNDAY
    ensures !EsGamaAlta(precioProducto) ==> fin == inicio + DIAS_GARANTIA_DIEZ_PORCIENTO
  {
    if EsGamaAlta(precioProducto) then
      var fin := FinConteo(inicio, 0);
      if DayOfWeek(fin) == SUNDAY then fin + 2 else fin
    else
      inicio + DIAS_GARANTIA_DIEZ_PORCIENTO
  }

  // ---------------------------------------------------------------------
  // Registrar

  /** The record registrarGarantiaExtendida builds for a product, a customer and the request instant. */
  function NuevaGarantia(producto: Producto, nombreCliente: string, ahora: int): (garantia: GarantiaExtendida)
    ensures garantia.producto.codigo == producto.codigo
    ensures garantia.fechaSolicitudGarantia == ahora
    ensures ahora + DIAS_GARANTIA_DIEZ_PORCIENTO <= garantia.fechaFinGarantia
  {
    GarantiaExtendida(producto, ahora, FechaFinGarantia(ahora, producto.precio),
                      PrecioGarantia(producto.precio), nombreCliente)
  }

  // ---------------------------------------------------------------------
  // Repositories, as maps from product code

  class RepositorioProducto {
    var productos: map<string, Producto>

    /** Every product is stored under its own code. */
    ghost predicate Valid()
      reads this
    {
      forall c :: c in productos ==> productos[c].codigo == c
    }

    constructor ()
      ensures Valid() && productos == map[]
    {
      productos := map[];
    }

    function ObtenerPorCodigo(codigo: string): (p: Option<Producto>)
      reads this
      ensures p.Some? <==> codigo in productos
      ensures p.Some? ==> p.value == productos[codigo]
      ensures Valid() && p.Some? ==> p.value.codigo == codigo
    {
      if codigo in productos then Some(productos[codigo]) else None
    }

    method Agregar(producto: Producto)
      requires Valid()
      modifies this
      ensures Valid()
      ensures productos == old(productos)[producto.codigo := producto]
    {
      productos := productos[producto.codigo := producto];
    }
  }

  class RepositorioGarantiaExtendida {
    var garantias: map<string, GarantiaExtendida>

    /** Every warranty is stored under the code of its product. */
    ghost predicate Valid()
      reads this
    {
      forall c :: c in garantias ==> garantias[c].producto.codigo == c
    }

    constructor ()
      ensures Valid() && garantias == map[]
    {
      garantias := map[];
    }

    function Obtener(codigo: string): (g: Option<GarantiaExtendida>)
      reads this
      ensures g.Some? <==> codigo in garantias
      ensures g.Some? ==> g.value == garantias[codigo]
      ensures Valid() && g.Some? ==> g.value.producto.codigo == codigo
    {
      if codigo in garantias then Some(garantias[codigo]) else None
    }

    /** The product of the warranty stored under the code, if there is one. */
    function ObtenerProductoConGarantiaPorCodigo(codigo: string): (p: Option<Producto>)
      reads this
      ensures p.Some? <==> Obtener(codigo).Some?
      ensures Valid() && p.Some? ==> p.value.codigo == codigo
    {
      if codigo in garantias then Some(garantias[codigo].producto) else None
    }

    method Agregar(garantia: GarantiaExtendida)
      requires Valid()
      modifies this
      ensures Valid()
      ensures garantias == old(garantias)[garantia.producto.codigo := garantia]
    {
      garantias := garantias[garantia.producto.codigo := garantia];
    }
  }

  // ---------------------------------------------------------------------
  // The seller

  class Vendedor {
    const repositorioProducto: RepositorioProducto
    const repositorioGarantia: RepositorioGarantiaExtendida

    ghost predicate Valid()
      reads this, repositorioProducto, repositorioGarantia
    {
      repositorioProducto.Valid() && repositorioGarantia.Valid()
    }

    constructor (repositorioProducto: RepositorioProducto, repositorioGarantia: RepositorioGarantiaExtendida)
      requires repositorioProducto.Valid() && repositorioGarantia.Valid()
      ensures Valid()
      ensures this.repositorioProducto == repositorioProducto
      ensures this.repositorioGarantia == repositorioGarantia
    {
      this.repositorioProducto := repositorioProducto;
      this.repositorioGarantia := repositorioGarantia;
    }

    /** tieneGarantia: the product has a warranty, by either lookup of the warranty repository. */
    function TieneGarantia(codigo: string): (tiene: bool)
      reads this, repositorioGarantia
      ensures tiene <==> codigo in repositorioGarantia.garantias
      ensures tiene <==> repositorioGarantia.Obtener(codigo).Some?
    {
      repositorioGarantia.ObtenerProductoConGarantiaPorCodigo(codigo).Some?
    }

    /**
     * generarGarantia: validates the request and, when every check passes,
     * registers the warranty. The product must exist when the checks pass.
     */
    method GenerarGarantia(codigo: Option<string>, nombreCliente: Option<string>, ahora: int) returns (r: Resultado)
      requires Valid()
      requires Rechazo(codigo, nombreCliente, repositorioGarantia.garantias.Keys).None? ==>
        codigo.value in repositorioProducto.productos
      modifies repositorioGarantia
      ensures Valid()
      ensures r == match Rechazo(codigo, nombreCliente, old(repositorioGarantia.garantias).Keys)
                   case Some(mensaje) => Excepcion(mensaje)
                   case None => Exito
      ensures r.Excepcion? ==> repositorioGarantia.garantias == old(repositorioGarantia.garantias)
      ensures r.Exito? ==> TieneGarantia(codigo.value)
      ensures r.Exito? ==>
        repositorioGarantia.garantias == old(repositorioGarantia.garantias)[codigo.value :=
          NuevaGarantia(repositorioProducto.productos[codigo.value], nombreCliente.value, ahora)]
    {
      if EsNuloOVacio(codigo) || EsNuloOVacio(nombreCliente) {
        r := Excepcion(DATOS_OBLIGATORIOS);
      } else if TieneGarantia(codigo.value) {
        r := Excepcion(EL_PRODUCTO_TIENE_GARANTIA);
      } else if ValidarVocales(codigo.value) {
        r := Excepcion(PRODUCTO_SIN_GARANTIA);
      } else {
        RegistrarGarantiaExtendida(codigo.value, nombreCliente.value, ahora);
        r := Exito;
      }
    }

    /**
     * registrarGarantiaExtendida: looks the product up, prices the warranty,
     * computes its end date on a calendar copy of "now" and adds the record.
     */
    method RegistrarGarantiaExtendida(codigo: string, nombreCliente: string, ahora: int)
      requires Valid()
      requires codigo in repositorioProducto.productos
      modifies repositorioGarantia
      ensures Valid()
      ensures repositorioGarantia.garantias ==
        old(repositorioGarantia.garantias)[codigo := NuevaGarantia(repositorioProducto.productos[codigo], nombreCliente, ahora)]
    {
      var producto := repositorioProducto.ObtenerPorCodigo(codigo).value;
      var precioProducto := producto.precio;
      var precioGarantia := 0.0;
      var fechaSolicitudGarantia := ahora;
      var fecha := new Calendar(fechaSolicitudGarantia);
      if precioProducto > PRECIO_BASE_GARANTIA {
        precioGarantia := CalcularPrecioGarantia(precioProducto, VEINTE_PORCIENTO);
      } else {
        precioGarantia := CalcularPrecioGarantia(precioProducto, DIEZ_PORCIENTO);
      }
      var fechaFinGarantia := CalcularFechaGarantia(fecha, precioProducto);
      var garantia := GarantiaExtendida(producto, fechaSolicitudGarantia, fechaFinGarantia,
                                        precioGarantia, nombreCliente);
      repositorioGarantia.Agregar(garantia);
    }

    /**
     * calcularFechaGaratia: moves the given calendar to the warranty end date
     * and returns that date.
     */
    method CalcularFechaGarantia(fechaInicial: Calendar, precioProducto: real) returns (fechaFin: int)
      modifies fechaInicial
      ensures fechaFin == fechaInicial.time
      ensures fechaFin == FechaFinGarantia(old(fechaInicial.time), precioProducto)
    {
      if precioProducto > PRECIO_BASE_GARANTIA {
        ghost var fin := FinConteo(fechaInicial.time, 0);
        var contadorDiasGarantia := 0;
        while true
          invariant contadorDiasGarantia < DIAS_GARANTIA_VEINTE_PORCIENTO
          invariant FinConteo(fechaInicial.time, contadorDiasGarantia) == fin
          decreases DIAS_GARANTIA_VEINTE_PORCIENTO - contadorDiasGarantia, if EsLunes(fechaInicial.time) then 1 else 0
        {
          DayOfWeekNext(fechaInicial.time);
          if fechaInicial.GetDayOfWeek() != MONDAY {
            contadorDiasGarantia := contadorDiasGarantia + 1;
          }
          fechaInicial.AddDays(1);
          if contadorDiasGarantia >= DIAS_GARANTIA_VEINTE_PORCIENTO {
            break;
          }
        }
        if fechaInicial.GetDayOfWeek() == SUNDAY {
          fechaInicial.AddDays(2);
        }
      } else {
        fechaInicial.AddDays(DIAS_GARANTIA_DIEZ_PORCIENTO);
      }
      fechaFin := fechaInicial.time;
    }
  }
}

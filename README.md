# Extended-warranty rules of `Vendedor`, in Dafny

This project models the class `dominio.Vendedor`, the rule engine that
decides whether a product may get an extended warranty, what the warranty
costs and when it ends, and that registers it. It has four parts:

- **Validator** (`generarGarantia`, `esNuloOVacio`, `tieneGarantia`,
  `validarVocales`): an ordered chain of rejections. A null or empty code or
  customer name fails first. An existing warranty fails next. A product code
  with exactly three vowels fails last. The last rule is kept exactly as the
  code has it: three vowels means "no warranty".
- **Pricer** (`calcularPrecioGarantia` and the tier choice in
  `registrarGarantiaExtendida`): 20% of the product price strictly above
  500000, otherwise 10%.
- **Expiration calculator** (`calcularFechaGaratia`): for the high tier, a
  do-while loop that steps the calendar one day at a time and counts 200
  days that are not Mondays, then moves a Sunday on by two days, once. For
  the low tier, exactly 100 days.
- **Registrar** (`registrarGarantiaExtendida`): builds the warranty record
  and adds it to the warranty repository.

Files and modules:

- `Calendario.dfy` (module `Calendario`): dates as day numbers counted from
  1970-01-01, weekdays numbered as `java.util.Calendar` numbers them
  (`SUNDAY` = 1 … `SATURDAY` = 7), a `Calendar` class that holds one day
  number, and the Gregorian calendar that turns a dd/MM/yyyy date into a day
  number. The lemma `DaysFromCivilNext` ties the day numbering to the
  calendar: the next calendar date has the next day number.
- `Vendedor.dfy` (module `Dominio`): the constants, the records, the pure
  rules as functions, the specification functions `FinConteo` (the loop)
  and `FechaFinGarantia` (the expiration date), the two repositories as
  classes over maps, and the class `Vendedor`. `GenerarGarantia`,
  `RegistrarGarantiaExtendida` and `CalcularFechaGarantia` are methods that
  change state. `CalcularFechaGarantia` keeps the do-while loop, and its loop
  invariant ties it to `FinConteo`.
- `Propiedades.dfy` (module `Propiedades`): what the loop computes, its
  closed form, the Sunday deferral, the low tier, the price tiers, the order
  of the checks, and the fields of a new record.
- `Ejemplos.dfy` (module `Ejemplos`): the concrete codes, prices and dates of
  the repository's unit and integration tests, and three scenarios that call
  `GenerarGarantia` on fresh repositories.

How the model represents the source:

- The current time is a parameter `ahora` (a day number). The source reads it
  from the clock with `new Date()` and `Calendar.getInstance()`.
- A Java `String` that may be null is an `Option<string>`.
- A `GarantiaExtendidaException` is the result `Excepcion(mensaje)`, carrying
  the same message constant. A normal return is `Exito`.
- The repositories keep maps from product code to record, in the classes
  `RepositorioProducto` and `RepositorioGarantiaExtendida`. Only the
  operations the rules and the tests use are modelled.
- Prices are `real`.

The loop in closed form (`FinConteoFormaCerrada`): the loop moves the
calendar 234 days when it starts on a Monday or a Sunday, and 233 days
otherwise. It ends on a Sunday exactly when it starts on a Friday
(`FinConteoEnDomingo`). So a high-tier warranty lasts 233, 234 or 235 days,
and never ends on a Sunday (`FechaFinGamaAlta`).

The loop tests the weekday of the day held *before* each step
(`Vendedor.java:106-109`), not the day it lands on. So the start date counts
unless it is a Monday, and the day the loop stops on is not itself tested.
`FinConteo` and `CalcularFechaGarantia` test before they step.

## Model

| member | source | states |
|---|---|---|
| `Calendario.DayOfWeek` | src/main/java/dominio/Vendedor.java:106 | the weekday of a day number lies between SUNDAY (1) and SATURDAY (7), the day numbering of `Calendar.get(DAY_OF_WEEK)` |
| `Calendario.DayOfWeekNext` | src/main/java/dominio/Vendedor.java:106-109 | after a one-day step the weekday goes up by one, and Saturday is followed by Sunday |
| `Calendario.DayOfWeekPeriod` | src/main/java/dominio/Vendedor.java:106 | the weekday repeats every seven days |
| `Calendario.Calendar.constructor` | src/main/java/dominio/Vendedor.java:66-68 | `Calendar.getInstance()` followed by `setTime` gives a calendar holding the request day |
| `Calendario.Calendar.GetDayOfWeek` | src/main/java/dominio/Vendedor.java:106 | a calendar reports the weekday of the day it holds |
| `Calendario.Calendar.AddDays` | src/main/java/dominio/Vendedor.java:109 | `add(DAY_OF_YEAR, n)` moves the calendar it is called on by exactly n days |
| `Calendario.DaysFromCivil` | src/test/java/dominio/integracion/VendedorTest.java:34 | a dd/MM/yyyy date parses to a day number that lies inside its own year, from that year's 1 January on, 365 or 366 days long |
| `Calendario.NextDate` | src/test/java/dominio/integracion/VendedorTest.java:34 | the next date of a valid dd/MM/yyyy date is valid, and stays in the same year unless it is 1 January of the next one |
| `Calendario.DaysFromCivilNext` | src/test/java/dominio/integracion/VendedorTest.java:34 | the day number of the next calendar date is one more, across month ends, year ends and 29 February |
| `Calendario.MarchYearLength` | src/test/java/dominio/integracion/VendedorTest.java:34 | a year from one March to the next has 366 days exactly when the following calendar year is a leap year |
| `Calendario.Epoch` | src/test/java/dominio/integracion/VendedorTest.java:34 | day 0 is 01/01/1970, a Thursday |
| `Dominio.VocalesPatron` | src/main/java/dominio/Vendedor.java:15 | the vowels are exactly the characters that the alternatives of `VOCALES` match, upper and lower case |
| `Dominio.QuitarVocales` | src/main/java/dominio/Vendedor.java:142 | removing the vowels leaves no vowel and never lengthens the code |
| `Dominio.QuitarVocalesConserva` | src/main/java/dominio/Vendedor.java:142 | removing the vowels keeps every other character as many times as it occurs |
| `Dominio.QuitarVocalesLongitud` | src/main/java/dominio/Vendedor.java:141-145 | the length difference computed by `validarVocales` is exactly the number of vowels in the code |
| `Dominio.NumeroVocalesOcurrencias` | src/main/java/dominio/Vendedor.java:15 | the vowel count is the sum of the occurrences of a, A, e, E, i, I, o, O, u and U |
| `Dominio.ValidarVocales` | src/main/java/dominio/Vendedor.java:140-148 | true if and only if the code has exactly three vowels, not "at least three" |
| `Dominio.Rechazo` | src/main/java/dominio/Vendedor.java:40-50 | a request is accepted exactly when code and name are present and non-empty, the code has no warranty and its vowel count is not 3; otherwise the result is one of the three messages |
| `Dominio.CalcularPrecioGarantia` | src/main/java/dominio/Vendedor.java:90-93 | a percentage between 0 and 1 of a non-negative price is between 0 and that price |
| `Dominio.EsNuloOVacio` | src/main/java/dominio/Vendedor.java:156-158 | a string is null or empty exactly when it is absent or equal to "" |
| `Dominio.PrecioGarantia` | src/main/java/dominio/Vendedor.java:69-73 | a non-negative product price gives a warranty price between a tenth and a fifth of it; for a positive price it is the fifth exactly in the tier above 500000 |
| `Dominio.FinConteo` | src/main/java/dominio/Vendedor.java:104-110 | the loop, entered with contador days counted, moves the calendar at least the 200 - contador days still to count |
| `Dominio.FechaFinGarantia` | src/main/java/dominio/Vendedor.java:102-120 | above 500000 the end date is at least 200 days after the start and never a Sunday; otherwise it is exactly 100 days after the start |
| `Dominio.NuevaGarantia` | src/main/java/dominio/Vendedor.java:76-77 | the new record belongs to the product's code, is requested "now" and ends at least 100 days later |
| `Dominio.RepositorioProducto.Agregar` | src/test/java/dominio/integracion/VendedorTest.java:64 | adding a product stores it under its code, keeps every other product and keeps the store well formed |
| `Dominio.RepositorioProducto.ObtenerPorCodigo` | src/main/java/dominio/Vendedor.java:62 | the lookup finds the product stored under the code, if any, and in a well-formed store that product carries the code asked for |
| `Dominio.RepositorioGarantiaExtendida.Obtener` | src/test/java/dominio/integracion/VendedorTest.java:74 | the warranty lookup finds a record exactly when one is stored under the code, returns that record, and in a well-formed store that record's product carries the code asked for, as the tests assert after `obtener` |
| `Dominio.RepositorioGarantiaExtendida.ObtenerProductoConGarantiaPorCodigo` | src/main/java/dominio/Vendedor.java:130 | the insured-product lookup finds a product exactly when the warranty lookup finds a record, and in a well-formed store the product found carries the code asked for |
| `Dominio.RepositorioGarantiaExtendida.Agregar` | src/main/java/dominio/Vendedor.java:78 | adding a record stores it under its product's code, keeps every other record and keeps the store well formed |
| `Dominio.Vendedor.constructor` | src/main/java/dominio/Vendedor.java:25-29 | the seller keeps the two repositories it is given, and is well formed when they are |
| `Dominio.Vendedor.TieneGarantia` | src/main/java/dominio/Vendedor.java:129-131 | a product has a warranty exactly when one is stored under its code, so both lookups of the warranty repository agree |
| `Dominio.Vendedor.GenerarGarantia` | src/main/java/dominio/Vendedor.java:40-50 | the outcome is the first failing check's exception, or success; a rejection stores nothing; a success stores exactly the new record under the code, after which the product has a warranty |
| `Dominio.Vendedor.RegistrarGarantiaExtendida` | src/main/java/dominio/Vendedor.java:61-79 | the record under the code becomes the new record (the looked-up product, its price, its end date, request date "now" and the given customer name); every other record stays |
| `Dominio.Vendedor.CalcularFechaGarantia` | src/main/java/dominio/Vendedor.java:102-120 | the do-while loop and the Sunday rule leave the calendar on the expiration date, and that date is returned |
| `Propiedades.LunesYNoLunes` | src/main/java/dominio/Vendedor.java:106-108 | each day of a range is either a Monday or a day that counts toward the 200 |
| `Propiedades.NoLunesSemana` | src/main/java/dominio/Vendedor.java:105-110 | any seven consecutive days hold exactly six counted days, so at most one in seven fails to count and the loop ends |
| `Propiedades.FinConteoCaracterizacion` | src/main/java/dominio/Vendedor.java:103-110 | the loop stops on the first day after the start such that the range it crossed holds the remaining counted days; the last day it stepped over is not a Monday |
| `Propiedades.DiasTranscurridosGamaAlta` | src/main/java/dominio/Vendedor.java:103-110 | the days elapsed in the loop are 200 plus the number of Mondays in [start, end) |
| `Propiedades.FinConteoFormaCerrada` | src/main/java/dominio/Vendedor.java:103-110 | the loop moves the calendar 234 days from a Monday or a Sunday, and 233 days from any other day |
| `Propiedades.FinConteoEnDomingo` | src/main/java/dominio/Vendedor.java:103-114 | the loop ends on a Sunday exactly when it starts on a Friday |
| `Propiedades.FechaFinGamaAlta` | src/main/java/dominio/Vendedor.java:103-114 | a high-tier warranty ends 233, 234 or 235 days after its start, never on a Sunday, and on a Tuesday when the loop landed on a Sunday |
| `Propiedades.PrecioPorTramo` | src/main/java/dominio/Vendedor.java:69-73 | the warranty costs a fifth of the price strictly above 500000 and a tenth at 500000 or less |
| `Propiedades.MismoTramo` | src/main/java/dominio/Vendedor.java:69-117 | the tier that sets the 20% price is exactly the one whose warranty lasts more than 100 days |
| `Propiedades.OrdenValidacion` | src/main/java/dominio/Vendedor.java:41-46 | missing data is reported whatever the warranties; then an existing warranty; then three vowels |
| `Propiedades.NuevaGarantiaCampos` | src/main/java/dominio/Vendedor.java:64-77 | a new record keeps the product, the customer name and the request instant unmoved; its end date is between 100 and 235 days later |
| `Ejemplos.CodigoNoTieneTresVocales` | src/test/java/dominio/unitaria/VendedorTest.java:154-163 | "A213398i" has two vowels and passes the vowel rule |
| `Ejemplos.CodigoSiTieneTresVocales` | src/test/java/dominio/unitaria/VendedorTest.java:170-179 | "A213e98i" has three vowels and fails the vowel rule |
| `Ejemplos.CodigoConMayusculasTieneTresVocales` | src/test/java/dominio/integracion/VendedorTest.java:134-145 | "a123ebI213" has three vowels in mixed case and fails the vowel rule |
| `Ejemplos.FechasDePrueba` | src/test/java/dominio/integracion/VendedorTest.java:165-271 | the day numbers and weekdays of the test dates |
| `Ejemplos.EjemplosPrecio` | src/test/java/dominio/unitaria/VendedorTest.java:72-97 | 650000 at 20% gives 130000 and 450000 at 10% gives 45000 |
| `Ejemplos.PrecioPorDefecto` | src/test/java/dominio/integracion/VendedorTest.java:182 | the default product price 780000 gives a warranty price of 156000 |
| `Ejemplos.PrecioEnElUmbral` | src/main/java/dominio/Vendedor.java:69 | the edge of the rule, not a test: a price of exactly 500000 is in the 10% tier and gives 50000 |
| `Ejemplos.FechaFinalizacionDoscientosDias` | src/test/java/dominio/unitaria/VendedorTest.java:106-122 | from 16/08/2018 the high tier ends on 06/04/2019 |
| `Ejemplos.FechaFinalizacionDoscientosDiasDomingo` | src/test/java/dominio/integracion/VendedorTest.java:202-230 | from 17/08/2018 the loop stops on Sunday 07/04/2019 and the warranty ends on 09/04/2019 |
| `Ejemplos.FechaFinalizacionCienDias` | src/test/java/dominio/unitaria/VendedorTest.java:131-147 | from 17/08/2018 at 450000 the warranty ends on 25/11/2018 |
| `Ejemplos.EscenarioGenerarDosVeces` | src/test/java/dominio/integracion/VendedorTest.java:60-107 | a first request succeeds and stores the customer's name; a second request for the same code fails with the "already insured" message |
| `Ejemplos.EscenarioFaltanDatos` | src/test/java/dominio/integracion/VendedorTest.java:116-125 | a null code with an empty name fails with the "required data" message and stores nothing |
| `Ejemplos.EscenarioTresVocales` | src/test/java/dominio/integracion/VendedorTest.java:134-145 | the code "a123ebI213" fails with the "no extended warranty" message and stays uninsured |

## Left out

- Persistence: the JPA entity, the repository implementations and the
  persistence system are not part of this model. The repositories are maps.
  A failure of the store is not modelled.
- The product lookup: the source dereferences the lookup's result without a
  null check (`Vendedor.java:64`). The model requires the product to exist
  whenever the checks pass, instead of modelling the crash.
- RegistrarGarantiaExtendida: it does not check for an existing warranty, as
  the source does not. Called directly for a code that is already insured,
  the new record replaces the old one in the map, so the store does not grow.
  Only calls through `GenerarGarantia` are guarded by the "already insured"
  check.
- RegistrarGarantiaExtendida: the customer name is a non-null string. The
  source's public `registrarGarantiaExtendida(codigo, null)` would store a
  record with a null name (`Vendedor.java:76-77`). `generarGarantia` never
  passes null there, because its first check rejects a null name.
- ValidarVocales: its parameter is a non-null string. The source's
  `validarVocales(null)` throws a `NullPointerException` at
  `codigo.length()` (`Vendedor.java:141`). `generarGarantia` never passes null
  there, because its first check rejects a null code.
- The clock: "now" is a parameter of `GenerarGarantia` and
  `RegistrarGarantiaExtendida`.
- DaysFromCivil: it numbers dates in the proleptic Gregorian calendar. The
  default calendar of `SimpleDateFormat` is Julian before 15/10/1582. Only
  the test dates, all in 2018 and 2019, are converted, so nothing in the
  rules depends on it.
- Time of day, time zones and daylight saving time of `java.util.Calendar`:
  dates are whole day numbers, and the request instant is a day number too.
- IEEE-754 arithmetic: prices are exact `real` numbers, so the rounding of
  `precioProducto * porcentaje` in `double` is not modelled. The threshold
  is the strict comparison with 500000.
- The regular-expression engine: `replaceAll(VOCALES, "")` with its fixed
  alternation of single characters is modelled as deleting vowel
  characters.
- Concurrency: the model is single-threaded, so the race between the
  warranty check and the insertion under concurrent requests is not
  modelled.
- CalcularPrecioGarantia: its own contract states only that the warranty
  price lies between 0 and the product price; the exact price of each tier is
  stated by `PrecioPorTramo` and the test prices by `EjemplosPrecio` and
  `PrecioPorDefecto`.
- The JUnit, Mockito and test-data-builder machinery of the tests: only their
  codes, names, prices and dates are used, in `Ejemplos`. The default
  product code of the builder is not in the source, so the scenarios use
  "C001".

/**
 * The record and enumeration types the inventory ledger works on (types.ts).
 */
module Types {
  import opened Wrappers

  /**
   * A JavaScript `number`. The ledger does no arithmetic on these values, so an
   * exact real stands for every one of them; floating point is not modelled.
   */
  type Number = real

  /** A catalogue product, identified by its code (types.ts:2-5). */
  datatype Product = Product(code: string, name: string)

  /** The closed enumeration of movement kinds (types.ts:7-11). */
  datatype MovementType = ENTRADA | SALIDA | TRASLADO

  /** The three members of MovementType, in declaration order. */
  const MovementTypes: seq<MovementType> := [ENTRADA, SALIDA, TRASLADO]

  /** The string each member of the string enum carries (types.ts:8-10). */
  function MovementTypeValue(m: MovementType): (r: string)
    ensures ParseMovementType(r) == Some(m)
  {
    match m
    case ENTRADA => "ENTRADA"
    case SALIDA => "SALIDA"
    case TRASLADO => "TRASLADO"
  }

  /** Reads a stored string back as a movement type; no other string names one. */
  function ParseMovementType(s: string): (r: Option<MovementType>)
    ensures r.Some? <==> s == "ENTRADA" || s == "SALIDA" || s == "TRASLADO"
  {
    if s == "ENTRADA" then Some(ENTRADA)
    else if s == "SALIDA" then Some(SALIDA)
    else if s == "TRASLADO" then Some(TRASLADO)
    else None
  }

  /** MovementType has exactly three distinct members. */
  lemma MovementTypeIsClosed(m: MovementType)
    ensures m in MovementTypes
    ensures |MovementTypes| == 3
    ensures forall i, j :: 0 <= i < j < |MovementTypes| ==> MovementTypes[i] != MovementTypes[j]
  {
  }

  /**
   * The string encoding is injective, every value parses back to its member,
   * and a string that parses is the value of the member it parses to.
   */
  lemma MovementTypeRoundTrip(m: MovementType, n: MovementType, s: string)
    ensures ParseMovementType(MovementTypeValue(m)) == Some(m)
    ensures ParseMovementType(s) == Some(m) ==> MovementTypeValue(m) == s
    ensures MovementTypeValue(m) == MovementTypeValue(n) ==> m == n
  {
  }

  /** Raw material (MP) or finished product (PT) (types.ts:13). */
  datatype Category = MP | PT

  /** The literal each category is written as (types.ts:13). */
  function CategoryValue(c: Category): (r: string)
    ensures ParseCategory(r) == Some(c)
  {
    match c
    case MP => "MP"
    case PT => "PT"
  }

  /** The union type admits exactly the strings "MP" and "PT". */
  function ParseCategory(s: string): (r: Option<Category>)
    ensures r.Some? <==> s == "MP" || s == "PT"
  {
    if s == "MP" then Some(MP)
    else if s == "PT" then Some(PT)
    else None
  }

  lemma CategoryRoundTrip(c: Category, d: Category, s: string)
    ensures ParseCategory(CategoryValue(c)) == Some(c)
    ensures ParseCategory(s) == Some(c) ==> CategoryValue(c) == s
    ensures CategoryValue(c) == CategoryValue(d) ==> c == d
  {
  }

  /**
   * One ledger record (types.ts:15-42). Every member is required except
   * `merma`, the only optional one, which is an Option here.
   */
  datatype InventoryEntry = InventoryEntry(
    tag: string,
    fechaRegistro: string,
    turno: Number,
    operador: string,
    codigo: string,
    producto: string,
    lote: string,
    fechaFabricacion: string,
    origen: string,
    entrada: string,
    pesoBruto: Number,
    taraEstibas: Number,
    taraCestas: Number,
    neto: Number,
    destino: string,
    fechaVencimiento: string,
    pasillo: string,
    torre: string,
    piso: string,
    pagina: string,
    observaciones: string,
    cava: string,
    timestamp: Number,
    tipo: MovementType,
    categoria: Category,
    merma: Option<Number>)

  /** A disruption record kept beside the ledger (types.ts:44-50). */
  datatype OperationalIncident = OperationalIncident(
    id: string,
    kind: string,  // `type` in types.ts:46; `type` is a Dafny keyword
    description: string,
    duration: Number,
    timestamp: Number)

  /**
   * One constructor per member of InventoryEntry, named after it, used to talk
   * about its sheet columns.
   */
  datatype Field =
    | Tag | FechaRegistro | Turno | Operador | Codigo | Producto | Lote
    | FechaFabricacion | Origen | Entrada | PesoBruto | TaraEstibas | TaraCestas
    | Neto | Destino | FechaVencimiento | Pasillo | Torre | Piso | Pagina
    | Observaciones | Cava | Timestamp | Tipo | Categoria | Merma

  /** Every member of InventoryEntry, in the order types.ts declares them. */
  const Fields: seq<Field> := [
    Tag, FechaRegistro, Turno, Operador, Codigo, Producto, Lote,
    FechaFabricacion, Origen, Entrada, PesoBruto, TaraEstibas, TaraCestas,
    Neto, Destino, FechaVencimiento, Pasillo, Torre, Piso, Pagina,
    Observaciones, Cava, Timestamp, Tipo, Categoria, Merma]

  /**
   * The sheet column a member's comment gives it (types.ts:16-37), or None.
   * `cava` is marked as derived; the alternative its comment names, column 16,
   * is the one `pasillo` already holds, so it gets no column of its own.
   */
  function Column(f: Field): (r: Option<nat>)
    ensures r.Some? ==> r.value <= 20 && Fields[r.value] == f
    ensures r.None? <==> f in {Cava, Timestamp, Tipo, Categoria, Merma}
  {
    match f
    case Tag => Some(0)
    case FechaRegistro => Some(1)
    case Turno => Some(2)
    case Operador => Some(3)
    case Codigo => Some(4)
    case Producto => Some(5)
    case Lote => Some(6)
    case FechaFabricacion => Some(7)
    case Origen => Some(8)
    case Entrada => Some(9)
    case PesoBruto => Some(10)
    case TaraEstibas => Some(11)
    case TaraCestas => Some(12)
    case Neto => Some(13)
    case Destino => Some(14)
    case FechaVencimiento => Some(15)
    case Pasillo => Some(16)
    case Torre => Some(17)
    case Piso => Some(18)
    case Pagina => Some(19)
    case Observaciones => Some(20)
    case Cava => None
    case Timestamp => None
    case Tipo => None
    case Categoria => None
    case Merma => None
  }

  /** The member stored in sheet column `c`, if any column `c` exists. */
  function FieldAtColumn(c: nat): (r: Option<Field>)
    ensures r.Some? <==> c <= 20
    ensures r.Some? ==> Column(r.value) == Some(c)
  {
    if c <= 20 then Some(Fields[c]) else None
  }

  /**
   * The first 21 members, `tag` through `observaciones`, hold columns 0-20 in
   * declaration order; the remaining five, `cava` among them, hold none.
   */
  lemma ColumnsFollowDeclarationOrder(i: nat)
    requires i < |Fields|
    ensures Column(Fields[i]) == if i <= 20 then Some(i) else None
  {
  }

  /** Fields lists every member exactly once. */
  lemma FieldsAreComplete(f: Field)
    ensures f in Fields
    ensures forall i, j :: 0 <= i < j < |Fields| ==> Fields[i] != Fields[j]
  {
  }

  /** No two members share a column, and FieldAtColumn inverts Column. */
  lemma ColumnsAreDistinct(f: Field, g: Field)
    ensures Column(f).Some? ==> FieldAtColumn(Column(f).value) == Some(f)
    ensures Column(f).Some? && Column(f) == Column(g) ==> f == g
  {
  }
}

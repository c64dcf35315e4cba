/** The storage layer's error enum (`GDBError`) and the automatic
    conversions from the failures of the libraries it uses. */
module GraphStoreError {
  import opened Outcomes

  // Diagnostic payloads of the underlying libraries, kept opaque.
  datatype StdIoError = StdIoError(message: string)
  datatype ParseIntError = ParseIntError(message: string)
  datatype ParseFloatError = ParseFloatError(message: string)
  datatype SerdeJsonError = SerdeJsonError(message: string)
  datatype SerdeCborError = SerdeCborError(message: string)
  datatype RocksDbError = RocksDbError(message: string)
  datatype BincodeErrorKind = BincodeErrorKind(message: string)

  datatype GDBError =
    | ModifyReadOnlyError
    | RocksError(rocks: RocksDbError)
    | BincodeError(bincode: BincodeErrorKind)
    | JsonError(json: SerdeJsonError)
    | CborError(cbor: SerdeCborError)
    | IOError(io: StdIoError)
    | DBNotFoundError
    | LruZeroCapacity
    | JsonObjectFieldError
    | BooleanExpressionError
    | StringExpressionError
    | NumberExpressionError
    | EdgeNotFoundError
    | VertexNotFoundError
    | UnknownError
    | CrossComparisonError
    | OutOfBoundError
    | ParseError
    | InvalidFunctionCallError
    | InvalidTypeError
    | FieldNotExistError

  /** Every failure that has a `From` conversion into `GDBError`; `Unit`
      stands for `()`. */
  datatype LibraryError =
    | Io(io: StdIoError)
    | ParseInt(parseInt: ParseIntError)
    | ParseFloat(parseFloat: ParseFloatError)
    | Json(json: SerdeJsonError)
    | Cbor(cbor: SerdeCborError)
    | Rocks(rocks: RocksDbError)
    | Bincode(bincode: BincodeErrorKind)
    | Unit

  /** The members a conversion can produce. */
  predicate IsConversionTarget(g: GDBError) {
    g.IOError? || g.ParseError? || g.JsonError? || g.CborError? || g.RocksError? || g.BincodeError? || g.UnknownError?
  }

  /** Library failures whose diagnostic payload survives the conversion. */
  predicate CarriesPayload(e: LibraryError) {
    !e.ParseInt? && !e.ParseFloat? && !e.Unit?
  }

  /** Reads back the library failure a payload-carrying member wraps. */
  function Recover(g: GDBError): Option<LibraryError> {
    match g
    case IOError(x) => Some(Io(x))
    case JsonError(x) => Some(Json(x))
    case CborError(x) => Some(Cbor(x))
    case RocksError(x) => Some(Rocks(x))
    case BincodeError(x) => Some(Bincode(x))
    case _ => None
  }

  /** The eight `From` conversions. */
  function FromLibrary(e: LibraryError): (g: GDBError)
    ensures IsConversionTarget(g)
    ensures CarriesPayload(e) ==> Recover(g) == Some(e)
    ensures g == ParseError <==> e.ParseInt? || e.ParseFloat?
    ensures g == UnknownError <==> e.Unit?
  {
    match e
    case Io(x) => IOError(x)
    case ParseInt(_) => ParseError
    case ParseFloat(_) => ParseError
    case Json(x) => JsonError(x)
    case Cbor(x) => CborError(x)
    case Rocks(x) => RocksError(x)
    case Bincode(x) => BincodeError(x)
    case Unit => UnknownError
  }

  /** Each library maps to its own member, carrying the payload as is. */
  lemma ConversionTargets(io: StdIoError, json: SerdeJsonError, cbor: SerdeCborError, rocks: RocksDbError, bincode: BincodeErrorKind)
    ensures FromLibrary(Io(io)) == IOError(io)
    ensures FromLibrary(Json(json)) == JsonError(json)
    ensures FromLibrary(Cbor(cbor)) == CborError(cbor)
    ensures FromLibrary(Rocks(rocks)) == RocksError(rocks)
    ensures FromLibrary(Bincode(bincode)) == BincodeError(bincode)
    ensures FromLibrary(Unit) == UnknownError
  {
  }

  /** Integer and float parse failures collapse into the same member, and
      their messages are dropped. */
  lemma ParseErrorsCollapse(a: ParseIntError, b: ParseFloatError)
    ensures FromLibrary(ParseInt(a)) == FromLibrary(ParseFloat(b)) == ParseError
  {
  }

  /** The conversions are injective on payload-carrying failures: two
      different such failures never become the same error. */
  lemma PayloadConversionInjective(e1: LibraryError, e2: LibraryError)
    requires CarriesPayload(e1) && CarriesPayload(e2)
    requires FromLibrary(e1) == FromLibrary(e2)
    ensures e1 == e2
  {
  }

  /** No conversion yields one of the evaluation-layer members. */
  lemma NoEvaluationMembers(e: LibraryError)
    ensures !FromLibrary(e).VertexNotFoundError? && !FromLibrary(e).EdgeNotFoundError?
    ensures !FromLibrary(e).CrossComparisonError? && !FromLibrary(e).ModifyReadOnlyError?
    ensures !FromLibrary(e).FieldNotExistError? && !FromLibrary(e).InvalidTypeError?
  {
  }
}

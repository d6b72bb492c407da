/** The PostgreSQL frontend/backend protocol messages the script engine handles.
    The message family belongs to the protocol codec; the engine only needs
    structural equality (Go's reflect.DeepEqual on the pointed-to structs, here
    datatype equality) and the concrete type of a message (Go's reflect.TypeOf,
    here TypeOf). The constructors below are part of the family; each carries
    every field of the codec's struct for that message. */
module Messages {

  newtype byte = x: int | 0 <= x < 0x100
  newtype uint32 = x: int | 0 <= x < 0x1_0000_0000
  newtype int32 = x: int | -0x8000_0000 <= x < 0x8000_0000

  /** The salt of an MD5 password request: a fixed array of four bytes. */
  type Salt = s: seq<byte> | |s| == 4 witness [0, 0, 0, 0]

  /** The fields an ErrorResponse or a NoticeResponse carries (the codec
      declares NoticeResponse as the same struct). */
  datatype ErrorFields = ErrorFields(
    severity: string, severityUnlocalized: string, code: string, message: string,
    detail: string, hint: string, position: int32, internalPosition: int32,
    internalQuery: string, where: string, schemaName: string, tableName: string,
    columnName: string, dataTypeName: string, constraintName: string,
    file: string, line: int32, routine: string,
    unknownFields: map<byte, string>)

  /** Every field empty or zero. */
  const NoErrorFields: ErrorFields :=
    ErrorFields("", "", "", "", "", "", 0, 0, "", "", "", "", "", "", "", "", 0, "", map[])

  /** Protocol version 3.0 as a startup message carries it (3 << 16). */
  const ProtocolVersionNumber: uint32 := 196608

  /** Transaction status bytes of ReadyForQuery. */
  const TxIdle: byte := 73          // 'I'
  const TxInTransaction: byte := 84 // 'T'
  const TxFailed: byte := 69        // 'E'

  /** Messages a client receives from the server. */
  datatype BackendMessage =
    | AuthenticationOk
    | AuthenticationCleartextPassword
    | AuthenticationMD5Password(salt: Salt)
    | BackendKeyData(processID: uint32, secretKey: uint32)
    | BindComplete
    | CloseComplete
    | CommandComplete(commandTag: seq<byte>)
    | DataRow(values: seq<seq<byte>>)
    | EmptyQueryResponse
    | ErrorResponse(error: ErrorFields)
    | NoData
    | NoticeResponse(notice: ErrorFields)
    | ParameterStatus(name: string, value: string)
    | ParseComplete
    | ReadyForQuery(txStatus: byte)

  /** Messages a client sends to the server. */
  datatype FrontendMessage =
    | CancelRequest(processID: uint32, secretKey: uint32)
    | StartupMessage(protocolVersion: uint32, parameters: map<string, string>)
    | PasswordMessage(password: string)
    | Query(sql: string)
    | Parse(name: string, sql: string, parameterOIDs: seq<uint32>)
    | Close(objectType: byte, name: string)
    | Sync
    | Terminate

  /** The concrete (Go) type of a backend message, independent of its field values. */
  datatype BackendType =
    | AuthenticationOkType | AuthenticationCleartextPasswordType | AuthenticationMD5PasswordType
    | BackendKeyDataType | BindCompleteType | CloseCompleteType | CommandCompleteType
    | DataRowType | EmptyQueryResponseType | ErrorResponseType | NoDataType
    | NoticeResponseType | ParameterStatusType | ParseCompleteType | ReadyForQueryType

  function TypeOf(m: BackendMessage): (t: BackendType)
    ensures t == CloseCompleteType <==> m.CloseComplete?
    ensures t == ReadyForQueryType <==> m.ReadyForQuery?
    ensures t == AuthenticationOkType <==> m.AuthenticationOk?
  {
    match m
    case AuthenticationOk => AuthenticationOkType
    case AuthenticationCleartextPassword => AuthenticationCleartextPasswordType
    case AuthenticationMD5Password(_) => AuthenticationMD5PasswordType
    case BackendKeyData(_, _) => BackendKeyDataType
    case BindComplete => BindCompleteType
    case CloseComplete => CloseCompleteType
    case CommandComplete(_) => CommandCompleteType
    case DataRow(_) => DataRowType
    case EmptyQueryResponse => EmptyQueryResponseType
    case ErrorResponse(_) => ErrorResponseType
    case NoData => NoDataType
    case NoticeResponse(_) => NoticeResponseType
    case ParameterStatus(_, _) => ParameterStatusType
    case ParseComplete => ParseCompleteType
    case ReadyForQuery(_) => ReadyForQueryType
  }
}

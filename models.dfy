/**
 * The persisted records and the errors the services report.
 *
 * Every record carries the three columns of the shared base model
 * (primary key and the two timestamps GORM maintains). Timestamps are
 * opaque instants (`int`); the clock is an input of each write.
 */
module Models {

  /** Go `int` on a 64-bit target. */
  const INT64_MIN: int := -0x8000_0000_0000_0000
  const INT64_MAX: int := 0x7fff_ffff_ffff_ffff
  type int64 = x: int | INT64_MIN <= x <= INT64_MAX

  /** Go `uint32`. */
  type uint32 = x: int | 0 <= x < 0x1_0000_0000

  /** Two's-complement wrap-around of a Go `int` computation on a 64-bit target. */
  function Wrap64(x: int): (r: int64)
    ensures INT64_MIN <= x <= INT64_MAX ==> r == x
    ensures (r - x) % 0x1_0000_0000_0000_0000 == 0
  {
    (x - INT64_MIN) % 0x1_0000_0000_0000_0000 + INT64_MIN
  }

  /** Instants written into CreatedAt / UpdatedAt. */
  type Time = int

  /** A configured remote model: provider credentials and an enabled flag. */
  datatype CloudLLMModel = CloudLLMModel(
    id: nat,
    createdAt: Time,
    updatedAt: Time,
    name: string,
    provider: string,
    endPoint: string,
    apiKey: string,
    enabled: bool)

  /** A conversation; only its title is queried. */
  datatype Conversation = Conversation(
    id: nat,
    createdAt: Time,
    updatedAt: Time,
    title: string)

  /** One stored chat message, owned by a conversation. */
  datatype Message = Message(
    id: nat,
    createdAt: Time,
    updatedAt: Time,
    conversationId: nat,
    role: string,
    content: string)

  /** One key/value setting; `key` carries a unique index. */
  datatype Setting = Setting(
    id: nat,
    createdAt: Time,
    updatedAt: Time,
    key: string,
    value: string)

  function ModelId(m: CloudLLMModel): int { m.id }
  function ConversationId(c: Conversation): int { c.id }
  function MessageId(m: Message): int { m.id }
  function SettingId(s: Setting): int { s.id }

  const ROLE_USER := "user"
  const ROLE_ASSISTANT := "assistant"

  /** The errors the services return, one constructor per distinct Go error. */
  datatype Error =
    | RecordNotFound                    // gorm.ErrRecordNotFound from First
    | WriteFailed                       // the storage engine rejected an INSERT, UPDATE or DELETE
    | NoSuchColumn(column: string)      // SQL error for a query naming a column the table lacks
    | MissingModelId                    // validation: the model id is missing
    | MissingQuestion                   // validation: the question is empty
    | MissingModelName                  // validation: the provider-side model name is empty
    | MissingTemperature                // validation: the temperature is not positive
    | ModelDoesNotExist(modelId: int)   // a model lookup produced a row whose id is zero
    | ConversationDoesNotExist(convId: int)  // a conversation lookup produced a row whose id is zero
    | MissingConversationId             // message paging: negative conversation id
    | StreamFailed                      // stream.Err() != nil after the chunk loop
    | NoChoices                         // the first choice of an accumulator that has none (a Go panic)
    | MissingModelFields                // cloud model create: name, provider or api key is empty
    | ModelAbsent                       // cloud model update: no row has that id
}

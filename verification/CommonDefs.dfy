/** Sizes and codes that the processes share, and the result of a look-up. */
module CommonDefs {

  datatype Option<T> = None | Some(value: T)

  const MAX_CLINT_PACKAGE_LENGTH := 11264
  const MAX_SERVER_PACKAGE_LENGTH := 11264
  const SERVER_BUFFER_SIZE := 102400
  const MAX_NAME_LENGTH := 32
  const DURABLE_MESSAGE_FILE_SIZE := 10485760
  /** The head of a network pack: length, client index, command. */
  const HEADER_SIZE := 8
  /** The head of a publication: pack head, two names, priority, durable flag,
      number, ack level. */
  const PUBLISH_HEADER := 80
  /** One more than the largest pack length. */
  const SHORT_LIMIT := 65536

  const CMD_CREATE_PUBLISH := 4
  const CMD_CLIENT_PULL_MESSAGE := 10
  const CMD_SERVER_PUSH_MESSAGE := 11
  const CMD_SERVER_REPLY_MESSAGE := 12
  const CMD_SERVER_ACK_MESSAGE := 14

  const EXCHANGE_TYPE_FANOUT := 1
  const EXCHANGE_TYPE_DIRECT := 2
  const EXCHANGE_TYPE_TOPIC := 3

  const PRODUCER_SINGLE_ACK := 1
  const PRODUCER_MUTIL_ACK := 2
}

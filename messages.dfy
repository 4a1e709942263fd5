/**
 * The parts of the module wire messages (fk_module_WireMessageQuery and
 * fk_module_WireMessageReply) that the core reads or writes. Encoding and
 * decoding are abstract: a reply is either a decoded message or nothing.
 */
module Messages {
  import opened Basics

  /** fk_module_QueryType, for the queries the core builds. */
  datatype QueryType =
    | NoQuery
    | CapabilitiesQuery
    | SensorCapabilitiesQuery
    | FirmwareQuery

  /** The query fields the core sets. */
  datatype QueryMessage = QueryMessage(
    queryType: QueryType,
    callerTime: uint32,   // queryCapabilities.callerTime
    sensor: uint32)       // querySensorCapabilities.sensor

  /** fk_module_WireMessageQuery_init_default, as far as the fields above go. */
  const DefaultQuery := QueryMessage(NoQuery, 0, 0)

  /** fk_module_ReplyType: the transport only tells the retry tag apart. */
  datatype ReplyType = RetryReply | OtherReply(code: nat)

  /** The capabilities part of a reply. */
  datatype CapabilitiesReply = CapabilitiesReply(
    moduleType: uint32,
    numberOfSensors: uint32,
    minimumNumberOfReadings: uint32,
    git: seq<char>,
    build: seq<char>)

  datatype ReplyMessage = ReplyMessage(replyType: ReplyType, capabilities: CapabilitiesReply)

  const DefaultReply := ReplyMessage(OtherReply(0), CapabilitiesReply(0, 0, 0, [], []))
}

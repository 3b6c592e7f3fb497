/** The names client and chaincode agree on. Their spelled-out values live in
    the repository's constants file, which is not part of this model: the
    strings below stand in for them, and no proof depends on their spelling
    beyond the batch name being different from the event name. */
module Constants {
  import opened Common

  /** The chaincode function every transport request invokes. */
  const TRANSPORT_FABRIC_METHOD: string := "transportFabricMethod"
  /** The name of the one Fabric event a transaction's transport events travel in. */
  const TRANSPORT_CHAINCODE_EVENT: string := "TRANSPORT_CHAINCODE_EVENT"
  /** The command name that makes the chaincode run the queued batch. */
  const TRANSPORT_FABRIC_COMMAND_BATCH_NAME: string := "TRANSPORT_FABRIC_COMMAND_BATCH_NAME"
  /** The code of a `TransportInvalidDataError`. */
  const INVALID_DATA_CODE: Json := JStr("TRANSPORT_INVALID_DATA")
  /** The code of a `TransportWaitExceedError`. */
  const WAIT_EXCEED_CODE: Json := JStr("TRANSPORT_WAIT_EXCEED")
}

/** Blocks as the feeder gateway returns them (internal/starknet/get_block_response.go). */
module Chain {
  import opened Events

  /** An event as found in a receipt; `recordedAt` and `eventId` are stamped by the indexer. */
  datatype StarknetEvent = StarknetEvent(
    recordedAt: Time, eventId: EventId, fromAddress: string, keys: seq<string>, data: seq<string>)

  datatype Transaction = Transaction(hash: string, senderAddress: string, calldata: seq<string>)

  datatype Receipt = Receipt(transactionHash: string, events: seq<StarknetEvent>)

  datatype Block = Block(number: nat, timestamp: nat, transactions: seq<Transaction>, receipts: seq<Receipt>)
}

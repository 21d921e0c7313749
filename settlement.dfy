/** The synthetic smart-contract records both engines emit when a session
    closes. Record ids, transaction hashes, timestamps and gas figures are
    cosmetic and not modelled; the block number is kept because its order
    is the only meaning the records carry. */
module Settlement {

  datatype RecordKind = EscrowCreated | PaymentSent | ItemTransferred | DealCompleted | DealCancelled

  datatype TxStatus = Pending | Confirmed | Failed

  datatype Record = Record(
    sessionId: string,
    kind: RecordKind,
    fromAgent: string,
    toAgent: string,
    amount: real,
    itemId: string,
    status: TxStatus,
    blockNumber: int)

  const Marketplace: string := "Marketplace"

  /** The four records of a successful sale, in emission order: the buyer
      funds the escrow, the escrow pays the seller, the seller hands over
      the item, and the protocol reports the completed deal. The block
      numbers follow on from a randomly drawn base block. */
  function SuccessChain(
    sessionId: string, itemId: string,
    buyerName: string, escrowName: string, sellerName: string, protocolName: string,
    price: real, block: int): (rs: seq<Record>)
    ensures IsSuccessChain(rs, sessionId, itemId, price) && rs[0].blockNumber == block
    ensures rs[0].fromAgent == buyerName && rs[0].toAgent == escrowName
    ensures rs[1].fromAgent == escrowName && rs[1].toAgent == sellerName
    ensures rs[2].fromAgent == sellerName && rs[2].toAgent == buyerName
    ensures rs[3].fromAgent == protocolName && rs[3].toAgent == Marketplace
  {
    [ Record(sessionId, EscrowCreated, buyerName, escrowName, price, itemId, Confirmed, block),
      Record(sessionId, PaymentSent, escrowName, sellerName, price, itemId, Confirmed, block + 1),
      Record(sessionId, ItemTransferred, sellerName, buyerName, 0.0, itemId, Confirmed, block + 2),
      Record(sessionId, DealCompleted, protocolName, Marketplace, price, itemId, Confirmed, block + 3) ]
  }

  /** The single record of a negotiation that ended without a deal. */
  function CancelRecord(sessionId: string, itemId: string, protocolName: string, block: int): (r: Record)
    ensures r.kind == DealCancelled && r.amount == 0.0 && r.status == Confirmed
    ensures r.sessionId == sessionId && r.itemId == itemId && r.blockNumber == block
    ensures r.fromAgent == protocolName && r.toAgent == Marketplace
  {
    Record(sessionId, DealCancelled, protocolName, Marketplace, 0.0, itemId, Confirmed, block)
  }

  /** What a successful closing promises about its records: exactly four,
      in the order escrow, payment, transfer, completion; consecutive block
      numbers; the sale price on every money-moving record and zero on the
      item transfer; all tagged with the session and item and confirmed. */
  predicate IsSuccessChain(rs: seq<Record>, sessionId: string, itemId: string, price: real)
  {
    && |rs| == 4
    && rs[0].kind == EscrowCreated && rs[1].kind == PaymentSent
    && rs[2].kind == ItemTransferred && rs[3].kind == DealCompleted
    && rs[1].blockNumber == rs[0].blockNumber + 1
    && rs[2].blockNumber == rs[0].blockNumber + 2
    && rs[3].blockNumber == rs[0].blockNumber + 3
    && rs[0].amount == price && rs[1].amount == price && rs[2].amount == 0.0 && rs[3].amount == price
    && (forall i | 0 <= i < 4 :: rs[i].sessionId == sessionId && rs[i].itemId == itemId && rs[i].status == Confirmed)
  }

  /** Every success chain has the promised shape, and the block numbers
      strictly increase along it. */
  lemma SuccessChainShape(
    sessionId: string, itemId: string,
    buyerName: string, escrowName: string, sellerName: string, protocolName: string,
    price: real, block: int)
    ensures IsSuccessChain(SuccessChain(sessionId, itemId, buyerName, escrowName, sellerName, protocolName, price, block),
                           sessionId, itemId, price)
    ensures var rs := SuccessChain(sessionId, itemId, buyerName, escrowName, sellerName, protocolName, price, block);
            forall i, j | 0 <= i < j < 4 :: rs[i].blockNumber < rs[j].blockNumber
  {
  }
}

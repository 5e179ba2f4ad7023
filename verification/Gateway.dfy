/** How the payment gateway's replies about refunds are read: the outcome of an initiation
    and of a status inquiry. */
module Gateway {
  import opened Basics

  /** What the refund desk does with an initiation: failed, or left open with the reference the
      gateway gave. */
  datatype GatewayAnswer = GatewayFailed | GatewayOpen(reference: Option<nat>)

  datatype Inquiry = InquiryRefunded | InquiryCancelled | InquiryUnsettled

  datatype Word = Done | Other

  datatype StatusWord = WordSuccess | WordProcessing | WordRefunded | WordCancelled | WordOther

  /** No usable answer (timeout, network, HTTP error), or the parsed body.  An absent field is
      None. */
  datatype Reply = Unusable | Body(apiConnect: Word, status: StatusWord, refundRef: Option<nat>,
                                   bankTran: Option<nat>, tran: Option<nat>)

  predicate Mismatch(returned: Option<nat>, expected: Option<nat>) {
    returned.Some? && expected.Some? && returned != expected
  }

  function InitiationOutcome(reply: Reply, bankTran: nat): GatewayAnswer {
    match reply
    case Unusable => GatewayOpen(None)
    case Body(connect, status, refundRef, bank, _) =>
      if connect != Done || Mismatch(bank, Some(bankTran)) then GatewayFailed
      else match status
      case WordSuccess => if refundRef.None? then GatewayFailed else GatewayOpen(refundRef)
      case WordProcessing => GatewayOpen(refundRef)
      case _ => GatewayFailed
  }

  function InquiryOutcome(reply: Reply, refundRef: nat, bankTran: Option<nat>, tran: Option<nat>): Inquiry {
    match reply
    case Unusable => InquiryUnsettled
    case Body(connect, status, ref, bank, t) =>
      if connect != Done then InquiryUnsettled
      else if Mismatch(ref, Some(refundRef)) || Mismatch(bank, bankTran) || Mismatch(t, tran) then
        InquiryUnsettled
      else match status
      case WordRefunded => InquiryRefunded
      case WordCancelled => InquiryCancelled
      case _ => InquiryUnsettled
  }

  /** An inquiry settles a refund exactly when it is authenticated, every identity it returns
      is the expected one, and its status is "refunded" -- never on "success" alone. */
  lemma SettledOnlyWhenRefunded(reply: Reply, refundRef: nat, bankTran: Option<nat>, tran: Option<nat>)
    ensures InquiryOutcome(reply, refundRef, bankTran, tran).InquiryRefunded? <==>
      && reply.Body? && reply.apiConnect == Done && reply.status == WordRefunded
      && (reply.refundRef.None? || reply.refundRef == Some(refundRef))
      && (reply.bankTran.None? || bankTran.None? || reply.bankTran == bankTran)
      && (reply.tran.None? || tran.None? || reply.tran == tran)
  {
  }

  /** An authenticated reply with this status word whose every identity is the expected one. */
  predicate Says(reply: Reply, word: StatusWord, refundRef: nat, bankTran: Option<nat>, tran: Option<nat>) {
    && reply.Body? && reply.apiConnect == Done && reply.status == word
    && (reply.refundRef.None? || reply.refundRef == Some(refundRef))
    && (reply.bankTran.None? || bankTran.None? || reply.bankTran == bankTran)
    && (reply.tran.None? || tran.None? || reply.tran == tran)
  }

  /** An inquiry cancels exactly when such a reply says "cancelled"; on everything else but
      "refunded" -- silence, an unauthenticated or mismatching reply, "processing", "success", an
      unknown word -- the refund stays open. */
  lemma CancelledOnlyWhenCancelled(reply: Reply, refundRef: nat, bankTran: Option<nat>, tran: Option<nat>)
    ensures InquiryOutcome(reply, refundRef, bankTran, tran).InquiryCancelled? <==>
      Says(reply, WordCancelled, refundRef, bankTran, tran)
    ensures InquiryOutcome(reply, refundRef, bankTran, tran).InquiryUnsettled? <==>
      && !Says(reply, WordRefunded, refundRef, bankTran, tran)
      && !Says(reply, WordCancelled, refundRef, bankTran, tran)
  {
  }

  /** An initiation fails exactly when it was answered, and the answer is unauthenticated, names
      another bank transaction, says "success" without a reference, or says neither "success" nor
      "processing"; otherwise it stays open with the reference the answer gave. */
  lemma InitiationFailsIff(reply: Reply, bankTran: nat)
    ensures InitiationOutcome(reply, bankTran).GatewayFailed? <==>
      && reply.Body?
      && (|| reply.apiConnect != Done
          || (reply.bankTran.Some? && reply.bankTran != Some(bankTran))
          || (reply.status == WordSuccess && reply.refundRef.None?)
          || (reply.status != WordSuccess && reply.status != WordProcessing))
    ensures InitiationOutcome(reply, bankTran).GatewayOpen? ==>
      InitiationOutcome(reply, bankTran).reference == if reply.Body? then reply.refundRef else None
  {
  }

  /** Losing the answer never fails an initiation, so it cannot lead to a second one. */
  lemma LostAnswersStayOpen(reply: Reply, bankTran: nat)
    ensures InitiationOutcome(reply, bankTran).GatewayFailed? ==> reply.Body?
    ensures InitiationOutcome(reply, bankTran) == GatewayOpen(None) ==>
      reply.Unusable? || (reply.status == WordProcessing && reply.refundRef.None?)
  {
  }
}

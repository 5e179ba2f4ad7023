/** How the courier client classifies the provider's HTTP replies.  Only the outcome
    classes matter to the dispatch protocol; the requests themselves are not modelled. */
module Courier {
  import opened Basics

  type Id = nat

  /** A field of the reply: missing or null, present but false to a test, an object with or
      without a tracking code, or another true value, such as a delivery status in words. */
  datatype Field = Absent | Blank | Object(tracking: Option<Id>) | Word

  /** A reply body: not JSON, JSON `null` -- reading a field of it throws -- or its `status` and
      the three fields that may carry the tracking code. */
  datatype Body =
    | Unparseable
    | Null
    | Json(status: int, consignment: Field, data: Field, delivery: Field)

  /** No answer at all (timeout, network failure), or an HTTP status with a body. */
  datatype Reply = NoReply | Http(status: int, body: Body)

  datatype CreateAnswer = Accepted(id: Id) | Rejected | CreateAmbiguous

  datatype InquiryAnswer = NotFound | Found(id: Id) | ExistsUnlinked | InquiryAmbiguous

  predicate Ok(httpStatus: int) {
    200 <= httpStatus <= 299
  }

  function Tracking(f: Field): Option<Id> {
    match f
    case Object(id) => id
    case _ => None
  }

  /** The create call reads the consignment, or else the older data field. */
  function CreatedId(body: Body): Option<Id>
    requires body.Json?
  {
    if body.consignment.Absent? then Tracking(body.data) else Tracking(body.consignment)
  }

  /** The inquiry reads the data field, or else the delivery status. */
  function InquiredId(body: Body): Option<Id>
    requires body.Json?
  {
    if Tracking(body.data).Some? then Tracking(body.data) else Tracking(body.delivery)
  }

  predicate IsTrue(f: Field) {
    f.Object? || f.Word?
  }

  /** What the inquiry takes as a sign that the provider knows the shipment. */
  predicate Known(body: Body)
    requires body.Json?
  {
    IsTrue(body.delivery) || IsTrue(body.data)
  }

  function CreateOutcome(reply: Reply): CreateAnswer {
    match reply
    case NoReply => CreateAmbiguous
    case Http(status, body) =>
      if status >= 500 || status == 408 then CreateAmbiguous
      else match body
      case Unparseable => CreateAmbiguous
      case Null => CreateAmbiguous
      case Json(code, _, _, _) =>
        if Ok(status) && code == 200 then
          match CreatedId(body)
          case Some(id) => Accepted(id)
          case None => CreateAmbiguous
        else Rejected
  }

  function InquiryOutcome(reply: Reply): InquiryAnswer {
    match reply
    case NoReply => InquiryAmbiguous
    case Http(status, body) =>
      if status == 404 then NotFound
      else if !Ok(status) then InquiryAmbiguous
      else match body
      case Unparseable => InquiryAmbiguous
      case Null => InquiryAmbiguous
      case Json(code, _, _, _) =>
        if code == 200 && Known(body) then
          match InquiredId(body)
          case Some(id) => Found(id)
          case None => ExistsUnlinked
        else NotFound
  }

  // ---- What a reply says, without reading it twice

  /** No word from the provider on the question asked: no answer, or an HTTP error. */
  predicate Unanswered(reply: Reply) {
    reply.NoReply? || (reply.status != 404 && !(200 <= reply.status <= 299))
  }

  /** A 2xx reply whose body is JSON and reports success. */
  predicate Succeeds(reply: Reply) {
    reply.Http? && 200 <= reply.status <= 299 && reply.body.Json? && reply.body.status == 200
  }

  /** The body names a delivery status or data, whatever it is. */
  predicate NamesShipment(body: Body) {
    body.Json? && (body.delivery.Word? || body.delivery.Object? || body.data.Word? || body.data.Object?)
  }

  /** The inquiry's four readings, each if and only if: an HTTP error is never an absence, a 404
      always is one, and an id is found where the source looks for it. */
  lemma InquiryDecides(reply: Reply, id: Id)
    ensures InquiryOutcome(reply).NotFound? <==>
      && reply.Http?
      && (|| reply.status == 404
          || (&& 200 <= reply.status <= 299 && reply.body.Json?
              && !(reply.body.status == 200 && NamesShipment(reply.body))))
    ensures InquiryOutcome(reply).InquiryAmbiguous? <==>
      || Unanswered(reply)
      || (200 <= reply.status <= 299 && (reply.body.Unparseable? || reply.body.Null?))
    ensures InquiryOutcome(reply) == Found(id) <==>
      && Succeeds(reply)
      && (|| reply.body.data == Object(Some(id))
          || (Tracking(reply.body.data).None? && reply.body.delivery == Object(Some(id))))
    ensures InquiryOutcome(reply).ExistsUnlinked? <==>
      Succeeds(reply) && NamesShipment(reply.body) && forall x: Id ::
        reply.body.data != Object(Some(x)) && reply.body.delivery != Object(Some(x))
  {
    if Succeeds(reply) {
      assert Tracking(reply.body.data).Some? ==> reply.body.data == Object(Some(Tracking(reply.body.data).value));
      assert Tracking(reply.body.delivery).Some? ==>
        reply.body.delivery == Object(Some(Tracking(reply.body.delivery).value));
    }
  }

  /** The create call's other two readings: accepted only with an id to link, and uncertain
      whenever the request may have reached the provider. */
  lemma CreationDecides(reply: Reply, id: Id)
    ensures CreateOutcome(reply) == Accepted(id) <==>
      && Succeeds(reply)
      && (|| reply.body.consignment == Object(Some(id))
          || (reply.body.consignment.Absent? && reply.body.data == Object(Some(id))))
    ensures CreateOutcome(reply).CreateAmbiguous? <==>
      || reply.NoReply? || reply.status >= 500 || reply.status == 408
      || reply.body.Unparseable? || reply.body.Null?
      || (Succeeds(reply) && forall x: Id ::
            && reply.body.consignment != Object(Some(x))
            && (reply.body.consignment.Absent? ==> reply.body.data != Object(Some(x))))
  {
    if Succeeds(reply) && CreatedId(reply.body).Some? {
      var x := CreatedId(reply.body).value;
      assert reply.body.consignment == Object(Some(x))
          || (reply.body.consignment.Absent? && reply.body.data == Object(Some(x)));
    }
  }

  /** The create call reports a rejection, which releases the dispatch claim, exactly for a
      parsed answer below 500 other than 408 that does not report success.  HTTP 429 is in
      this class, although the comment beside the code lists it as ambiguous. */
  lemma RejectionIsDefinitive(reply: Reply)
    ensures CreateOutcome(reply).Rejected? <==>
      && reply.Http? && reply.status < 500 && reply.status != 408
      && reply.body.Json? && !(Ok(reply.status) && reply.body.status == 200)
    ensures reply.Http? && reply.status == 429 && reply.body.Json? ==> CreateOutcome(reply).Rejected?
  {
  }

  /** A reply that says the provider accepted or knows the shipment is never read as its
      absence: neither as a rejection of a create call nor as not-found by an inquiry. */
  lemma ExistenceIsNeverAbsence(reply: Reply)
    requires reply.Http? && Ok(reply.status) && reply.body.Json? && reply.body.status == 200
    ensures !CreateOutcome(reply).Rejected?
    ensures Known(reply.body) <==> !InquiryOutcome(reply).NotFound?
  {
  }

  /** The two calls look for the tracking code in different fields, so a successful reply links
      the order to the same id in both exactly when the fields they come to agree; a reply of
      the documented create form, with its code in the consignment only, is accepted by one and
      unlinked for the other. */
  lemma IdsAgreeIff(reply: Reply, id: Id)
    requires reply.Http? && Ok(reply.status) && reply.body.Json? && reply.body.status == 200
    ensures var b := reply.body;
      CreateOutcome(reply) == Accepted(id) && InquiryOutcome(reply) == Found(id) <==>
        && (b.consignment == Object(Some(id)) || (b.consignment.Absent? && b.data == Object(Some(id))))
        && (b.data == Object(Some(id)) || (Tracking(b.data).None? && b.delivery == Object(Some(id))))
    ensures var documented := Http(200, Json(200, Object(Some(id)), Absent, Word));
      CreateOutcome(documented) == Accepted(id) && InquiryOutcome(documented) == ExistsUnlinked
  {
  }
}

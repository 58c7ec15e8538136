/** The two rules of the HTTP layer (app/main.py) that shape what the
    service's results become. */
module Endpoints {
  import opened Common
  import opened Auth
  import opened Listing

  /** The most messages the sender listing may ask for. */
  const MaxMessages := 500

  /** `limit = min(limit, 500)` in the sender-listing endpoint. */
  function ClampLimit(limit: int): (r: int)
    ensures r <= MaxMessages
    ensures r <= limit
    ensures r == limit || r == MaxMessages
  {
    Min(limit, MaxMessages)
  }

  /** Whatever limit is requested, the endpoint lists at most 500 senders,
      never more than the requested limit, and never more than there are
      messages. */
  lemma SenderListingBounded(limit: int, available: seq<Message>, failAt: Option<nat>)
    ensures var senders := UniqueSenders(Delivered(Window(available, ClampLimit(limit)), failAt));
            && |senders| <= MaxMessages
            && |senders| <= (if limit <= 0 then 0 else limit)
            && |senders| <= |available|
  {
  }

  /** What the verify endpoint answers. */
  datatype VerifyReply =
    | Returned(result: VerifyResult)     // the result is passed back as is
    | BadRequest(result: VerifyResult)   // HTTP 400 carrying the result's message

  /** The verify endpoint raises only when the result is a failure that does
      not ask for a second factor; a pending 2FA request passes through. */
  function VerifyReplyOf(r: VerifyResult): (reply: VerifyReply)
    ensures reply.result == r
    ensures reply.Returned? <==> r.LoginSucceeded? || r.PasswordRequired?
  {
    if !r.Success() && !r.Needs2fa() then BadRequest(r) else Returned(r)
  }
}

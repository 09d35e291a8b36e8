/** Classification of the upload endpoint's reply. A reply is a success only
    when its body is exactly the sentinel text; anything else, including a
    transport failure that leaves no body, is a failure. */
module Response {
  import opened Wrappers

  /** The only body the endpoint sends for a photo it accepted. */
  const SuccessBody: string := "OK, photo received."

  /** The comparison `response.body == 'OK, photo received.'`, with the body
      taken as a string, or as absent when the request failed in transport. */
  predicate IsSuccess(body: Option<string>) {
    body.Some? && body.value == SuccessBody
  }

  /** No body at all (the request failed in transport) is a failure. */
  lemma MissingBodyFails()
    ensures !IsSuccess(None)
  {
  }

  /** Near misses of the sentinel fail: a missing final period, lower case,
      a trailing space, the empty body. */
  lemma NearMissesFail()
    ensures !IsSuccess(Some("OK, photo received"))
    ensures !IsSuccess(Some("ok, photo received."))
    ensures !IsSuccess(Some("OK, photo received. "))
    ensures !IsSuccess(Some(""))
    ensures IsSuccess(Some("OK, photo received."))
  {
    assert "OK, photo received"[18..] == [];
    assert "ok, photo received."[0] != SuccessBody[0];
    assert |"OK, photo received. "| != |SuccessBody|;
  }
}

/**
 * The request envelope every remote call sends, and the response envelope
 * every remote call yields once the client has normalised the reply.
 */
module Envelope {
  import opened Js

  /**
   * `NovaPoshtaRequest`. `apiKey` is `None` when the object has no `apiKey`
   * key at all (not even one holding `undefined`).
   */
  datatype Request = Request(
    apiKey: Option<string>,
    modelName: string,
    calledMethod: string,
    methodProperties: Props)

  /** `NovaPoshtaResponse<T[]>`: a success flag, the items, and eight message arrays. */
  datatype Response = Response(
    success: bool,
    data: seq<Value>,
    errors: seq<string>,
    warnings: seq<string>,
    info: seq<string>,
    messageCodes: seq<string>,
    errorCodes: seq<string>,
    warningCodes: seq<string>,
    infoCodes: seq<string>)

  /** A credential counts only when it is truthy, i.e. present and not the empty string. */
  predicate HasKey(apiKey: Option<string>) {
    apiKey.Some? && apiKey.value != ""
  }

  /**
   * `{ ...(apiKey ? { apiKey } : {}), modelName, calledMethod, methodProperties }`:
   * the credential is copied only when truthy; everything else is carried over
   * untouched, so the remote sees exactly the caller's properties.
   */
  function Build(apiKey: Option<string>, modelName: string, calledMethod: string, props: Props): (r: Request)
    ensures r.apiKey.Some? <==> HasKey(apiKey)
    ensures r.apiKey.Some? ==> r.apiKey == apiKey
    ensures r.modelName == modelName && r.calledMethod == calledMethod
    ensures r.methodProperties == props
  {
    Request(if HasKey(apiKey) then apiKey else None, modelName, calledMethod, props)
  }

  /** A successful envelope holding `data` and no message of any kind. */
  function Succeeded(data: seq<Value>): (r: Response)
    ensures r.success && r.data == data
    ensures r.errors == r.warnings == r.info == r.messageCodes == []
    ensures r.errorCodes == r.warningCodes == r.infoCodes == []
  {
    Response(true, data, [], [], [], [], [], [], [])
  }

  /** Two envelopes built from the same call differ at most in the credential. */
  lemma SameCallSameEnvelope(k1: Option<string>, k2: Option<string>, m: string, c: string, p: Props)
    requires HasKey(k1) == HasKey(k2) && (HasKey(k1) ==> k1 == k2)
    ensures Build(k1, m, c, p) == Build(k2, m, c, p)
  {
  }

  /** An absent and an empty credential produce the same, key-less envelope. */
  lemma AbsentAndEmptyKeyAgree(m: string, c: string, p: Props)
    ensures Build(None, m, c, p) == Build(Some(""), m, c, p) == Request(None, m, c, p)
  {
  }
}

/**
 * The return-order service: four remote operations of the
 * `AdditionalServiceGeneral` model, the three specialised creates, the
 * pricing query, the single-order lookups and the legacy aliases.
 */
module Returns {
  import opened Js
  import opened Envelope
  import opened Transport
  import opened ReturnTypes

  const ModelName := "AdditionalServiceGeneral"
  const GetReturnOrdersListMethod := "getReturnOrdersList"
  const CheckPossibilityMethod := "CheckPossibilityCreateReturn"
  const SaveMethod := "save"
  const UpdateMethod := "update"

  /** `{ ...request, OrderType: 'orderCargoReturn' }`: the discriminator every specialised create fixes. */
  function WithCargoReturn(request: Props): (r: Props)
    ensures r.Keys == request.Keys + {"OrderType"}
    ensures r["OrderType"] == Str(CargoReturn.Wire())
    ensures forall k :: k in request && k != "OrderType" ==> r[k] == request[k]
  {
    request["OrderType" := Str(CargoReturn.Wire())]
  }

  /** `{ ...request, OnlyGetPricing: true }`: an update that only prices. */
  function PricingOnly(request: Props): (r: Props)
    ensures r.Keys == request.Keys + {"OnlyGetPricing"}
    ensures r["OnlyGetPricing"] == Bool(true)
    ensures forall k :: k in request && k != "OnlyGetPricing" ==> r[k] == request[k]
  {
    request["OnlyGetPricing" := Bool(true)]
  }

  /**
   * `{ BeginDate, EndDate, ...options }`: the dates first, then the caller's
   * options spread over them, keys as given.
   */
  function DateRangeProps(beginDate: string, endDate: string, options: Props): (r: Props)
    ensures r.Keys == {"BeginDate", "EndDate"} + options.Keys
    ensures forall k :: k in options ==> r[k] == options[k]
    ensures "BeginDate" !in options ==> r["BeginDate"] == Str(beginDate)
    ensures "EndDate" !in options ==> r["EndDate"] == Str(endDate)
  {
    map["BeginDate" := Str(beginDate), "EndDate" := Str(endDate)] + options
  }

  /**
   * The order a listing names, if any: `null` (here `None`) when the listing
   * failed or came back empty, its first item otherwise.
   */
  function FirstOrNull(response: Response): (r: Option<Value>)
    ensures r.None? <==> !response.success || |response.data| == 0
    ensures r.Some? ==> |response.data| > 0 && r.value == response.data[0]
  {
    if !response.success || |response.data| == 0 then None else Some(response.data[0])
  }

  /** The discriminator added by a specialised create never changes which kind of return is asked for. */
  lemma CargoReturnKeepsVariant(request: Props)
    ensures IsReturnToSenderAddress(WithCargoReturn(request)) == IsReturnToSenderAddress(request)
    ensures IsReturnToNewAddress(WithCargoReturn(request)) == IsReturnToNewAddress(request)
    ensures IsReturnToWarehouse(WithCargoReturn(request)) == IsReturnToWarehouse(request)
  {
    VariantsReadOnlyTheirKeys(WithCargoReturn(request), request);
  }

  /** Fixing the discriminator twice is fixing it once. */
  lemma CargoReturnIdempotent(request: Props)
    ensures WithCargoReturn(WithCargoReturn(request)) == WithCargoReturn(request)
  {
  }

  /** A request that already says `orderCargoReturn` goes out unchanged. */
  lemma CargoReturnKeepsWellFormed(request: Props)
    requires "OrderType" in request && request["OrderType"] == Str(CargoReturn.Wire())
    ensures WithCargoReturn(request) == request
  {
  }

  class ReturnService {
    const namespace: string
    var transport: MockTransport?
    var baseUrl: string
    var apiKey: Option<string>

    constructor ()
      ensures namespace == "return"
      ensures transport == null && apiKey == None
    {
      namespace := "return";
      transport := null;
      baseUrl := "";
      apiKey := None;
    }

    /** `attach(ctx)`: bind the client's transport and credential. */
    method Attach(ctx: ClientContext)
      modifies this
      ensures transport == ctx.transport && baseUrl == ctx.baseUrl && apiKey == ctx.apiKey
    {
      transport := ctx.transport;
      baseUrl := ctx.baseUrl;
      apiKey := ctx.apiKey;
    }

    /** The one transport call of `calledMethod` with `props`. */
    function CallFor(calledMethod: string, props: Props): Call
      reads this
    {
      Call(baseUrl, Build(apiKey, ModelName, calledMethod, props))
    }

    /** `this.transport.request(apiRequest)`: one invocation, its reply handed back. */
    method Send(calledMethod: string, props: Props) returns (r: Response)
      requires transport != null
      modifies transport
      ensures InvokedOnce(transport, CallFor(calledMethod, props), r)
    {
      var status;
      status, r := transport.Invoke(CallFor(calledMethod, props));
    }

    /** `getList(request = {})`. */
    method GetList(request: Props := map[]) returns (r: Response)
      requires transport != null
      modifies transport
      ensures InvokedOnce(transport, CallFor(GetReturnOrdersListMethod, request), r)
    {
      r := Send(GetReturnOrdersListMethod, request);
    }

    method CheckPossibility(request: Props) returns (r: Response)
      requires transport != null
      modifies transport
      ensures InvokedOnce(transport, CallFor(CheckPossibilityMethod, request), r)
    {
      r := Send(CheckPossibilityMethod, request);
    }

    method CreateToSenderAddress(request: Props) returns (r: Response)
      requires transport != null
      modifies transport
      ensures InvokedOnce(transport, CallFor(SaveMethod, WithCargoReturn(request)), r)
    {
      r := Create(WithCargoReturn(request));
    }

    method CreateToNewAddress(request: Props) returns (r: Response)
      requires transport != null
      modifies transport
      ensures InvokedOnce(transport, CallFor(SaveMethod, WithCargoReturn(request)), r)
    {
      r := Create(WithCargoReturn(request));
    }

    method CreateToWarehouse(request: Props) returns (r: Response)
      requires transport != null
      modifies transport
      ensures InvokedOnce(transport, CallFor(SaveMethod, WithCargoReturn(request)), r)
    {
      r := Create(WithCargoReturn(request));
    }

    method Create(request: Props) returns (r: Response)
      requires transport != null
      modifies transport
      ensures InvokedOnce(transport, CallFor(SaveMethod, request), r)
    {
      r := Send(SaveMethod, request);
    }

    method Update(request: Props) returns (r: Response)
      requires transport != null
      modifies transport
      ensures InvokedOnce(transport, CallFor(UpdateMethod, request), r)
    {
      r := Send(UpdateMethod, request);
    }

    method GetPricing(request: Props) returns (r: Response)
      requires transport != null
      modifies transport
      ensures InvokedOnce(transport, CallFor(UpdateMethod, PricingOnly(request)), r)
    {
      r := Update(PricingOnly(request));
    }

    /** `getByNumber(orderNumber)`: the order with that number, or `null`. */
    method GetByNumber(orderNumber: string) returns (order: Option<Value>)
      requires transport != null
      modifies transport
      ensures transport.calls == old(transport.calls) + [CallFor(GetReturnOrdersListMethod, map["Number" := Str(orderNumber)])]
      ensures order == FirstOrNull(old(transport.NextReply()))
      ensures transport.script == Rest(old(transport.script)) && transport.response == old(transport.response)
    {
      var response := GetList(map["Number" := Str(orderNumber)]);
      order := FirstOrNull(response);
    }

    /** `getByRef(ref)`: the order with that REF, or `null`. */
    method GetByRef(ref: string) returns (order: Option<Value>)
      requires transport != null
      modifies transport
      ensures transport.calls == old(transport.calls) + [CallFor(GetReturnOrdersListMethod, map["Ref" := Str(ref)])]
      ensures order == FirstOrNull(old(transport.NextReply()))
      ensures transport.script == Rest(old(transport.script)) && transport.response == old(transport.response)
    {
      var response := GetList(map["Ref" := Str(ref)]);
      order := FirstOrNull(response);
    }

    /** `getByDateRange(beginDate, endDate, options = {})`. */
    method GetByDateRange(beginDate: string, endDate: string, options: Props := map[]) returns (r: Response)
      requires transport != null
      modifies transport
      ensures InvokedOnce(transport, CallFor(GetReturnOrdersListMethod, DateRangeProps(beginDate, endDate, options)), r)
    {
      r := GetList(DateRangeProps(beginDate, endDate, options));
    }

    /** Legacy alias of `getList`. */
    method GetReturnOrdersList(request: Props := map[]) returns (r: Response)
      requires transport != null
      modifies transport
      ensures InvokedOnce(transport, CallFor(GetReturnOrdersListMethod, request), r)
    {
      r := GetList(request);
    }

    /** Legacy alias of `checkPossibility`. */
    method CheckPossibilityCreateReturn(request: Props) returns (r: Response)
      requires transport != null
      modifies transport
      ensures InvokedOnce(transport, CallFor(CheckPossibilityMethod, request), r)
    {
      r := CheckPossibility(request);
    }

    /** Legacy alias of `create`. */
    method Save(request: Props) returns (r: Response)
      requires transport != null
      modifies transport
      ensures InvokedOnce(transport, CallFor(SaveMethod, request), r)
    {
      r := Create(request);
    }
  }

  /**
   * A client-side check of the mock scenario in the test suite: a service
   * attached to a fresh mock, asked with no argument, sends one call whose
   * properties are empty and whose envelope carries the credential.
   */
  method EmptyListScenario(baseUrl: string)
  {
    var t := new MockTransport(None);
    var service := new ReturnService();
    service.Attach(ClientContext(t, baseUrl, Some("test-api-key")));
    var r := service.GetList();
    assert |t.calls| == 1;
    assert t.calls[0].url == baseUrl;
    assert t.calls[0].body.methodProperties == map[];
    assert t.calls[0].body.apiKey == Some("test-api-key");
    assert r.success && r.data == [];
    var order := service.GetByNumber("non-existent");
    assert order == None;
    assert |t.calls| == 2;
  }
}

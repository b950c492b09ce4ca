/**
 * Return orders (`AdditionalServiceGeneral`): the two enumerations, the
 * editability test, and the three predicates that tell which kind of
 * return a create request asks for.
 */
module ReturnTypes {
  import opened Js

  /** `ReturnOrderType`: one value. */
  datatype ReturnOrderType = CargoReturn {
    /** The string the enumeration member stands for. */
    function Wire(): string {
      "orderCargoReturn"
    }
  }

  /** `ReturnOrderStatus`. */
  datatype ReturnOrderStatus = Accepted | InProgress | Completed | Cancelled {
    function Wire(): string {
      match this
      case Accepted => "Прийняте"
      case InProgress => "В обробці"
      case Completed => "Виконано"
      case Cancelled => "Скасовано"
    }
  }

  /** The enumeration has a single member, which stands for "orderCargoReturn". */
  lemma OnlyCargoReturnType(t: ReturnOrderType)
    ensures t == CargoReturn && t.Wire() == "orderCargoReturn"
  {
  }

  /** Distinct statuses are distinct strings, so a status string names one status. */
  lemma StatusWireInjective(a: ReturnOrderStatus, b: ReturnOrderStatus)
    ensures a.Wire() == b.Wire() <==> a == b
  {
  }

  /** `isReturnOrderEditable(status)`: the status compared with the Accepted value and its literal. */
  function IsReturnOrderEditable(status: string): (r: bool)
    ensures r <==> status == ReturnOrderStatus.Accepted.Wire()
  {
    status == ReturnOrderStatus.Accepted.Wire() || status == "Прийняте"
  }

  /** Of the four statuses, only Accepted is editable. */
  lemma OnlyAcceptedIsEditable(s: ReturnOrderStatus)
    ensures IsReturnOrderEditable(s.Wire()) <==> s == Accepted
  {
  }

  // ---------------------------------------------------------------------------
  // Variant predicates over a create request (a property bag)
  // ---------------------------------------------------------------------------

  /** `key in request && request[key] !== undefined`. */
  predicate Defined(request: Props, key: string) {
    key in request && request[key] != Undefined
  }

  /** The keys each variant predicate inspects. */
  const SenderAddressKeys: set<string> := {"ReturnAddressRef"}
  const NewAddressKeys: set<string> := {"RecipientSettlement", "RecipientSettlementStreet", "BuildingNumber"}
  const WarehouseKeys: set<string> := {"RecipientWarehouse"}

  /** `isReturnToSenderAddress(request)`: the sender address is given. */
  function IsReturnToSenderAddress(request: Props): (r: bool)
    ensures r <==> SenderAddressKeys <= request.Keys && request["ReturnAddressRef"] != Undefined
  {
    Defined(request, "ReturnAddressRef")
  }

  /** `isReturnToNewAddress(request)`: the street and building need only be present as keys. */
  function IsReturnToNewAddress(request: Props): (r: bool)
    ensures r <==> NewAddressKeys <= request.Keys && request["RecipientSettlement"] != Undefined
  {
    && "RecipientSettlementStreet" in request
    && "BuildingNumber" in request
    && Defined(request, "RecipientSettlement")
  }

  /** `isReturnToWarehouse(request)`: the receiving warehouse is given. */
  function IsReturnToWarehouse(request: Props): (r: bool)
    ensures r <==> WarehouseKeys <= request.Keys && request["RecipientWarehouse"] != Undefined
  {
    Defined(request, "RecipientWarehouse")
  }

  /** `r1` and `r2` hold the same keys of `keys`, with the same values. */
  predicate AgreeOn(r1: Props, r2: Props, keys: set<string>) {
    forall k :: k in keys ==> (k in r1 <==> k in r2) && (k in r1 ==> r1[k] == r2[k])
  }

  /** Each variant predicate depends on its own keys and on nothing else in the request. */
  lemma VariantsReadOnlyTheirKeys(r1: Props, r2: Props)
    ensures AgreeOn(r1, r2, SenderAddressKeys) ==> IsReturnToSenderAddress(r1) == IsReturnToSenderAddress(r2)
    ensures AgreeOn(r1, r2, NewAddressKeys) ==> IsReturnToNewAddress(r1) == IsReturnToNewAddress(r2)
    ensures AgreeOn(r1, r2, WarehouseKeys) ==> IsReturnToWarehouse(r1) == IsReturnToWarehouse(r2)
  {
    if AgreeOn(r1, r2, NewAddressKeys) {
      assert "RecipientSettlement" in NewAddressKeys;
      assert "RecipientSettlementStreet" in NewAddressKeys;
      assert "BuildingNumber" in NewAddressKeys;
    }
  }

  /** The predicates do not exclude one another: a request can satisfy all three. */
  lemma VariantsOverlap()
    ensures var r := map[
              "ReturnAddressRef" := Str("address-ref"),
              "RecipientSettlement" := Str("settlement-ref"),
              "RecipientSettlementStreet" := Str("street-ref"),
              "BuildingNumber" := Str("1"),
              "RecipientWarehouse" := Str("warehouse-ref")];
            IsReturnToSenderAddress(r) && IsReturnToNewAddress(r) && IsReturnToWarehouse(r)
  {
  }

  /**
   * Only the settlement must be defined for a new-address return: a street or
   * building key holding `undefined` still passes.
   */
  lemma NewAddressAcceptsUndefinedStreet(request: Props)
    requires Defined(request, "RecipientSettlement")
    ensures IsReturnToNewAddress(request["RecipientSettlementStreet" := Undefined]["BuildingNumber" := Undefined])
  {
  }

  /** A key holding `undefined` reads as absent for the sender-address and warehouse tests. */
  lemma UndefinedIsAbsent(request: Props)
    ensures !IsReturnToSenderAddress(request["ReturnAddressRef" := Undefined])
    ensures !IsReturnToWarehouse(request["RecipientWarehouse" := Undefined])
  {
  }
}

/**
 * The bridging server's tool registry: the listed tools, in order, and the
 * prefix test that sends a tool call to the handler of its group.
 */
module ToolRouting {
  import opened Js

  /** The four handler groups `dispatchTool` can reach. */
  datatype Handler = Tracking | Address | Waybill | Reference

  /** A tool definition; only the name matters for routing. */
  datatype Tool = Tool(name: string, description: string)

  /** The name prefixes, in the order they are tested. */
  const TrackPrefix := "track_"
  const DocumentPrefix := "get_document"
  const AddressPrefix := "address_"
  const WaybillPrefix := "waybill_"
  const ReferencePrefix := "reference_"

  /** The prefixes that send a name to `handler`. */
  predicate RoutesTo(name: string, handler: Handler) {
    match handler
    case Tracking => StartsWith(name, TrackPrefix) || StartsWith(name, DocumentPrefix)
    case Address => StartsWith(name, AddressPrefix)
    case Waybill => StartsWith(name, WaybillPrefix)
    case Reference => StartsWith(name, ReferencePrefix)
  }

  /** The first characters of `handler`'s prefixes. */
  function Heads(handler: Handler): set<char> {
    match handler
    case Tracking => {'t', 'g'}
    case Address => {'a'}
    case Waybill => {'w'}
    case Reference => {'r'}
  }

  /** A name that carries a prefix begins with that prefix's first character. */
  lemma SharesHead(name: string, prefix: string)
    requires |prefix| > 0 && StartsWith(name, prefix)
    ensures name[0] == prefix[0]
  {
    assert name[..|prefix|][0] == name[0];
  }

  /** A name that differs from a prefix at some position of both does not carry it. */
  lemma DiffersAt(name: string, prefix: string, i: nat)
    requires i < |prefix| && i < |name| && name[i] != prefix[i]
    ensures !StartsWith(name, prefix)
  {
  }

  /** A name routed to `handler` begins with one of that handler's first characters. */
  lemma RoutedHead(name: string, handler: Handler)
    requires RoutesTo(name, handler)
    ensures |name| > 0 && name[0] in Heads(handler)
  {
    match handler
    case Tracking =>
      if StartsWith(name, TrackPrefix) { SharesHead(name, TrackPrefix); } else { SharesHead(name, DocumentPrefix); }
    case Address => SharesHead(name, AddressPrefix);
    case Waybill => SharesHead(name, WaybillPrefix);
    case Reference => SharesHead(name, ReferencePrefix);
  }

  /** The first characters of the groups differ, so a name carries at most one group's prefix. */
  lemma PrefixesDisjoint(name: string, h1: Handler, h2: Handler)
    requires RoutesTo(name, h1) && RoutesTo(name, h2)
    ensures h1 == h2
  {
    RoutedHead(name, h1);
    RoutedHead(name, h2);
  }

  /**
   * `dispatchTool(name, ...)`: the handler of the first prefix that matches,
   * or the error "Unknown tool <name>".
   */
  function Dispatch(name: string): (r: Result<Handler, string>)
    ensures forall h :: r == Ok(h) <==> RoutesTo(name, h)
    ensures r.Err? <==> forall h :: !RoutesTo(name, h)
    ensures r.Err? ==> r.error == "Unknown tool " + name
  {
    if StartsWith(name, TrackPrefix) || StartsWith(name, DocumentPrefix) then
      DispatchedOnce(name, Tracking); Ok(Tracking)
    else if StartsWith(name, AddressPrefix) then
      DispatchedOnce(name, Address); Ok(Address)
    else if StartsWith(name, WaybillPrefix) then
      DispatchedOnce(name, Waybill); Ok(Waybill)
    else if StartsWith(name, ReferencePrefix) then
      DispatchedOnce(name, Reference); Ok(Reference)
    else
      Err("Unknown tool " + name)
  }

  /** A name that routes to `h` routes to no other handler. */
  lemma DispatchedOnce(name: string, h: Handler)
    requires RoutesTo(name, h)
    ensures forall g :: RoutesTo(name, g) <==> g == h
  {
    forall g | RoutesTo(name, g) {
      PrefixesDisjoint(name, h, g);
    }
  }

  /**
   * The order of the tests does not matter: trying the prefixes in any order
   * picks the same handler, because at most one of them matches.
   */
  lemma OrderIrrelevant(name: string, h: Handler)
    requires RoutesTo(name, h)
    ensures Dispatch(name) == Ok(h)
  {
  }

  /** Groups the registry has tools for but the dispatcher does not route. */
  lemma UnroutedGroupsRejected(suffix: string)
    ensures Dispatch("counterparty_" + suffix).Err?
    ensures Dispatch("contact_person_" + suffix).Err?
    ensures Dispatch("return_" + suffix).Err?
  {
    var c, p, t := "counterparty_" + suffix, "contact_person_" + suffix, "return_" + suffix;
    DiffersAt(c, TrackPrefix, 0); DiffersAt(c, DocumentPrefix, 0); DiffersAt(c, AddressPrefix, 0);
    DiffersAt(c, WaybillPrefix, 0); DiffersAt(c, ReferencePrefix, 0);
    DiffersAt(p, TrackPrefix, 0); DiffersAt(p, DocumentPrefix, 0); DiffersAt(p, AddressPrefix, 0);
    DiffersAt(p, WaybillPrefix, 0); DiffersAt(p, ReferencePrefix, 0);
    DiffersAt(t, TrackPrefix, 0); DiffersAt(t, DocumentPrefix, 0); DiffersAt(t, AddressPrefix, 0);
    DiffersAt(t, WaybillPrefix, 0); DiffersAt(t, ReferencePrefix, 2);
  }

  // ---------------------------------------------------------------------------

  /** `listAllTools()`: tracking, address, waybill and reference tools, in that order. */
  function ListAllTools(tracking: seq<Tool>, address: seq<Tool>, waybill: seq<Tool>, reference: seq<Tool>): (r: seq<Tool>)
    ensures |r| == |tracking| + |address| + |waybill| + |reference|
    ensures r[..|tracking|] == tracking
    ensures r[|tracking|..|tracking| + |address|] == address
    ensures r[|tracking| + |address|..|tracking| + |address| + |waybill|] == waybill
    ensures r[|tracking| + |address| + |waybill|..] == reference
  {
    var r := tracking + address + waybill + reference;
    assert r[..|tracking|] == tracking;
    assert r[|tracking|..|tracking| + |address|] == address;
    assert r[|tracking| + |address|..|tracking| + |address| + |waybill|] == waybill;
    r
  }

  /** Every tool of `tools` is named under `handler`'s prefixes. */
  predicate NamedFor(tools: seq<Tool>, handler: Handler) {
    forall i :: 0 <= i < |tools| ==> RoutesTo(tools[i].name, handler)
  }

  /** The group a position of the listing falls in. */
  function GroupAt(i: int, tracking: seq<Tool>, address: seq<Tool>, waybill: seq<Tool>): Handler {
    if i < |tracking| then Tracking
    else if i < |tracking| + |address| then Address
    else if i < |tracking| + |address| + |waybill| then Waybill
    else Reference
  }

  /**
   * When each group names its tools under its own prefixes, every listed tool
   * is dispatched to the handler of the group that listed it.
   */
  lemma ListedToolsDispatch(tracking: seq<Tool>, address: seq<Tool>, waybill: seq<Tool>, reference: seq<Tool>)
    requires NamedFor(tracking, Tracking) && NamedFor(address, Address)
    requires NamedFor(waybill, Waybill) && NamedFor(reference, Reference)
    ensures var all := ListAllTools(tracking, address, waybill, reference);
            forall i :: 0 <= i < |all| ==> Dispatch(all[i].name) == Ok(GroupAt(i, tracking, address, waybill))
  {
    var all := ListAllTools(tracking, address, waybill, reference);
    forall i | 0 <= i < |all|
      ensures Dispatch(all[i].name) == Ok(GroupAt(i, tracking, address, waybill))
    {
      var a, w := |tracking| + |address|, |tracking| + |address| + |waybill|;
      if i < |tracking| {
        assert all[i] == all[..|tracking|][i];
      } else if i < a {
        assert all[i] == all[|tracking|..a][i - |tracking|];
      } else if i < w {
        assert all[i] == all[a..w][i - a];
      } else {
        assert all[i] == all[w..][i - w];
      }
    }
  }

  /** The tracking tools the server defines. */
  const TrackingToolNames := ["track_document", "track_multiple_documents", "track_multiple",
                              "get_document_movement", "get_document_list"]
  const ReferenceToolNames := ["reference_get_cargo_types", "reference_get_service_types",
                               "reference_get_payment_methods", "reference_get_pallet_types",
                               "reference_get_time_intervals", "reference_get_ownership_forms",
                               "reference_decode_message", "reference_get_types_of_payers",
                               "reference_get_payment_forms", "reference_get_types_of_counterparties"]

  /** Every tracking tool the server defines reaches the tracking handler, every reference tool the reference handler. */
  lemma DefinedToolsDispatch()
    ensures forall i :: 0 <= i < |TrackingToolNames| ==> Dispatch(TrackingToolNames[i]) == Ok(Tracking)
    ensures forall i :: 0 <= i < |ReferenceToolNames| ==> Dispatch(ReferenceToolNames[i]) == Ok(Reference)
  {
    forall i | 0 <= i < |TrackingToolNames| ensures RoutesTo(TrackingToolNames[i], Tracking) {
      var n := TrackingToolNames[i];
      assert StartsWith(n, TrackPrefix) || StartsWith(n, DocumentPrefix) by {
        if i < 3 { assert n[..|TrackPrefix|] == TrackPrefix; }
        else { assert n[..|DocumentPrefix|] == DocumentPrefix; }
      }
    }
    forall i | 0 <= i < |ReferenceToolNames| ensures RoutesTo(ReferenceToolNames[i], Reference) {
      assert ReferenceToolNames[i][..|ReferencePrefix|] == ReferencePrefix;
    }
  }
}

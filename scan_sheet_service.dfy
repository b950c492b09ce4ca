/**
 * The scan-sheet (registry) service: six remote operations of the
 * `ScanSheetGeneral` model, three convenience wrappers, and the listing
 * that fetches every page.
 */
module ScanSheets {
  import opened Js
  import opened Envelope
  import opened Transport

  const ModelName := "ScanSheetGeneral"
  const InsertDocumentsMethod := "insertDocuments"
  const GetScanSheetMethod := "getScanSheet"
  const GetScanSheetListMethod := "getScanSheetList"
  const DeleteScanSheetMethod := "deleteScanSheet"
  const RemoveDocumentsMethod := "removeDocuments"
  const PrintScanSheetMethod := "printScanSheet"

  /** The page size `getAllScanSheets` asks for. */
  const PageLimit := 100

  /** A JS array of strings. */
  function Strings(xs: seq<string>): (v: Value)
    ensures v.Arr? && |v.items| == |xs|
    ensures forall i :: 0 <= i < |xs| ==> v.items[i] == Str(xs[i])
  {
    Arr(seq(|xs|, i requires 0 <= i < |xs| => Str(xs[i])))
  }

  /** `{ DocumentRefs }`, the properties `createScanSheet` sends. */
  function NewSheetProps(documentRefs: seq<string>): Props {
    map["DocumentRefs" := Strings(documentRefs)]
  }

  /** `{ Ref, DocumentRefs }`, the properties `addDocuments` sends. */
  function AddToSheetProps(scanSheetRef: string, documentRefs: seq<string>): Props {
    map["Ref" := Str(scanSheetRef), "DocumentRefs" := Strings(documentRefs)]
  }

  /** `{ ScanSheetRefs: [ref] }`, the properties `deleteSingle` sends. */
  function DeleteOneProps(scanSheetRef: string): Props {
    map["ScanSheetRefs" := Strings([scanSheetRef])]
  }

  /** `{ Page, Limit }` for one page of the full listing. */
  function PageProps(page: int): Props {
    map["Page" := Num(page), "Limit" := Num(PageLimit)]
  }

  /**
   * Adding to an existing sheet sends the same insertion as creating one,
   * plus the sheet's `Ref`; creating sends no `Ref` at all.
   */
  lemma CreateIsAddWithoutRef(scanSheetRef: string, documentRefs: seq<string>)
    ensures "Ref" !in NewSheetProps(documentRefs)
    ensures NewSheetProps(documentRefs).Keys == {"DocumentRefs"}
    ensures AddToSheetProps(scanSheetRef, documentRefs) == NewSheetProps(documentRefs)["Ref" := Str(scanSheetRef)]
  {
  }

  // ---------------------------------------------------------------------------
  // The full listing, as a function of the replies the remote gives
  // ---------------------------------------------------------------------------

  /** A page after which the listing goes on: successful, with exactly `PageLimit` items. */
  predicate IsFullPage(r: Response) {
    r.success && |r.data| == PageLimit
  }

  /** A page whose items the listing keeps: successful and not empty. */
  predicate IsKeptPage(r: Response) {
    r.success && |r.data| > 0
  }

  /** The `k`-th reply (from 0) of a remote answering `script` and then `fallback`. */
  function ReplyAt(script: seq<Response>, fallback: Response, k: nat): Response {
    if k < |script| then script[k] else fallback
  }

  /**
   * The remote, answering `script` and then `fallback` for ever, eventually
   * gives a page that is not full. Otherwise the listing never stops.
   */
  predicate EventuallyStops(script: seq<Response>, fallback: Response)
    decreases |script|
  {
    if script == [] then !IsFullPage(fallback)
    else !IsFullPage(script[0]) || EventuallyStops(script[1..], fallback)
  }

  /** The listing can stop exactly when some reply, counted from the first, is not a full page. */
  lemma {:induction false} EventuallyStopsMeaning(script: seq<Response>, fallback: Response)
    ensures EventuallyStops(script, fallback) <==> exists k: nat :: !IsFullPage(ReplyAt(script, fallback, k))
    decreases |script|
  {
    if script == [] {
      assert ReplyAt(script, fallback, 0) == fallback;
      assert forall k: nat :: ReplyAt(script, fallback, k) == fallback;
    } else if !IsFullPage(script[0]) {
      assert ReplyAt(script, fallback, 0) == script[0];
    } else {
      EventuallyStopsMeaning(script[1..], fallback);
      NotFullAfterFirst(script, fallback);
    }
  }

  /** After a full first reply, the replies that are not full are those of the rest, one place later. */
  lemma NotFullAfterFirst(script: seq<Response>, fallback: Response)
    requires script != [] && IsFullPage(script[0])
    ensures (exists k: nat :: !IsFullPage(ReplyAt(script, fallback, k)))
            <==> exists k: nat :: !IsFullPage(ReplyAt(script[1..], fallback, k))
  {
    if exists k: nat :: !IsFullPage(ReplyAt(script, fallback, k)) {
      var k: nat :| !IsFullPage(ReplyAt(script, fallback, k));
      assert ReplyAt(script[1..], fallback, k - 1) == ReplyAt(script, fallback, k);
    }
    if exists k: nat :: !IsFullPage(ReplyAt(script[1..], fallback, k)) {
      var k: nat :| !IsFullPage(ReplyAt(script[1..], fallback, k));
      assert ReplyAt(script[1..], fallback, k) == ReplyAt(script, fallback, k + 1);
    }
  }

  /** The number of full pages before the first page that is not. */
  function FullPages(script: seq<Response>, fallback: Response): (n: nat)
    requires EventuallyStops(script, fallback)
    ensures n <= |script|
    ensures forall k :: 0 <= k < n ==> IsFullPage(script[k])
    ensures !IsFullPage(ReplyAt(script, fallback, n))
    decreases |script|
  {
    if script == [] || !IsFullPage(script[0]) then 0
    else 1 + FullPages(script[1..], fallback)
  }

  /**
   * The items the listing collects: each full page in turn, then the first
   * page that is not full, if it succeeded with items.
   */
  function Collected(script: seq<Response>, fallback: Response): (r: seq<Value>)
    requires EventuallyStops(script, fallback)
    ensures IsKeptPage(ReplyAt(script, fallback, 0)) ==> ReplyAt(script, fallback, 0).data <= r
    ensures r == [] <==> !IsKeptPage(ReplyAt(script, fallback, 0))
    decreases |script|
  {
    var first := ReplyAt(script, fallback, 0);
    if IsFullPage(first) then first.data + Collected(script[1..], fallback)
    else if IsKeptPage(first) then first.data
    else []
  }

  /** The concatenation of the items of `pages`, in order. */
  function ConcatData(pages: seq<Response>): seq<Value> {
    if pages == [] then [] else ConcatData(pages[..|pages| - 1]) + pages[|pages| - 1].data
  }

  /** The transport call for page `page` of the full listing. */
  function PageCall(url: string, apiKey: Option<string>, page: int): Call {
    Call(url, Build(apiKey, ModelName, GetScanSheetListMethod, PageProps(page)))
  }

  /** The calls for pages 1, 2, ..., `count`, in that order. */
  function PageCalls(url: string, apiKey: Option<string>, count: nat): (r: seq<Call>)
    ensures |r| == count
    ensures forall i :: 0 <= i < count ==> r[i] == PageCall(url, apiKey, i + 1)
  {
    seq(count, i requires 0 <= i < count => PageCall(url, apiKey, i + 1))
  }

  /** `k` queued replies consumed. */
  function Drop(script: seq<Response>, k: nat): (r: seq<Response>)
    ensures k <= |script| ==> r == script[k..]
    ensures k >= |script| ==> r == []
  {
    if k <= |script| then script[k..] else []
  }

  /**
   * The collected items are the full pages' items in page order, followed by
   * those of the page that ended the listing when it succeeded with items.
   */
  lemma {:induction false} CollectedIsConcatenation(script: seq<Response>, fallback: Response)
    requires EventuallyStops(script, fallback)
    ensures Collected(script, fallback)
            == ConcatData(script[..FullPages(script, fallback)]) + LastKept(script, fallback)
    decreases |script|
  {
    if script != [] && IsFullPage(script[0]) {
      var tail := script[1..];
      ListingStep(script, fallback);
      CollectedIsConcatenation(tail, fallback);
      LastKeptTail(script, fallback);
      ConcatDataFront(script, FullPages(script, fallback));
    }
  }

  /** After a full first page, the page that ends the listing is the same one. */
  lemma LastKeptTail(script: seq<Response>, fallback: Response)
    requires EventuallyStops(script, fallback) && script != [] && IsFullPage(script[0])
    ensures EventuallyStops(script[1..], fallback)
    ensures FullPages(script, fallback) == FullPages(script[1..], fallback) + 1
    ensures LastKept(script[1..], fallback) == LastKept(script, fallback)
  {
    var n := FullPages(script, fallback);
    assert ReplyAt(script[1..], fallback, n - 1) == ReplyAt(script, fallback, n);
  }

  /** The items of the first `n` pages are the first page's, then those of the next `n - 1`. */
  lemma ConcatDataFront(pages: seq<Response>, n: nat)
    requires 0 < n <= |pages|
    ensures ConcatData(pages[..n]) == pages[0].data + ConcatData(pages[1..][..n - 1])
  {
    ConcatDataCons(pages[0], pages[1..][..n - 1]);
    assert [pages[0]] + pages[1..][..n - 1] == pages[..n];
  }

  /** The items the page that ended the listing contributes. */
  function LastKept(script: seq<Response>, fallback: Response): seq<Value>
    requires EventuallyStops(script, fallback)
  {
    var last := ReplyAt(script, fallback, FullPages(script, fallback));
    if IsKeptPage(last) then last.data else []
  }

  lemma {:induction false} ConcatDataCons(p: Response, pages: seq<Response>)
    ensures ConcatData([p] + pages) == p.data + ConcatData(pages)
    decreases |pages|
  {
    if pages != [] {
      var all := [p] + pages;
      assert all[..|all| - 1] == [p] + pages[..|pages| - 1];
      ConcatDataCons(p, pages[..|pages| - 1]);
    }
  }

  /** Each full page contributes exactly `PageLimit` items. */
  lemma {:induction false} CollectedLength(script: seq<Response>, fallback: Response)
    requires EventuallyStops(script, fallback)
    ensures var n := FullPages(script, fallback);
            var last := ReplyAt(script, fallback, n);
            |Collected(script, fallback)| == n * PageLimit + (if IsKeptPage(last) then |last.data| else 0)
  {
    if script != [] && IsFullPage(script[0]) {
      CollectedLength(script[1..], fallback);
    }
  }

  /**
   * Pages 1..N with exactly `PageLimit` items and a successful page N+1 with
   * fewer: the listing collects exactly the items of pages 1..N+1, and asks
   * for N+1 pages.
   */
  lemma PaginationExhaustion(pages: seq<Response>, fallback: Response)
    requires |pages| > 0
    requires forall k :: 0 <= k < |pages| - 1 ==> IsFullPage(pages[k])
    requires pages[|pages| - 1].success && |pages[|pages| - 1].data| < PageLimit
    ensures EventuallyStops(pages, fallback)
    ensures FullPages(pages, fallback) + 1 == |pages|
    ensures Collected(pages, fallback) == ConcatData(pages)
  {
    var n := |pages| - 1;
    StopsAt(pages, fallback, n);
    FullPagesExact(pages, fallback, n);
    CollectedIsConcatenation(pages, fallback);
    assert pages[..n] == pages[..|pages| - 1];
    assert IsKeptPage(pages[n]) ==> LastKept(pages, fallback) == pages[n].data;
  }

  /** Full pages up to position `k` and a page at `k` that is not: the listing asks `k + 1` times. */
  lemma {:induction false} FullPagesExact(script: seq<Response>, fallback: Response, k: nat)
    requires k < |script| && !IsFullPage(script[k])
    requires forall j :: 0 <= j < k ==> IsFullPage(script[j])
    requires EventuallyStops(script, fallback)
    ensures FullPages(script, fallback) == k
    decreases k
  {
    if k > 0 {
      assert IsFullPage(script[0]);
      assert forall j :: 0 <= j < k - 1 ==> script[1..][j] == script[j + 1];
      FullPagesExact(script[1..], fallback, k - 1);
    }
  }

  /** A remote whose `k`-th queued reply is not full, after only full ones, stops there. */
  lemma {:induction false} StopsAt(script: seq<Response>, fallback: Response, k: nat)
    requires k < |script| && !IsFullPage(script[k])
    ensures EventuallyStops(script, fallback)
    decreases k
  {
    if k > 0 && IsFullPage(script[0]) {
      StopsAt(script[1..], fallback, k - 1);
    }
  }

  /**
   * A failed call ends the listing without losing anything: the items of
   * every full page before it are kept, and the failure adds none.
   */
  lemma FailureKeepsEarlierPages(script: seq<Response>, fallback: Response)
    requires EventuallyStops(script, fallback)
    requires !ReplyAt(script, fallback, FullPages(script, fallback)).success
    ensures Collected(script, fallback) == ConcatData(script[..FullPages(script, fallback)])
  {
    CollectedIsConcatenation(script, fallback);
  }

  /** One turn of the listing: what the first reply decides. */
  lemma ListingStep(script: seq<Response>, fallback: Response)
    requires EventuallyStops(script, fallback)
    ensures var first := ReplyAt(script, fallback, 0);
            if IsFullPage(first) then
              && script != []
              && EventuallyStops(script[1..], fallback)
              && FullPages(script, fallback) == 1 + FullPages(script[1..], fallback)
              && Collected(script, fallback) == first.data + Collected(script[1..], fallback)
            else
              && FullPages(script, fallback) == 0
              && Collected(script, fallback) == if IsKeptPage(first) then first.data else []
  {
  }

  /**
   * Where the full listing stands after `done` replies, `rest` being the
   * replies still queued: while it goes on, the remaining full pages and
   * items are those of `rest`; once it has stopped, it has asked one page more
   * than there are full pages and has kept everything.
   */
  ghost predicate Progress(script0: seq<Response>, fallback: Response, rest: seq<Response>,
                           done: nat, hasMore: bool, acc: seq<Value>)
    requires EventuallyStops(script0, fallback)
  {
    if hasMore then
      && EventuallyStops(rest, fallback)
      && FullPages(script0, fallback) == done + FullPages(rest, fallback)
      && Collected(script0, fallback) == acc + Collected(rest, fallback)
    else
      && done == FullPages(script0, fallback) + 1
      && acc == Collected(script0, fallback)
  }

  /**
   * One reply moves the listing on: it goes on exactly after a full page,
   * and keeps the reply's items exactly when it succeeded with some.
   */
  lemma ListingAdvance(script0: seq<Response>, fallback: Response, before: seq<Response>,
                       done: nat, acc: seq<Value>, reply: Response)
    requires EventuallyStops(script0, fallback)
    requires Progress(script0, fallback, before, done, true, acc)
    requires reply == ReplyAt(before, fallback, 0)
    ensures IsFullPage(reply) ==> before != []
    ensures Progress(script0, fallback, Rest(before), done + 1, IsFullPage(reply),
                     if IsKeptPage(reply) then acc + reply.data else acc)
  {
    ListingStep(before, fallback);
    if IsFullPage(reply) {
      assert Rest(before) == before[1..];
      assert (acc + reply.data) + Collected(Rest(before), fallback) == acc + (reply.data + Collected(Rest(before), fallback));
    }
  }

  lemma PageCallsSnoc(url: string, apiKey: Option<string>, n: nat)
    ensures PageCalls(url, apiKey, n + 1) == PageCalls(url, apiKey, n) + [PageCall(url, apiKey, n + 1)]
  {
    assert PageCalls(url, apiKey, n + 1)[..n] == PageCalls(url, apiKey, n);
  }

  lemma DropNext(script: seq<Response>, k: nat)
    ensures Rest(Drop(script, k)) == Drop(script, k + 1)
  {
  }

  // ---------------------------------------------------------------------------
  // The service
  // ---------------------------------------------------------------------------

  class ScanSheetService {
    const namespace: string
    /** `null` until `attach`; the bound transport afterwards. */
    var transport: MockTransport?
    var baseUrl: string
    var apiKey: Option<string>

    constructor ()
      ensures namespace == "scanSheet"
      ensures transport == null && apiKey == None
    {
      namespace := "scanSheet";
      transport := null;
      baseUrl := "";
      apiKey := None;
    }

    /** `attach(ctx)`: bind the client's transport and credential. */
    method Attach(ctx: ClientContext)
      modifies this
      ensures transport == ctx.transport && baseUrl == ctx.baseUrl && apiKey == ctx.apiKey
    {
      transport := ctx.transport;
      baseUrl := ctx.baseUrl;
      apiKey := ctx.apiKey;
    }

    /** The one transport call of `calledMethod` with `props`. */
    function CallFor(calledMethod: string, props: Props): Call
      reads this
    {
      Call(baseUrl, Build(apiKey, ModelName, calledMethod, props))
    }

    /** `this.transport.request(apiRequest)`: one invocation, its reply handed back. */
    method Send(calledMethod: string, props: Props) returns (r: Response)
      requires transport != null
      modifies transport
      ensures InvokedOnce(transport, CallFor(calledMethod, props), r)
    {
      var status;
      status, r := transport.Invoke(CallFor(calledMethod, props));
    }

    method InsertDocuments(request: Props) returns (r: Response)
      requires transport != null
      modifies transport
      ensures InvokedOnce(transport, CallFor(InsertDocumentsMethod, request), r)
    {
      r := Send(InsertDocumentsMethod, request);
    }

    method GetScanSheet(request: Props) returns (r: Response)
      requires transport != null
      modifies transport
      ensures InvokedOnce(transport, CallFor(GetScanSheetMethod, request), r)
    {
      r := Send(GetScanSheetMethod, request);
    }

    method GetScanSheetList(request: Props := map[]) returns (r: Response)
      requires transport != null
      modifies transport
      ensures InvokedOnce(transport, CallFor(GetScanSheetListMethod, request), r)
    {
      r := Send(GetScanSheetListMethod, request);
    }

    method DeleteScanSheet(request: Props) returns (r: Response)
      requires transport != null
      modifies transport
      ensures InvokedOnce(transport, CallFor(DeleteScanSheetMethod, request), r)
    {
      r := Send(DeleteScanSheetMethod, request);
    }

    method RemoveDocuments(request: Props) returns (r: Response)
      requires transport != null
      modifies transport
      ensures InvokedOnce(transport, CallFor(RemoveDocumentsMethod, request), r)
    {
      r := Send(RemoveDocumentsMethod, request);
    }

    method PrintScanSheet(request: Props) returns (r: Response)
      requires transport != null
      modifies transport
      ensures InvokedOnce(transport, CallFor(PrintScanSheetMethod, request), r)
    {
      r := Send(PrintScanSheetMethod, request);
    }

    /** `createScanSheet(refs)`: an insertion with the refs and no `Ref`. */
    method CreateScanSheet(documentRefs: seq<string>) returns (r: Response)
      requires transport != null
      modifies transport
      ensures InvokedOnce(transport, CallFor(InsertDocumentsMethod, NewSheetProps(documentRefs)), r)
    {
      r := InsertDocuments(NewSheetProps(documentRefs));
    }

    /** `addDocuments(ref, refs)`: an insertion into the sheet `ref`. */
    method AddDocuments(scanSheetRef: string, documentRefs: seq<string>) returns (r: Response)
      requires transport != null
      modifies transport
      ensures InvokedOnce(transport, CallFor(InsertDocumentsMethod, AddToSheetProps(scanSheetRef, documentRefs)), r)
    {
      r := InsertDocuments(AddToSheetProps(scanSheetRef, documentRefs));
    }

    /** `deleteSingle(ref)`: a deletion of the one sheet `ref`. */
    method DeleteSingle(scanSheetRef: string) returns (r: Response)
      requires transport != null
      modifies transport
      ensures InvokedOnce(transport, CallFor(DeleteScanSheetMethod, DeleteOneProps(scanSheetRef)), r)
    {
      r := DeleteScanSheet(DeleteOneProps(scanSheetRef));
    }

    /**
     * `getAllScanSheets()`: ask for pages 1, 2, ... of `PageLimit` items until
     * a page is short, empty or failed; answer success with everything kept.
     */
    method GetAllScanSheets() returns (r: Response)
      requires transport != null
      requires EventuallyStops(transport.script, transport.response)
      modifies transport
      ensures r == Succeeded(Collected(old(transport.script), old(transport.response)))
      ensures var count := FullPages(old(transport.script), old(transport.response)) + 1;
              && transport.calls == old(transport.calls) + PageCalls(baseUrl, apiKey, count)
              && transport.script == Drop(old(transport.script), count)
      ensures transport.response == old(transport.response)
    {
      ghost var script0, fallback, calls0 := transport.script, transport.response, transport.calls;
      ghost var done: nat := 0;
      var allScanSheets: seq<Value> := [];
      var page := 1;
      var hasMore := true;

      while hasMore
        invariant transport.response == fallback
        invariant transport.script == Drop(script0, done)
        invariant transport.calls == calls0 + PageCalls(baseUrl, apiKey, done)
        invariant hasMore ==> page == done + 1
        invariant Progress(script0, fallback, transport.script, done, hasMore, allScanSheets)
        decreases |transport.script|, hasMore
      {
        ghost var before := transport.script;
        var response := GetScanSheetList(PageProps(page));
        assert response == ReplyAt(before, fallback, 0);
        ListingAdvance(script0, fallback, before, done, allScanSheets, response);
        PageCallsSnoc(baseUrl, apiKey, done);
        DropNext(script0, done);
        done := done + 1;
        if response.success && |response.data| > 0 {
          allScanSheets := allScanSheets + response.data;
          hasMore := |response.data| == PageLimit;
          page := page + 1;
        } else {
          hasMore := false;
        }
      }

      r := Succeeded(allScanSheets);
    }
  }

  /**
   * A remote that answers one full page and then a page of one item: the
   * listing asks for pages 1 and 2 and keeps all the items, in order.
   */
  method TwoPageListingScenario(baseUrl: string, first: seq<Value>, last: Value)
    requires |first| == PageLimit
  {
    var t := new MockTransport(None);
    var pages := [Succeeded(first), Succeeded([last])];
    t.QueueReplies(pages);
    var service := new ScanSheetService();
    service.Attach(ClientContext(t, baseUrl, None));
    assert t.script == pages;
    PaginationExhaustion(pages, t.response);
    assert pages[..1] == [pages[0]];
    var r := service.GetAllScanSheets();
    assert r.data == first + [last];
    assert |t.calls| == 2 && t.script == [];
    assert t.calls[1].body.methodProperties == PageProps(2);
  }
}

/** `BookListComponent`: infinite-scroll accumulation of the catalog's
    pages. The component's four fields form a `ListState`; the two events
    that change it (the catalog stream emitting a response, and the
    "scrolled to bottom" signal) are specified as functions on `ListState`,
    and the component's methods are proved to follow them. Requests the
    component makes of `BooksService.getAllBooks` are returned as
    `PageRequest` values. */
module BookList {
  import opened Models
  import opened Catalog

  /** `books` (`undefined` or a list), `meta`, `isLoading`, `pageIndex`. */
  datatype ListState = ListState(books: Option<seq<Book>>, meta: Option<Meta>, isLoading: bool, pageIndex: int)

  /** A call `getAllBooks(page, genre)`. */
  datatype PageRequest = PageRequest(page: int, genre: Option<string>)

  /** The state after an event, with the page request it issued, if any. */
  datatype Step = Step(state: ListState, request: Option<PageRequest>)

  /** The field initialisers. */
  function Initial(): ListState {
    ListState(None, None, false, 1)
  }

  /** The stream's `next` handler: the first emission sets the list and
      leaves `meta` alone; every later one appends and replaces `meta`. */
  function Emitted(s: ListState, response: Response): ListState {
    if s.books.Some? then s.(books := Some(s.books.value + response.data), meta := response.meta)
    else s.(books := Some(response.data))
  }

  /** JavaScript's `x || d` on a number: `d` when `x` is 0 (or the field is
      undefined because `meta` is). */
  function OrDefault(x: Option<int>, d: int): int {
    if x.None? || x.value == 0 then d else x.value
  }

  function CurrentPage(meta: Option<Meta>): Option<int> {
    if meta.Some? then Some(meta.value.currentPage) else None
  }

  function ItemsPerPage(meta: Option<Meta>): Option<int> {
    if meta.Some? then Some(meta.value.itemsPerPage) else None
  }

  function TotalItems(meta: Option<Meta>): Option<int> {
    if meta.Some? then Some(meta.value.totalItems) else None
  }

  /** The end-of-data half of the load-more guard:
      `(currentPage || 0) * (itemsPerPage || 1) >= (totalItems || 0)`. */
  predicate EndOfData(meta: Option<Meta>) {
    OrDefault(CurrentPage(meta), 0) * OrDefault(ItemsPerPage(meta), 1) >= OrDefault(TotalItems(meta), 0)
  }

  /** The load-more handler: `pageIndex` is incremented first, then the
      guard decides whether `getAllBooks(pageIndex, '')` is called. */
  function LoadMore(s: ListState): Step {
    var s' := s.(pageIndex := s.pageIndex + 1);
    if EndOfData(s'.meta) || s'.isLoading then Step(s', None)
    else Step(s'.(isLoading := true), Some(PageRequest(s'.pageIndex, Some(""))))
  }

  /** The stream's `finalize`, run when the subscription is torn down. */
  function Finalized(s: ListState): ListState {
    s.(isLoading := false)
  }

  /** A response emitted by the catalog stream, or the scrolled-to-bottom
      signal. */
  datatype Event = Emission(response: Response) | ScrolledToBottom

  /** The final state after a sequence of events, and the page requests
      issued on the way, in order. */
  datatype Trace = Trace(state: ListState, requests: seq<PageRequest>)

  function Apply(s: ListState, e: Event): Step {
    match e
    case Emission(r) => Step(Emitted(s, r), None)
    case ScrolledToBottom => LoadMore(s)
  }

  function RequestsOf(r: Option<PageRequest>): seq<PageRequest> {
    if r.Some? then [r.value] else []
  }

  function Run(s: ListState, events: seq<Event>): Trace
    decreases |events|
  {
    if events == [] then Trace(s, [])
    else
      var step := Apply(s, events[0]);
      var rest := Run(step.state, events[1..]);
      Trace(rest.state, RequestsOf(step.request) + rest.requests)
  }

  function Scrolls(events: seq<Event>): nat {
    if events == [] then 0 else (if events[0].ScrolledToBottom? then 1 else 0) + Scrolls(events[1..])
  }

  // ---- Properties of single events ----

  /** An emission while the list is undefined sets it to exactly the
      response's data; `meta`, the flag and the page index are kept. */
  lemma FirstEmissionSets(s: ListState, response: Response)
    requires s.books.None?
    ensures Emitted(s, response) == s.(books := Some(response.data))
    ensures Emitted(s, response).meta == s.meta
  {
  }

  /** An emission while the list is defined appends: the old list is a
      prefix, the response's data follow in order, nothing is dropped or
      merged, and `meta` becomes the response's. */
  lemma LaterEmissionAppends(s: ListState, response: Response)
    requires s.books.Some?
    ensures var t := Emitted(s, response);
      && t.books.Some?
      && |t.books.value| == |s.books.value| + |response.data|
      && t.books.value[..|s.books.value|] == s.books.value
      && t.books.value[|s.books.value|..] == response.data
      && t.meta == response.meta
      && t.isLoading == s.isLoading && t.pageIndex == s.pageIndex
  {
    var t := Emitted(s, response);
    assert t.books.value == s.books.value + response.data;
  }

  /** The load-more handler always increments the page index, fetches
      exactly when neither the end-of-data guard nor the in-flight flag
      stops it, and then asks for the new page with genre `''` and marks a
      fetch in flight; otherwise nothing else changes. */
  lemma LoadMoreGuard(s: ListState)
    ensures LoadMore(s).state.pageIndex == s.pageIndex + 1
    ensures LoadMore(s).state.books == s.books && LoadMore(s).state.meta == s.meta
    ensures LoadMore(s).request.Some? <==> !EndOfData(s.meta) && !s.isLoading
    ensures LoadMore(s).request.Some? ==>
      LoadMore(s).request.value == PageRequest(s.pageIndex + 1, Some("")) && LoadMore(s).state.isLoading
    ensures LoadMore(s).request.None? ==> LoadMore(s).state.isLoading == s.isLoading
  {
  }

  /** Before any metadata has arrived the guard reads `0 * 1 >= 0`. */
  lemma NoMetaMeansEndOfData()
    ensures EndOfData(None)
  {
  }

  /** With 25 items in pages of 10, page 1 leaves more to load and page 3
      does not. */
  lemma GuardExamples(message: string, status: int)
    ensures !EndOfData(Some(Meta(1, 10, message, status, 25)))
    ensures !EndOfData(Some(Meta(2, 10, message, status, 25)))
    ensures EndOfData(Some(Meta(3, 10, message, status, 25)))
  {
  }

  /** A zero `itemsPerPage` falls back to 1, so the guard then compares the
      page number itself with the total. */
  lemma ZeroPageSizeFallsBack(m: Meta)
    requires m.itemsPerPage == 0
    ensures EndOfData(Some(m)) <==> OrDefault(Some(m.currentPage), 0) >= OrDefault(Some(m.totalItems), 0)
  {
  }

  // ---- Properties of event sequences ----

  /** No emission clears the in-flight flag: once it is set, no sequence of
      events issues a request, and the flag stays set. */
  lemma {:induction false} InFlightLatches(s: ListState, events: seq<Event>)
    requires s.isLoading
    ensures Run(s, events).state.isLoading
    ensures Run(s, events).requests == []
    decreases |events|
  {
    if events != [] {
      InFlightLatches(Apply(s, events[0]).state, events[1..]);
    }
  }

  /** Consequently a mounted component issues at most one load-more request
      over any sequence of events. */
  lemma {:induction false} AtMostOneRequest(s: ListState, events: seq<Event>)
    ensures |Run(s, events).requests| <= 1
    decreases |events|
  {
    if events != [] {
      var step := Apply(s, events[0]);
      if step.request.Some? {
        InFlightLatches(step.state, events[1..]);
      } else {
        AtMostOneRequest(step.state, events[1..]);
      }
    }
  }

  /** Every scroll event increments the page index, whether or not it
      fetches; emissions never touch it. */
  lemma {:induction false} PageIndexCountsScrolls(s: ListState, events: seq<Event>)
    ensures Run(s, events).state.pageIndex == s.pageIndex + Scrolls(events)
    decreases |events|
  {
    if events != [] {
      PageIndexCountsScrolls(Apply(s, events[0]).state, events[1..]);
    }
  }

  /** Once the list is defined it only grows at the end: what was shown stays
      a prefix of what is shown. */
  lemma {:induction false} ListOnlyGrows(s: ListState, events: seq<Event>)
    requires s.books.Some?
    ensures Run(s, events).state.books.Some?
    ensures s.books.value <= Run(s, events).state.books.value
    decreases |events|
  {
    if events != [] {
      var next := Apply(s, events[0]).state;
      assert s.books.value <= next.books.value;
      ListOnlyGrows(next, events[1..]);
    }
  }

  /** At start-up the stream replays its initial `{data: []}`, which sets
      the list to `[]` without metadata; the real first page is then
      appended, so the list is exactly that page and `meta` is its
      metadata. */
  lemma StartupReplayThenFirstPage(page1: Response)
    ensures Run(Initial(), [Emission(InitialResponse()), Emission(page1)]).state ==
      ListState(Some(page1.data), page1.meta, false, 1)
  {
    var events := [Emission(InitialResponse()), Emission(page1)];
    var s1 := Emitted(Initial(), InitialResponse());
    assert s1 == ListState(Some([]), None, false, 1);
    var s2 := Emitted(s1, page1);
    assert [] + page1.data == page1.data;
    assert s2 == ListState(Some(page1.data), page1.meta, false, 1);
    assert events[1..] == [Emission(page1)];
    assert Run(s2, []) == Trace(s2, []);
    assert Run(s1, [Emission(page1)]).state == s2;
  }

  /** A scroll before the first page has arrived is swallowed by the guard
      but still increments the page index, so the first load-more after
      page 1 asks for page 3: page 2 is never requested. */
  lemma EarlyScrollSkipsPage(data: seq<Book>, message: string, status: int)
    ensures Run(Initial(), [Emission(InitialResponse()), ScrolledToBottom,
                            Emission(Response(data, Some(Meta(1, 10, message, status, 25)))), ScrolledToBottom]).requests
            == [PageRequest(3, Some(""))]
  {
    var page1 := Response(data, Some(Meta(1, 10, message, status, 25)));
    var events := [Emission(InitialResponse()), ScrolledToBottom, Emission(page1), ScrolledToBottom];
    var s1 := Emitted(Initial(), InitialResponse());
    var s2 := LoadMore(s1).state;
    assert LoadMore(s1).request.None? && s2.pageIndex == 2;
    var s3 := Emitted(s2, page1);
    assert LoadMore(s3).request == Some(PageRequest(3, Some("")));
    var s4 := LoadMore(s3).state;
    assert events[1..] == [ScrolledToBottom, Emission(page1), ScrolledToBottom];
    assert events[2..] == [Emission(page1), ScrolledToBottom];
    assert events[3..] == [ScrolledToBottom];
    assert Run(s4, []).requests == [];
    assert Run(s3, events[3..]).requests == [PageRequest(3, Some(""))];
    assert Run(s2, events[2..]).requests == [PageRequest(3, Some(""))];
    assert Run(s1, events[1..]).requests == [PageRequest(3, Some(""))];
  }

  // ---- The component ----

  class BookListComponent {
    var books: Option<seq<Book>>
    var meta: Option<Meta>
    var isLoading: bool
    var pageIndex: int

    function State(): ListState
      reads this
    {
      ListState(books, meta, isLoading, pageIndex)
    }

    constructor ()
      ensures State() == Initial()
    {
      books, meta, isLoading, pageIndex := None, None, false, 1;
    }

    /** `ngOnInit`: subscribing to the catalog stream delivers its current
        value at once; then the initial page is requested. */
    method NgOnInit(service: BooksService) returns (request: PageRequest)
      modifies this
      ensures State() == Emitted(old(State()), service.latest)
      ensures request == PageRequest(pageIndex, Some(""))
    {
      OnNext(service.latest);
      request := PageRequest(pageIndex, Some(""));
    }

    /** The stream's `next` handler. */
    method OnNext(response: Response)
      modifies this
      ensures State() == Emitted(old(State()), response)
    {
      if books.Some? {
        books := Some(books.value + response.data);
        meta := response.meta;
      } else {
        books := Some(response.data);
      }
    }

    /** The `_loadMoreSubject` handler, run on each scrolled-to-bottom
        signal. */
    method OnLoadMore() returns (request: Option<PageRequest>)
      modifies this
      ensures Step(State(), request) == LoadMore(old(State()))
    {
      pageIndex := pageIndex + 1;
      if OrDefault(CurrentPage(meta), 0) * OrDefault(ItemsPerPage(meta), 1) >= OrDefault(TotalItems(meta), 0)
         || isLoading {
        return None;
      }
      isLoading := true;
      request := Some(PageRequest(pageIndex, Some("")));
    }

    /** `ngOnDestroy`: unsubscribing runs the stream's `finalize`, the only
        place the in-flight flag is cleared. */
    method NgOnDestroy()
      modifies this
      ensures State() == Finalized(old(State()))
    {
      isLoading := false;
    }
  }

  /** A page request served by the catalog: the service fetches it and, on
      success, its stream emits the new value to the component. */
  method Deliver(service: BooksService, component: BookListComponent, request: PageRequest, outcome: HttpResult<Response>)
    modifies service, service.toastr, component
    ensures outcome.Ok? ==> service.latest == outcome.body
    ensures outcome.Ok? ==> component.State() == Emitted(old(component.State()), outcome.body)
    ensures outcome.Failed? ==> service.latest == old(service.latest) && component.State() == old(component.State())
    ensures service.toastr.shown == old(service.toastr.shown) +
      (if outcome.Ok? then [] else [Toast(Error, "Error while retrieving books", "Error")])
  {
    var _ := service.GetAllBooks(request.page, request.genre, outcome);
    if outcome.Ok? {
      component.OnNext(service.latest);
    }
  }

  /** Mounting the component on a fresh catalog and serving the initial
      request: the list is exactly the first page and `meta` is its
      metadata. */
  method MountAndLoadFirstPage(service: BooksService, page1: Response) returns (component: BookListComponent)
    requires service.latest == InitialResponse()
    modifies service, service.toastr
    ensures fresh(component)
    ensures component.State() == ListState(Some(page1.data), page1.meta, false, 1)
    ensures service.latest == page1
    ensures service.toastr.shown == old(service.toastr.shown)
  {
    component := new BookListComponent();
    var request := component.NgOnInit(service);
    assert component.State() == ListState(Some([]), None, false, 1);
    assert request == PageRequest(1, Some(""));
    Deliver(service, component, request, Ok(page1));
    assert [] + page1.data == page1.data;
  }
}

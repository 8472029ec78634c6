/**
 * The search-request lifecycle of the friend-search widget as functions of
 * its state: a search event, the arrival of a query's response, and a click
 * on a displayed item. Each returns the new state and the side effects
 * (queries issued, callbacks invoked) in order.
 */
module Lifecycle {
  import opened JsValues
  import opened Settings

  /** One list item: the template's markup and the friend record stored on it with `.data('user', ...)`. */
  datatype Item = Item(markup: Markup, user: Record)

  /** The values substituted into the friend-query template: the lower-cased search text and the result limit. */
  datatype FqlParams = FqlParams(name: string, limit: int)

  /** A query handed to the remote API, with the request id its response callback captured. */
  datatype Call = Call(requestId: Num, query: FqlParams)

  /** The `error_code` field of an error payload: only a string one is recognised as an error. */
  datatype ErrorCode = CodeString(text: string) | CodeNumber(number: int)

  datatype ErrorPayload = ErrorPayload(errorCode: ErrorCode, errorMsg: string)

  /** What the remote API delivers to a response callback. */
  datatype Response = Rows(rows: seq<Record>) | Error(payload: ErrorPayload)

  /** Side effects on the world outside the widget. */
  datatype Effect =
    | QueryIssued(query: FqlParams)
    | ErrorCallbackCalled(callback: string, payload: ErrorPayload)
    | ErrorCallbackThrew(payload: ErrorPayload)   // a truthy `errorCallback` that is not a function: TypeError
    | UserSelectCalled(callback: string, user: Record)

  /**
   * The widget's state: the request counter, the `state-searching` and
   * `state-empty` flags, the displayed items, every query issued so far
   * (its index is its ticket) and the tickets whose response has not arrived.
   */
  datatype State = State(
    currentRequest: Num,
    searching: bool,
    empty: bool,
    items: seq<Item>,
    calls: seq<Call>,
    pending: set<nat>)

  datatype Outcome = Outcome(state: State, effects: seq<Effect>)

  /** What the user sees. */
  datatype View = View(searching: bool, empty: bool, items: seq<Item>)

  function Shown(s: State): View
  {
    View(s.searching, s.empty, s.items)
  }

  /** Right after construction: marked empty, not searching, nothing displayed, no query issued. */
  function Initial(counter: Num): State
  {
    State(counter, false, true, [], [], {})
  }

  /** `s` with its elements in the opposite order, last one first. */
  function Reverse<T>(s: seq<T>): seq<T>
  {
    if |s| == 0 then [] else [s[|s| - 1]] + Reverse(s[..|s| - 1])
  }

  lemma {:induction false} ReverseAt<T>(s: seq<T>, k: nat)
    requires k < |s|
    ensures |Reverse(s)| == |s|
    ensures Reverse(s)[k] == s[|s| - 1 - k]
  {
    if k > 0 {
      ReverseAt(s[..|s| - 1], k - 1);
    } else if |s| > 1 {
      ReverseAt(s[..|s| - 1], 0);
    }
  }

  function ItemFor(template: Record -> Markup, user: Record): Item
  {
    Item(template(user), user)
  }

  /** One item per record, in the records' order. */
  function Render(users: seq<Record>, template: Record -> Markup): seq<Item>
  {
    seq(|users|, k requires 0 <= k < |users| => ItemFor(template, users[k]))
  }

  /** Any list that holds, at each position k, the item for the k-th record from the end is the rendering of the reversed records. */
  lemma RenderReversed(rows: seq<Record>, template: Record -> Markup, list: seq<Item>)
    requires |list| == |rows|
    requires forall k :: 0 <= k < |list| ==> list[k] == ItemFor(template, rows[|rows| - 1 - k])
    ensures list == Render(Reverse(rows), template)
  {
    if |rows| > 0 {
      ReverseAt(rows, 0);
    }
    var rendered := Render(Reverse(rows), template);
    assert |rendered| == |list|;
    forall k | 0 <= k < |list|
      ensures list[k] == rendered[k]
    {
      ReverseAt(rows, k);
    }
  }

  /** `onSearch(str)`: count the request, then either clear the list or start searching and issue one query. */
  function Search(s: State, opts: Options, str: string): (o: Outcome)
    ensures o.state.currentRequest == Inc(s.currentRequest)
    ensures o.effects == [] <==> str == ""
    ensures |o.state.calls| == |s.calls| + (if str == "" then 0 else 1)
    ensures o.state.calls[..|s.calls|] == s.calls
    ensures str == "" ==> o.state.pending == s.pending && o.state.items == []
  {
    var query := FqlParams(Lower(str), opts.userLimit);
    var thisRequest := Inc(s.currentRequest);
    if |str| == 0 then
      Outcome(s.(currentRequest := thisRequest, items := [], empty := true), [])
    else
      Outcome(
        s.(currentRequest := thisRequest, searching := true,
           calls := s.calls + [Call(thisRequest, query)],
           pending := s.pending + {|s.calls|}),
        [QueryIssued(query)])
  }

  /** The guard of the response callback: the captured id is still the counter's value. */
  predicate Accepts(s: State, ticket: nat)
    requires ticket < |s.calls|
    ensures Accepts(s, ticket) <==> s.currentRequest != NaN && s.calls[ticket].requestId == s.currentRequest
  {
    StrictEquals(s.currentRequest, s.calls[ticket].requestId)
  }

  /** `typeof response.error_code === 'string'`. */
  predicate IsReportedError(r: Response)
  {
    r.Error? && r.payload.errorCode.CodeString?
  }

  /** The response as an array: an error payload has no `length`, so it reads as no rows. */
  function RowsOf(r: Response): seq<Record>
  {
    if r.Rows? then r.rows else []
  }

  function ErrorEffects(callback: Hook, payload: ErrorPayload): seq<Effect>
  {
    match callback
    case Function(name) => [ErrorCallbackCalled(name, payload)]
    case OtherTruthy => [ErrorCallbackThrew(payload)]
    case Falsy => []
  }

  /** The response callback of query `ticket`, run when its response arrives. */
  function Deliver(s: State, opts: Options, ticket: nat, r: Response): (o: Outcome)
    requires ticket in s.pending && ticket < |s.calls|
    ensures o.state.currentRequest == s.currentRequest && o.state.calls == s.calls
    ensures o.state.pending == s.pending - {ticket}
    ensures !Accepts(s, ticket) ==> Shown(o.state) == Shown(s) && o.effects == []
    ensures |o.effects| <= 1
    ensures o.effects != [] ==> IsReportedError(r)
  {
    var arrived := s.(pending := s.pending - {ticket});
    if !Accepts(s, ticket) then
      Outcome(arrived, [])
    else if IsReportedError(r) then
      Outcome(arrived, ErrorEffects(opts.errorCallback, r.payload))
    else if |RowsOf(r)| > 0 then
      Outcome(arrived.(searching := false, empty := false,
                       items := Render(Reverse(RowsOf(r)), opts.userTemplate)), [])
    else
      Outcome(arrived.(searching := false, empty := true), [])
  }

  /** A click on displayed item `k`: the selection callback if it is a function, then close the list if asked. */
  function Click(s: State, opts: Options, k: nat): (o: Outcome)
    requires k < |s.items|
    ensures o.state.(items := s.items) == s
    ensures o.state.items == [] || o.state.items == s.items
    ensures |o.effects| <= 1
  {
    var effects := if opts.onUserSelect.Function? then [UserSelectCalled(opts.onUserSelect.name, s.items[k].user)] else [];
    Outcome(if opts.autoclose then s.(items := []) else s, effects)
  }

  /** `a` is an integer not above `b`. */
  predicate AtMost(a: Num, b: Num)
  {
    a.Int? && b.Int? && a.value <= b.value
  }

  /** `a` and `b` are integers and `a` is below `b`. */
  predicate Below(a: Num, b: Num)
  {
    a.Int? && b.Int? && a.value < b.value
  }

  /**
   * What every reachable state satisfies. Pending tickets name issued
   * queries. With an integer counter, the captured ids are integers, strictly
   * increasing in issue order and none above the counter; otherwise every
   * captured id is NaN.
   */
  ghost predicate Inv(s: State)
  {
    (forall t :: t in s.pending ==> t < |s.calls|) &&
    if s.currentRequest.Int? then
      (forall i :: 0 <= i < |s.calls| ==> AtMost(s.calls[i].requestId, s.currentRequest)) &&
      (forall i, j :: 0 <= i < j < |s.calls| ==> Below(s.calls[i].requestId, s.calls[j].requestId))
    else
      forall i :: 0 <= i < |s.calls| ==> s.calls[i].requestId == NaN
  }

  lemma InitialInv(counter: Num)
    ensures Inv(Initial(counter))
  {
  }

  lemma SearchPreservesInv(s: State, opts: Options, str: string)
    requires Inv(s)
    ensures Inv(Search(s, opts, str).state)
  {
  }

  lemma DeliverPreservesInv(s: State, opts: Options, ticket: nat, r: Response)
    requires Inv(s) && ticket in s.pending && ticket < |s.calls|
    ensures Inv(Deliver(s, opts, ticket, r).state)
  {
  }

  lemma ClickPreservesInv(s: State, opts: Options, k: nat)
    requires Inv(s) && k < |s.items|
    ensures Inv(Click(s, opts, k).state)
  {
  }

  // ---- single events ----

  /** Every search counts, the empty one too, and never touches the queries already issued. */
  lemma SearchCounts(s: State, opts: Options, str: string)
    ensures var o := Search(s, opts, str);
            o.state.currentRequest == Inc(s.currentRequest) &&
            |o.state.calls| >= |s.calls| && o.state.calls[..|s.calls|] == s.calls
  {
  }

  /** An empty search clears the list and marks it empty, issues no query and leaves the searching flag alone. */
  lemma EmptySearch(s: State, opts: Options)
    ensures var o := Search(s, opts, "");
            Shown(o.state) == View(s.searching, true, []) &&
            o.effects == [] && o.state.calls == s.calls && o.state.pending == s.pending
  {
  }

  /** A non-empty search sets the searching flag and issues exactly one query, for the lower-cased text and the limit option. */
  lemma NonEmptySearch(s: State, opts: Options, str: string)
    requires str != ""
    ensures var o := Search(s, opts, str);
            var query := FqlParams(Lower(str), opts.userLimit);
            Shown(o.state) == View(true, s.empty, s.items) &&
            o.effects == [QueryIssued(query)] &&
            o.state.calls == s.calls + [Call(o.state.currentRequest, query)] &&
            o.state.pending == s.pending + {|s.calls|}
  {
  }

  /** A response whose query has been superseded changes nothing but its own pending mark, and calls no callback. */
  lemma StaleResponseIgnored(s: State, opts: Options, ticket: nat, r: Response)
    requires ticket in s.pending && ticket < |s.calls| && !Accepts(s, ticket)
    ensures Deliver(s, opts, ticket, r) == Outcome(s.(pending := s.pending - {ticket}), [])
  {
  }

  /** A current error response calls `errorCallback` once with the payload when it is a function, and leaves the view as it was. */
  lemma CurrentErrorResponse(s: State, opts: Options, ticket: nat, payload: ErrorPayload)
    requires ticket in s.pending && ticket < |s.calls| && Accepts(s, ticket)
    requires payload.errorCode.CodeString?
    ensures var o := Deliver(s, opts, ticket, Error(payload));
            Shown(o.state) == Shown(s) &&
            o.state.currentRequest == s.currentRequest && o.state.calls == s.calls &&
            o.state.pending == s.pending - {ticket} &&
            (opts.errorCallback.Function? ==> o.effects == [ErrorCallbackCalled(opts.errorCallback.name, payload)]) &&
            (opts.errorCallback == Falsy ==> o.effects == []) &&
            |o.effects| <= 1
  {
  }

  /**
   * A current non-empty response clears both flags and displays one item per
   * row, in reverse: item k carries the row k places from the end.
   */
  lemma CurrentRowsResponse(s: State, opts: Options, ticket: nat, rows: seq<Record>)
    requires ticket in s.pending && ticket < |s.calls| && Accepts(s, ticket)
    requires |rows| > 0
    ensures var o := Deliver(s, opts, ticket, Rows(rows));
            !o.state.searching && !o.state.empty && o.effects == [] &&
            o.state.currentRequest == s.currentRequest && o.state.calls == s.calls &&
            o.state.pending == s.pending - {ticket} &&
            |o.state.items| == |rows| &&
            forall k :: 0 <= k < |rows| ==>
              o.state.items[k] == Item(opts.userTemplate(rows[|rows| - 1 - k]), rows[|rows| - 1 - k])
  {
    var items := Deliver(s, opts, ticket, Rows(rows)).state.items;
    ReverseAt(rows, 0);
    forall k | 0 <= k < |rows|
      ensures items[k] == Item(opts.userTemplate(rows[|rows| - 1 - k]), rows[|rows| - 1 - k])
    {
      ReverseAt(rows, k);
    }
  }

  /** Two friends returned as Bob then Ann are displayed as Ann then Bob. */
  lemma TwoRowsDisplayedReversed(s: State, opts: Options, ticket: nat, bob: Record, ann: Record)
    requires ticket in s.pending && ticket < |s.calls| && Accepts(s, ticket)
    ensures var o := Deliver(s, opts, ticket, Rows([bob, ann]));
            o.state.items == [ItemFor(opts.userTemplate, ann), ItemFor(opts.userTemplate, bob)]
  {
    CurrentRowsResponse(s, opts, ticket, [bob, ann]);
  }

  /**
   * A current response with no rows (or an error payload whose code is not a
   * string) clears the searching flag and marks the list empty, but leaves
   * the previously displayed items in place.
   */
  lemma CurrentEmptyResponse(s: State, opts: Options, ticket: nat, r: Response)
    requires ticket in s.pending && ticket < |s.calls| && Accepts(s, ticket)
    requires !IsReportedError(r) && RowsOf(r) == []
    ensures var o := Deliver(s, opts, ticket, r);
            Shown(o.state) == View(false, true, s.items) && o.effects == [] &&
            o.state.currentRequest == s.currentRequest && o.state.calls == s.calls &&
            o.state.pending == s.pending - {ticket}
  {
  }

  /**
   * A click passes the clicked item's record to `onUserSelect` only when that
   * option is a function; with `autoclose` the list is emptied afterwards,
   * otherwise it stays. The flags are untouched either way.
   */
  lemma ClickItem(s: State, opts: Options, k: nat)
    requires k < |s.items|
    ensures var o := Click(s, opts, k);
            o.state.(items := s.items) == s &&
            o.state.items == (if opts.autoclose then [] else s.items) &&
            (opts.onUserSelect.Function? ==> o.effects == [UserSelectCalled(opts.onUserSelect.name, s.items[k].user)]) &&
            (!opts.onUserSelect.Function? ==> o.effects == [])
  {
  }

  // ---- latest request wins ----

  /**
   * In a reachable state the guard lets a response through exactly when its
   * query is the last one issued, the counter is an integer, and no search
   * (not even an empty one) has happened since.
   */
  lemma LatestWins(s: State, ticket: nat)
    requires Inv(s) && ticket < |s.calls|
    ensures Accepts(s, ticket) <==>
            s.currentRequest.Int? && ticket == |s.calls| - 1 && s.calls[ticket].requestId == s.currentRequest
  {
    if s.currentRequest.Int? && ticket < |s.calls| - 1 {
      var last := |s.calls| - 1;
      assert Below(s.calls[ticket].requestId, s.calls[last].requestId);
      assert AtMost(s.calls[last].requestId, s.currentRequest);
    }
  }

  /** Any search, empty or not, supersedes every query issued before it. */
  lemma SearchSupersedes(s: State, opts: Options, str: string, ticket: nat)
    requires Inv(s) && ticket < |s.calls|
    ensures ticket < |Search(s, opts, str).state.calls|
    ensures !Accepts(Search(s, opts, str).state, ticket)
  {
    if s.currentRequest.Int? {
      assert AtMost(s.calls[ticket].requestId, s.currentRequest);
    }
  }
}

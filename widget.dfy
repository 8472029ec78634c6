/**
 * The `FBFS` object: its counter, its two state classes and its displayed
 * list are fields that the event handlers update in place. Each handler is
 * proved to move the object's state exactly as the corresponding function of
 * the lifecycle module does, and to log the same side effects.
 */
module Widget {
  import opened JsValues
  import opened Settings
  import opened Lifecycle

  class Fbfs {
    const options: Options
    var currentRequest: Num
    var searching: bool      // the `state-searching` class on the widget's element
    var empty: bool          // the `state-empty` class on the friends list
    var items: seq<Item>     // the `li` children of the displayed friends list
    ghost var calls: seq<Call>      // every query handed to the remote API, indexed by ticket
    ghost var pending: set<nat>     // tickets whose response callback has not run yet
    ghost var log: seq<Effect>      // queries issued and callbacks invoked, in order

    ghost function Snapshot(): State
      reads this
    {
      State(currentRequest, searching, empty, items, calls, pending)
    }

    ghost predicate Valid()
      reads this
    {
      Inv(Snapshot())
    }

    /** The constructor as written: `current_request` is never assigned, so it stays `undefined`. */
    constructor (userOptions: UserOptions)
      ensures Valid() && Snapshot() == Initial(Undefined) && log == []
      ensures options == MergeOptions(userOptions)
    {
      options := MergeOptions(userOptions);
      currentRequest := Undefined;
      searching := false;
      empty := true;
      items := [];
      calls, pending, log := [], {}, [];
      InitialInv(Undefined);
    }

    /** The constructor with the counter the guard is written for, starting at 0. */
    constructor WithCounter(userOptions: UserOptions)
      ensures Valid() && Snapshot() == Initial(Int(0)) && log == []
      ensures options == MergeOptions(userOptions)
    {
      options := MergeOptions(userOptions);
      currentRequest := Int(0);
      searching := false;
      empty := true;
      items := [];
      calls, pending, log := [], {}, [];
      InitialInv(Int(0));
    }

    /**
     * `onSearch(str)`. When a query is issued, `issued` is what is handed to
     * the remote API: the query and the request id its callback captured.
     */
    method OnSearch(str: string) returns (issued: Option<Call>)
      requires Valid()
      modifies this
      ensures Valid()
      ensures var o := Search(old(Snapshot()), options, str);
              Snapshot() == o.state && log == old(log) + o.effects
      ensures issued.Some? <==> str != ""
      ensures issued.Some? ==> calls == old(calls) + [issued.value]
    {
      ghost var before := Snapshot();
      SearchPreservesInv(before, options, str);
      var query := FqlParams(Lower(str), options.userLimit);
      currentRequest := Inc(currentRequest);
      var thisRequest := currentRequest;
      if |str| == 0 {
        items := [];
        empty := true;
        issued := None;
        return;
      }
      searching := true;
      var call := Call(thisRequest, query);
      pending := pending + {|calls|};
      calls := calls + [call];
      log := log + [QueryIssued(query)];
      issued := Some(call);
    }

    /**
     * The response callback of the query with ticket `ticket`, which captured
     * `thisRequest`, run when `response` arrives.
     */
    method OnResponse(ghost ticket: nat, thisRequest: Num, response: Response)
      requires Valid() && ticket in pending && ticket < |calls| && calls[ticket].requestId == thisRequest
      modifies this
      ensures Valid()
      ensures var o := Deliver(old(Snapshot()), options, ticket, response);
              Snapshot() == o.state && log == old(log) + o.effects
    {
      ghost var before := Snapshot();
      DeliverPreservesInv(before, options, ticket, response);
      pending := pending - {ticket};
      if !StrictEquals(currentRequest, thisRequest) {
        return;
      }
      if response.Error? && response.payload.errorCode.CodeString? {
        match options.errorCallback {
          case Function(name) => log := log + [ErrorCallbackCalled(name, response.payload)];
          case OtherTruthy => log := log + [ErrorCallbackThrew(response.payload)];
          case Falsy =>
        }
        return;
      }
      searching := false;
      var rows := if response.Rows? then response.rows else [];
      if |rows| > 0 {
        empty := false;
        var list: seq<Item> := [];
        var i := |rows| - 1;
        while i >= 0
          invariant -1 <= i < |rows|
          invariant |list| == |rows| - 1 - i
          invariant forall k :: 0 <= k < |list| ==> list[k] == ItemFor(options.userTemplate, rows[|rows| - 1 - k])
        {
          list := list + [ItemFor(options.userTemplate, rows[i])];
          i := i - 1;
        }
        RenderReversed(rows, options.userTemplate, list);
        items := list;
      } else {
        empty := true;
      }
    }

    /** A click on displayed item `k`. */
    method OnItemClick(k: nat)
      requires Valid() && k < |items|
      modifies this
      ensures Valid()
      ensures var o := Click(old(Snapshot()), options, k);
              Snapshot() == o.state && log == old(log) + o.effects
    {
      ghost var before := Snapshot();
      ClickPreservesInv(before, options, k);
      var callback := options.onUserSelect;
      if callback.Function? {
        log := log + [UserSelectCalled(callback.name, items[k].user)];
      }
      if options.autoclose {
        items := [];
      }
    }
  }

  /**
   * Two searches whose responses arrive in the opposite order, on a widget
   * whose counter starts at 0: the late first response is discarded and the
   * second one is displayed, last row first.
   */
  method LatestSearchWins(bob: Record, ann: Record, stale: Response) returns (shown: seq<Record>)
    ensures shown == [ann, bob]
  {
    var widget := new Fbfs.WithCounter(NoUserOptions);
    var first := widget.OnSearch("b");
    var second := widget.OnSearch("bo");
    TwoRowsDisplayedReversed(widget.Snapshot(), widget.options, 1, bob, ann);
    widget.OnResponse(1, second.value.requestId, Rows([bob, ann]));
    widget.OnResponse(0, first.value.requestId, stale);
    shown := [widget.items[0].user, widget.items[1].user];
  }

  /** The same exchange on a widget built as written displays nothing. */
  method AsWrittenShowsNoResult(bob: Record, ann: Record) returns (count: nat)
    ensures count == 0
  {
    var widget := new Fbfs(NoUserOptions);
    var first := widget.OnSearch("b");
    widget.OnResponse(0, first.value.requestId, Rows([bob, ann]));
    count := |widget.items|;
  }
}

/**
 * Sequences of discrete events: keystrokes (or the clear button, which is an
 * empty search), responses delivered in any order under the ticket of the
 * query they answer, and clicks. Each runs to completion before the next,
 * as on the browser's event loop.
 */
module Traces {
  import opened JsValues
  import opened Settings
  import opened Lifecycle

  datatype Event = Typed(text: string) | Arrived(ticket: nat, response: Response) | Clicked(index: nat)

  /** A response arrives only for a query still awaiting one; a click hits only a displayed item. */
  predicate Enabled(s: State, e: Event)
  {
    match e
    case Typed(_) => true
    case Arrived(t, _) => t in s.pending && t < |s.calls|
    case Clicked(k) => k < |s.items|
  }

  /** One event; an event that cannot happen in `s` leaves it as it is. */
  function Step(s: State, opts: Options, e: Event): Outcome
  {
    if !Enabled(s, e) then Outcome(s, [])
    else match e
      case Typed(text) => Search(s, opts, text)
      case Arrived(t, r) => Deliver(s, opts, t, r)
      case Clicked(k) => Click(s, opts, k)
  }

  /** The events in order, with all their side effects in order. */
  function Run(s: State, opts: Options, events: seq<Event>): Outcome
    decreases |events|
  {
    if events == [] then Outcome(s, [])
    else
      var first := Step(s, opts, events[0]);
      var rest := Run(first.state, opts, events[1..]);
      Outcome(rest.state, first.effects + rest.effects)
  }

  /** The number of searches among the events. */
  function Searches(events: seq<Event>): nat
  {
    if events == [] then 0 else (if events[0].Typed? then 1 else 0) + Searches(events[1..])
  }

  lemma StepPreservesInv(s: State, opts: Options, e: Event)
    requires Inv(s)
    ensures Inv(Step(s, opts, e).state)
  {
    if Enabled(s, e) {
      match e
      case Typed(text) => SearchPreservesInv(s, opts, text);
      case Arrived(t, r) => DeliverPreservesInv(s, opts, t, r);
      case Clicked(k) => ClickPreservesInv(s, opts, k);
    }
  }

  /** No sequence of events leaves the reachable states. */
  lemma {:induction false} RunPreservesInv(s: State, opts: Options, events: seq<Event>)
    requires Inv(s)
    ensures Inv(Run(s, opts, events).state)
    decreases |events|
  {
    if events != [] {
      StepPreservesInv(s, opts, events[0]);
      RunPreservesInv(Step(s, opts, events[0]).state, opts, events[1..]);
    }
  }

  /**
   * The counter goes up by exactly one per search, whatever else happens, so
   * an integer counter is strictly increasing and never reuses an id.
   */
  lemma {:induction false} CounterCountsSearches(s: State, opts: Options, events: seq<Event>)
    requires s.currentRequest.Int?
    ensures Run(s, opts, events).state.currentRequest == Int(s.currentRequest.value + Searches(events))
    decreases |events|
  {
    if events != [] {
      var next := Step(s, opts, events[0]).state;
      assert next.currentRequest == (if events[0].Typed? then Int(s.currentRequest.value + 1) else s.currentRequest);
      CounterCountsSearches(next, opts, events[1..]);
    }
  }

  /** Issued queries are never forgotten or altered. */
  lemma {:induction false} RunKeepsCalls(s: State, opts: Options, events: seq<Event>)
    ensures |Run(s, opts, events).state.calls| >= |s.calls|
    ensures Run(s, opts, events).state.calls[..|s.calls|] == s.calls
    decreases |events|
  {
    if events != [] {
      var next := Step(s, opts, events[0]).state;
      assert |next.calls| >= |s.calls| && next.calls[..|s.calls|] == s.calls;
      RunKeepsCalls(next, opts, events[1..]);
      var final := Run(s, opts, events).state.calls;
      assert final[..|next.calls|] == next.calls;
      assert final[..|s.calls|] == final[..|next.calls|][..|s.calls|];
    }
  }

  lemma StepKeepsStale(s: State, opts: Options, e: Event, ticket: nat)
    requires Inv(s) && ticket < |s.calls| && !Accepts(s, ticket)
    ensures var next := Step(s, opts, e).state;
            ticket < |next.calls| && next.calls[ticket] == s.calls[ticket] && !Accepts(next, ticket)
  {
    if Enabled(s, e) && e.Typed? && s.currentRequest.Int? {
      assert AtMost(s.calls[ticket].requestId, s.currentRequest);
    }
  }

  /** Once the guard rejects a query's response, it rejects it in every later state. */
  lemma {:induction false} StaleStaysStale(s: State, opts: Options, events: seq<Event>, ticket: nat)
    requires Inv(s) && ticket < |s.calls| && !Accepts(s, ticket)
    ensures ticket < |Run(s, opts, events).state.calls|
    ensures !Accepts(Run(s, opts, events).state, ticket)
    decreases |events|
  {
    if events != [] {
      StepPreservesInv(s, opts, events[0]);
      StepKeepsStale(s, opts, events[0], ticket);
      StaleStaysStale(Step(s, opts, events[0]).state, opts, events[1..], ticket);
    }
  }

  /**
   * A query outstanding when the user searches again can never affect the
   * widget afterwards: whenever its response arrives, it is discarded with
   * no effect at all, not even the error callback.
   */
  lemma SupersededNeverApplies(s: State, opts: Options, str: string, events: seq<Event>, ticket: nat, r: Response)
    requires Inv(s) && ticket < |s.calls|
    ensures var later := Run(Search(s, opts, str).state, opts, events).state;
            ticket < |later.calls| &&
            (ticket in later.pending ==>
               Deliver(later, opts, ticket, r) == Outcome(later.(pending := later.pending - {ticket}), []))
  {
    var after := Search(s, opts, str).state;
    SearchPreservesInv(s, opts, str);
    SearchSupersedes(s, opts, str, ticket);
    StaleStaysStale(after, opts, events, ticket);
  }

  /** Running one event is stepping it. */
  lemma RunOne(s: State, opts: Options, e: Event)
    ensures Run(s, opts, [e]) == Step(s, opts, e)
  {
    assert [e][1..] == [];
  }

  /** Running `e` then `rest` is stepping `e` and running `rest` from there. */
  lemma RunFirst(s: State, opts: Options, e: Event, rest: seq<Event>)
    ensures var first := Step(s, opts, e);
            var after := Run(first.state, opts, rest);
            Run(s, opts, [e] + rest) == Outcome(after.state, first.effects + after.effects)
  {
    assert ([e] + rest)[1..] == rest;
  }

  /**
   * Two searches, then the second one's response, then the first one's: the
   * late first response changes nothing the user sees and calls nothing, so
   * whatever the second response left shown stays shown. With an integer
   * counter that is the second response itself: its rows, last one first.
   */
  lemma OutOfOrderArrival(s: State, opts: Options, first: string, second: string, r1: Response, r2: Response)
    requires Inv(s) && first != "" && second != ""
    ensures var t1, t2 := |s.calls|, |s.calls| + 1;
            var three := Run(s, opts, [Typed(first), Typed(second), Arrived(t2, r2)]);
            var four := Run(s, opts, [Typed(first), Typed(second), Arrived(t2, r2), Arrived(t1, r1)]);
            Shown(four.state) == Shown(three.state) && four.effects == three.effects &&
            (s.currentRequest.Int? && !IsReportedError(r2) && |RowsOf(r2)| > 0 ==>
               Shown(four.state) == View(false, false, Render(Reverse(RowsOf(r2)), opts.userTemplate)))
  {
    var t1, t2 := |s.calls|, |s.calls| + 1;
    var o1 := Search(s, opts, first);
    var o2 := Search(o1.state, opts, second);
    SearchPreservesInv(s, opts, first);
    SearchSupersedes(o1.state, opts, second, t1);
    var o3 := Deliver(o2.state, opts, t2, r2);
    var s3 := o3.state;
    assert s.currentRequest.Int? ==> Accepts(o2.state, t2);
    assert s3.calls == o2.state.calls && s3.currentRequest == o2.state.currentRequest;
    assert t1 in s3.pending;
    var o4 := Outcome(s3.(pending := s3.pending - {t1}), []);
    assert Step(s3, opts, Arrived(t1, r1)) == o4;

    RunOne(o2.state, opts, Arrived(t2, r2));
    RunFirst(o1.state, opts, Typed(second), [Arrived(t2, r2)]);
    RunFirst(s, opts, Typed(first), [Typed(second), Arrived(t2, r2)]);
    var three := Run(s, opts, [Typed(first), Typed(second), Arrived(t2, r2)]);
    assert three == Outcome(s3, o1.effects + (o2.effects + o3.effects));

    RunOne(s3, opts, Arrived(t1, r1));
    RunFirst(o2.state, opts, Arrived(t2, r2), [Arrived(t1, r1)]);
    RunFirst(o1.state, opts, Typed(second), [Arrived(t2, r2), Arrived(t1, r1)]);
    RunFirst(s, opts, Typed(first), [Typed(second), Arrived(t2, r2), Arrived(t1, r1)]);
    var four := Run(s, opts, [Typed(first), Typed(second), Arrived(t2, r2), Arrived(t1, r1)]);
    assert four == Outcome(o4.state, o1.effects + (o2.effects + (o3.effects + [])));
  }

  /**
   * Typing, then clearing the field before the response comes back: the list
   * is cleared and marked empty at once, and because the response is stale
   * by then, the searching flag is never cleared.
   */
  lemma ClearedWhileSearching(s: State, opts: Options, str: string, r: Response)
    requires Inv(s) && str != ""
    ensures var o := Run(s, opts, [Typed(str), Typed(""), Arrived(|s.calls|, r)]);
            Shown(o.state) == View(true, true, []) &&
            o.effects == [QueryIssued(FqlParams(Lower(str), opts.userLimit))]
  {
    var t := |s.calls|;
    var o1 := Search(s, opts, str);
    var o2 := Search(o1.state, opts, "");
    SearchPreservesInv(s, opts, str);
    SearchSupersedes(o1.state, opts, "", t);
    var o3 := Outcome(o2.state.(pending := o2.state.pending - {t}), []);
    assert Step(o2.state, opts, Arrived(t, r)) == o3;
    RunOne(o2.state, opts, Arrived(t, r));
    RunFirst(o1.state, opts, Typed(""), [Arrived(t, r)]);
    RunFirst(s, opts, Typed(str), [Typed(""), Arrived(t, r)]);
    assert Run(s, opts, [Typed(str), Typed(""), Arrived(t, r)]) == Outcome(o3.state, o1.effects + ([] + []));
  }

  // ---- the counter as written ----

  /** Nothing displayed, marked empty, and a counter that can never match a captured id. */
  ghost predicate Blank(s: State)
  {
    !s.currentRequest.Int? && s.items == [] && s.empty &&
    forall i :: 0 <= i < |s.calls| ==> s.calls[i].requestId == NaN
  }

  predicate OnlyQueries(effects: seq<Effect>)
  {
    forall e :: e in effects ==> e.QueryIssued?
  }

  lemma {:induction false} BlankStaysBlank(s: State, opts: Options, events: seq<Event>)
    requires Blank(s)
    ensures Blank(Run(s, opts, events).state)
    ensures OnlyQueries(Run(s, opts, events).effects)
    decreases |events|
  {
    if events != [] {
      var first := Step(s, opts, events[0]);
      assert Blank(first.state) && OnlyQueries(first.effects);
      BlankStaysBlank(first.state, opts, events[1..]);
    }
  }

  /**
   * With the counter left `undefined`, as the constructor leaves it, no
   * sequence of events ever displays a result or calls either callback:
   * every response is discarded by the guard.
   */
  lemma AsWrittenShowsNothing(opts: Options, events: seq<Event>)
    ensures var o := Run(Initial(Undefined), opts, events);
            o.state.items == [] && o.state.empty && OnlyQueries(o.effects)
  {
    BlankStaysBlank(Initial(Undefined), opts, events);
  }

  /**
   * One search and its one-row response: with the counter as written
   * nothing is displayed, with a counter starting at 0 the row is.
   */
  lemma AsWrittenDropsResponse(opts: Options, user: Record)
    ensures Run(Initial(Undefined), opts, [Typed("a"), Arrived(0, Rows([user]))]).state.items == []
    ensures Run(Initial(Int(0)), opts, [Typed("a"), Arrived(0, Rows([user]))]).state.items == [ItemFor(opts.userTemplate, user)]
  {
    AsWrittenShowsNothing(opts, [Typed("a"), Arrived(0, Rows([user]))]);
    var s1 := Search(Initial(Int(0)), opts, "a").state;
    assert 0 in s1.pending && Accepts(s1, 0);
    CurrentRowsResponse(s1, opts, 0, [user]);
    RunOne(s1, opts, Arrived(0, Rows([user])));
    RunFirst(Initial(Int(0)), opts, Typed("a"), [Arrived(0, Rows([user]))]);
  }
}

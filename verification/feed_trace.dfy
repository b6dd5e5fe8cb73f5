/**
 Runs of the feed controller over sequences of events, and the pagination
 guarantees they keep: the requested pages form one contiguous ascending
 range, successful pages are concatenated in order, and a failed request
 stalls the controller for good.
 */
module FeedTrace {
  import opened Feed

  datatype Run<P> = Run(final: State<P>, effects: seq<Effect>)

  /** Feed the events to the controller one after the other. */
  function RunEvents<P>(s: State<P>, es: seq<Event<P>>): (r: Run<P>)
    ensures |r.effects| == |es|
    decreases |es|
  {
    if es == [] then Run(s, [])
    else
      var t := Step(s, es[0]);
      var rest := RunEvents(t.next, es[1..]);
      Run(rest.final, [t.effect] + rest.effects)
  }

  /** The page numbers of the requests among `effects`, in issue order. */
  function Requested(effects: seq<Effect>): seq<int> {
    if effects == [] then []
    else (if effects[0].Get? then [effects[0].page] else []) + Requested(effects[1..])
  }

  /** The ascending run of integers lo, lo+1, ..., hi-1. */
  function Range(lo: int, hi: int): (r: seq<int>)
    ensures |r| == if lo <= hi then hi - lo else 0
    ensures forall i :: 0 <= i < |r| ==> r[i] == lo + i
    decreases hi - lo
  {
    if lo >= hi then [] else [lo] + Range(lo + 1, hi)
  }

  /** Every event is one that can actually occur where it arrives. */
  predicate ValidTrace<P>(s: State<P>, es: seq<Event<P>>)
    decreases |es|
  {
    es == [] || (Enabled(s, es[0]) && ValidTrace(Step(s, es[0]).next, es[1..]))
  }

  /** The pages carried by the successful responses among `es`, in order. */
  function OkPages<P>(es: seq<Event<P>>): seq<seq<P>> {
    if es == [] then []
    else (if es[0].FetchOk? then [es[0].page] else []) + OkPages(es[1..])
  }

  /** The concatenation of `pages`, in order. */
  function Flatten<P>(pages: seq<seq<P>>): seq<P> {
    if pages == [] then [] else pages[0] + Flatten(pages[1..])
  }

  /** The page each successful response that takes effect answers, that is,
      the page of the request outstanding when it arrives, in arrival order. */
  function Answered<P>(s: State<P>, es: seq<Event<P>>): seq<int>
    decreases |es|
  {
    if es == [] then []
    else
      (if es[0].FetchOk? && s.task.AwaitResponse? then [s.task.page] else [])
      + Answered(Step(s, es[0]).next, es[1..])
  }

  lemma {:induction false} RunPreservesInv<P>(s: State<P>, es: seq<Event<P>>)
    requires Inv(s)
    ensures Inv(RunEvents(s, es).final)
    decreases |es|
  {
    if es != [] {
      StepPreservesInv(s, es[0]);
      RunPreservesInv(Step(s, es[0]).next, es[1..]);
    }
  }

  /** Along any run the requested pages are exactly Floor(s), Floor(s)+1, ...,
      up to the final state's floor: ascending, without gaps, none twice. */
  lemma {:induction false} RequestsAreContiguous<P>(s: State<P>, es: seq<Event<P>>)
    requires Inv(s)
    ensures Floor(s) <= Floor(RunEvents(s, es).final)
    ensures Requested(RunEvents(s, es).effects) == Range(Floor(s), Floor(RunEvents(s, es).final))
    decreases |es|
  {
    if es != [] {
      var t := Step(s, es[0]);
      StepPreservesInv(s, es[0]);
      StepMonotone(s, es[0]);
      RequestsAreContiguous(t.next, es[1..]);
      var rest := RunEvents(t.next, es[1..]);
      assert RunEvents(s, es).effects == [t.effect] + rest.effects;
      assert ([t.effect] + rest.effects)[1..] == rest.effects;
    }
  }

  /** No page is requested twice along any run, and every request is at or
      beyond the cursor the run started from. */
  lemma NoPageRequestedTwice<P>(s: State<P>, es: seq<Event<P>>)
    requires Inv(s)
    ensures forall i, j :: 0 <= i < j < |Requested(RunEvents(s, es).effects)| ==>
      Requested(RunEvents(s, es).effects)[i] < Requested(RunEvents(s, es).effects)[j]
    ensures forall i :: 0 <= i < |Requested(RunEvents(s, es).effects)| ==>
      s.nextPage <= Requested(RunEvents(s, es).effects)[i]
  {
    RequestsAreContiguous(s, es);
  }

  /** Along any run products are only ever appended and the cursor never
      decreases. */
  lemma {:induction false} RunOnlyGrows<P>(s: State<P>, es: seq<Event<P>>)
    requires Inv(s)
    ensures s.products <= RunEvents(s, es).final.products
    ensures s.nextPage <= RunEvents(s, es).final.nextPage
    decreases |es|
  {
    if es != [] {
      StepPreservesInv(s, es[0]);
      StepMonotone(s, es[0]);
      RunOnlyGrows(Step(s, es[0]).next, es[1..]);
    }
  }

  /** Along a run of events that can occur, the cursor advances by exactly
      the number of successful responses and the products are the initial
      ones followed by the successful pages, in order. */
  lemma {:induction false} SuccessesAccumulate<P>(s: State<P>, es: seq<Event<P>>)
    requires ValidTrace(s, es)
    ensures RunEvents(s, es).final.nextPage == s.nextPage + |OkPages(es)|
    ensures RunEvents(s, es).final.products == s.products + Flatten(OkPages(es))
    decreases |es|
  {
    if es != [] {
      var t := Step(s, es[0]);
      SuccessesAccumulate(t.next, es[1..]);
      assert es == [es[0]] + es[1..];
      if es[0].FetchOk? {
        assert OkPages(es) == [es[0].page] + OkPages(es[1..]);
        assert Flatten(OkPages(es)) == es[0].page + Flatten(OkPages(es[1..]));
      } else {
        assert OkPages(es) == OkPages(es[1..]);
      }
    }
  }

  /** Along a run of events that can occur, the i-th successful response
      answers the request for page s.nextPage + i: responses are appended in
      page order, none skipped, none answered twice. */
  lemma {:induction false} AnswersInPageOrder<P>(s: State<P>, es: seq<Event<P>>)
    requires Inv(s) && ValidTrace(s, es)
    ensures Answered(s, es) == Range(s.nextPage, s.nextPage + |OkPages(es)|)
    decreases |es|
  {
    if es != [] {
      var t := Step(s, es[0]);
      StepPreservesInv(s, es[0]);
      AnswersInPageOrder(t.next, es[1..]);
      assert es == [es[0]] + es[1..];
      if es[0].FetchOk? {
        assert OkPages(es) == [es[0].page] + OkPages(es[1..]);
        assert t.next.nextPage == s.nextPage + 1;
      } else {
        assert OkPages(es) == OkPages(es[1..]);
        assert t.next.nextPage == s.nextPage;
      }
    }
  }

  /** From the mounted page: after N successful responses the cursor is 2 + N
      and the products are page 1 followed by the N responses, which answer
      pages 2, ..., N+1 in that order; page 1 is never requested again. */
  lemma FromMount<P>(page1: seq<P>, es: seq<Event<P>>)
    requires ValidTrace(Mount(Some(page1)).value, es)
    ensures RunEvents(Mount(Some(page1)).value, es).final.nextPage == FirstScrollPage + |OkPages(es)|
    ensures RunEvents(Mount(Some(page1)).value, es).final.products == Flatten([page1] + OkPages(es))
    ensures Answered(Mount(Some(page1)).value, es) == Range(FirstScrollPage, FirstScrollPage + |OkPages(es)|)
    ensures PreloadRequest().page !in Requested(RunEvents(Mount(Some(page1)).value, es).effects)
  {
    var s := Mount(Some(page1)).value;
    SuccessesAccumulate(s, es);
    AnswersInPageOrder(s, es);
    NoPageRequestedTwice(s, es);
    assert ([page1] + OkPages(es))[1..] == OkPages(es);
  }

  /** Once stalled, no sequence of events changes the state or issues a
      request. */
  lemma {:induction false} StalledForever<P>(s: State<P>, es: seq<Event<P>>)
    requires PhaseOf(s) == Stalled
    ensures RunEvents(s, es).final == s
    ensures Requested(RunEvents(s, es).effects) == []
    decreases |es|
  {
    if es != [] {
      StalledIsAbsorbing(s, es[0]);
      StalledForever(s, es[1..]);
    }
  }

  /** A failed request keeps the products and the cursor, leaves the gate
      closed, and no later events, scrolls included, ever fetch again. */
  lemma FailureIsPermanent<P>(s: State<P>, es: seq<Event<P>>)
    requires Inv(s) && PhaseOf(s).Fetching?
    ensures RunEvents(s, [FetchFail] + es).final.products == s.products
    ensures RunEvents(s, [FetchFail] + es).final.nextPage == s.nextPage
    ensures !RunEvents(s, [FetchFail] + es).final.isLoading
    ensures Requested(RunEvents(s, [FetchFail] + es).effects) == []
  {
    var t := Step(s, FetchFail);
    assert PhaseOf(t.next) == Stalled;
    StalledForever(t.next, es);
    assert ([FetchFail] + es)[1..] == es;
  }

  /** The page-load scenario: page 1 is preloaded, one scroll at the bottom of
      a 1000-unit document with a 200-unit viewport fetches page 2, and after
      the settle delay the gate is open again. */
  lemma OnePageLoaded<P>(page1: seq<P>, page2: seq<P>)
    requires |page1| == 20 && |page2| == 20
    ensures var r := RunEvents(Mount(Some(page1)).value,
                                [Scroll(Some(Metrics(1000, 800, 200))), FetchOk(page2), DelayElapsed]);
      && |r.final.products| == 40
      && r.final.nextPage == 3
      && PhaseOf(r.final) == Idle
      && Requested(r.effects) == [2]
  {
    var es: seq<Event<P>> := [Scroll(Some(Metrics(1000, 800, 200))), FetchOk(page2), DelayElapsed];
    var s0 := Mount(Some(page1)).value;
    var s1 := Step(s0, es[0]).next;
    var s2 := Step(s1, es[1]).next;
    assert es[1..][1..] == [DelayElapsed];
    assert RunEvents(s2, [DelayElapsed]).effects == [Silent];
    var effects := [Get(2), Sleep(SettleDelayMs), Silent];
    assert RunEvents(s0, es).effects == effects;
    assert Requested(effects[2..]) == [];
    assert Requested(effects[1..]) == [];
  }

  /** The near-bottom boundary: with a 1000-unit document and a 200-unit
      viewport a scroll offset of 800 qualifies and 799 does not. */
  lemma NearBottomBoundary()
    ensures NearBottom(Metrics(1000, 800, 200))
    ensures !NearBottom(Metrics(1000, 799, 200))
  {
  }
}

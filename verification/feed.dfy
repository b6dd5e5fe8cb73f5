/**
 The infinite-scroll pagination controller of the product feed page.

 The page holds three pieces of React state: the product sequence (seeded with
 page 1, fetched on the server), the next-page cursor (starting at 2) and a
 gate flag `isLoading` whose `true` means "ready to fetch". A scroll event near
 the bottom of the document closes the gate and requests page `nextPage`; a
 successful response appends its products, advances the cursor and starts a
 2000 ms settle delay after which the gate reopens. A failed response is only
 logged: the gate stays closed.

 The asynchronous continuation of `fetchNextData` is made explicit as `task`,
 and each external happening (a scroll signal, the response, the timer) is an
 `Event` consumed by the pure transition function `Step`.
 */
module Feed {

  datatype Option<+T> = None | Some(value: T)

  /** The viewport metrics read from `document.documentElement`. */
  datatype Metrics = Metrics(scrollHeight: int, scrollTop: int, clientHeight: int)

  /** What the running `fetchNextData` call, if any, is suspended on. */
  datatype Task = NoTask | AwaitResponse(page: int) | AwaitDelay

  /** The controller's state; `P` is the product record, which is only rendered. */
  datatype State<P> = State(products: seq<P>, nextPage: int, isLoading: bool, task: Task)

  /** Scroll carries None when the document has no root element. */
  datatype Event<P> =
    | Scroll(viewport: Option<Metrics>)
    | FetchOk(page: seq<P>)
    | FetchFail
    | DelayElapsed

  /** What a transition asks of the outside world. */
  datatype Effect = Silent | Get(page: int) | Sleep(ms: int)

  datatype Transition<P> = Transition(next: State<P>, effect: Effect)

  /** The phases the pair (isLoading, task) encodes. */
  datatype Phase = Idle | Fetching(page: int) | Settling | Stalled

  /** The page the server fetches before the first render. */
  const PreloadPage: int := 1

  /** The cursor's initial value. */
  const FirstScrollPage: int := 2

  /** The settle delay, in milliseconds, before the gate reopens. */
  const SettleDelayMs: int := 2000

  function PhaseOf<P>(s: State<P>): Phase {
    match s.task
    case AwaitResponse(p) => Fetching(p)
    case AwaitDelay => Settling
    case NoTask => if s.isLoading then Idle else Stalled
  }

  /** The states the controller can be in: the gate is open only when nothing
      is pending, and an outstanding request is for the current cursor. */
  ghost predicate Inv<P>(s: State<P>) {
    && s.nextPage >= FirstScrollPage
    && (s.isLoading ==> s.task == NoTask)
    && (s.task.AwaitResponse? ==> s.task.page == s.nextPage)
  }

  /** The lowest page number this state can still request: once a request for
      the cursor is outstanding, or has failed, the cursor itself is used up. */
  function Floor<P>(s: State<P>): int {
    match PhaseOf(s)
    case Idle => s.nextPage
    case Settling => s.nextPage
    case Fetching(_) => s.nextPage + 1
    case Stalled => s.nextPage + 1
  }

  /** The request `getServerSideProps` issues for the initial props. */
  function PreloadRequest(): (e: Effect)
    ensures e.Get? && e.page >= 1 && e.page + 1 == FirstScrollPage
  {
    Get(PreloadPage)
  }

  /** The component's initial state, given the server-side response for page 1;
      a failed preload means the page is never rendered. */
  function Mount<P>(preload: Option<seq<P>>): (r: Option<State<P>>)
    ensures r.Some? <==> preload.Some?
    ensures r.Some? ==> Inv(r.value) && PhaseOf(r.value) == Idle
    ensures r.Some? ==> r.value.products == preload.value && r.value.nextPage == PreloadPage + 1
  {
    match preload
    case None => None
    case Some(page) => Some(State(page, FirstScrollPage, true, NoTask))
  }

  /** The near-bottom test of the scroll callback. */
  predicate NearBottom(m: Metrics) {
    m.clientHeight + m.scrollTop >= m.scrollHeight
  }

  /** `fetchNextData` up to its first suspension: close the gate and request
      the cursor's page. */
  function FetchNextData<P>(s: State<P>): (t: Transition<P>)
    ensures t.effect == Get(s.nextPage)
    ensures PhaseOf(t.next) == Fetching(s.nextPage)
    ensures !t.next.isLoading
    ensures t.next.products == s.products && t.next.nextPage == s.nextPage
  {
    Transition(s.(isLoading := false, task := AwaitResponse(s.nextPage)), Get(s.nextPage))
  }

  /** The scroll listener. */
  function OnScroll<P>(s: State<P>, viewport: Option<Metrics>): (t: Transition<P>)
    ensures t.effect.Get? <==> viewport.Some? && NearBottom(viewport.value) && s.isLoading
    ensures t.effect.Get? ==> t == FetchNextData(s)
    ensures !t.effect.Get? ==> t == Transition(s, Silent)
  {
    match viewport
    case None => Transition(s, Silent)
    case Some(m) =>
      if NearBottom(m) && s.isLoading then FetchNextData(s) else Transition(s, Silent)
  }

  /** The response to the outstanding request arrives with `page`. */
  function OnFetchOk<P>(s: State<P>, page: seq<P>): (t: Transition<P>)
    ensures s.task.AwaitResponse? ==>
      && |t.next.products| == |s.products| + |page|
      && t.next.products[..|s.products|] == s.products
      && t.next.products[|s.products|..] == page
      && multiset(t.next.products) == multiset(s.products) + multiset(page)
      && t.next.nextPage == s.nextPage + 1
      && t.next.isLoading == s.isLoading
      && PhaseOf(t.next) == Settling
      && t.effect == Sleep(SettleDelayMs)
    ensures !s.task.AwaitResponse? ==> t == Transition(s, Silent)
  {
    if s.task.AwaitResponse? then
      Transition(State(s.products + page, s.nextPage + 1, s.isLoading, AwaitDelay), Sleep(SettleDelayMs))
    else
      Transition(s, Silent)
  }

  /** The outstanding request fails: the error is only logged. */
  function OnFetchFail<P>(s: State<P>): (t: Transition<P>)
    ensures t.next.products == s.products && t.next.nextPage == s.nextPage
    ensures t.next.isLoading == s.isLoading && t.effect == Silent
    ensures s.task.AwaitResponse? ==> t.next.task == NoTask
    ensures !s.task.AwaitResponse? ==> t.next == s
  {
    if s.task.AwaitResponse? then Transition(s.(task := NoTask), Silent) else Transition(s, Silent)
  }

  /** The settle timer fires: the gate reopens. */
  function OnDelayElapsed<P>(s: State<P>): (t: Transition<P>)
    ensures t.next.products == s.products && t.next.nextPage == s.nextPage && t.effect == Silent
    ensures t.next.isLoading <==> s.isLoading || s.task == AwaitDelay
    ensures s.task == AwaitDelay ==> PhaseOf(t.next) == Idle
    ensures s.task != AwaitDelay ==> t.next == s
  {
    if s.task == AwaitDelay then Transition(s.(isLoading := true, task := NoTask), Silent)
    else Transition(s, Silent)
  }

  /** One event. Completion events that do not match what is pending cannot
      happen in the browser and leave the state as it is. */
  function Step<P>(s: State<P>, e: Event<P>): Transition<P> {
    match e
    case Scroll(viewport) => OnScroll(s, viewport)
    case FetchOk(page) => OnFetchOk(s, page)
    case FetchFail => OnFetchFail(s)
    case DelayElapsed => OnDelayElapsed(s)
  }

  /** Whether `e` can actually occur in `s`: a response only while a request
      is outstanding, the timer only while settling. */
  predicate Enabled<P>(s: State<P>, e: Event<P>) {
    match e
    case Scroll(_) => true
    case FetchOk(_) => s.task.AwaitResponse?
    case FetchFail => s.task.AwaitResponse?
    case DelayElapsed => s.task == AwaitDelay
  }

  lemma StepPreservesInv<P>(s: State<P>, e: Event<P>)
    requires Inv(s)
    ensures Inv(Step(s, e).next)
  {
  }

  /** A request is issued only from the idle phase, for the cursor's page, and
      leaves exactly that request outstanding. So while a request is
      outstanding no event issues a second one. */
  lemma SingleFlight<P>(s: State<P>, e: Event<P>)
    requires Inv(s)
    ensures Step(s, e).effect.Get? ==>
      && PhaseOf(s) == Idle
      && Step(s, e).effect.page == s.nextPage
      && PhaseOf(Step(s, e).next) == Fetching(s.nextPage)
  {
  }

  /** The gate only opens when the settle delay elapses, and settling is
      entered only from a successful response. */
  lemma GateOpensOnlyAfterSettling<P>(s: State<P>, e: Event<P>)
    requires Inv(s)
    ensures !s.isLoading && Step(s, e).next.isLoading ==> PhaseOf(s) == Settling && e == DelayElapsed
    ensures PhaseOf(Step(s, e).next) == Settling ==>
      PhaseOf(s) == Settling || (PhaseOf(s).Fetching? && e.FetchOk?)
    ensures PhaseOf(Step(s, e).next) == Settling ==> !Step(s, e).next.isLoading
  {
  }

  /** A step never removes or reorders products, never lowers the cursor and
      never lowers the lowest page still requestable; a request is for exactly
      that page and uses it up. */
  lemma StepMonotone<P>(s: State<P>, e: Event<P>)
    requires Inv(s)
    ensures s.products <= Step(s, e).next.products
    ensures s.nextPage <= Step(s, e).next.nextPage
    ensures Step(s, e).effect.Get? ==>
      Step(s, e).effect.page == Floor(s) && Floor(Step(s, e).next) == Floor(s) + 1
    ensures !Step(s, e).effect.Get? ==> Floor(Step(s, e).next) == Floor(s)
  {
  }

  /** Once stalled, every event leaves the state exactly as it is. */
  lemma StalledIsAbsorbing<P>(s: State<P>, e: Event<P>)
    requires PhaseOf(s) == Stalled
    ensures Step(s, e) == Transition(s, Silent)
  {
  }
}

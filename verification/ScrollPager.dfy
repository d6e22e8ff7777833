/** The scroll pager of the infinite-scrolling image gallery.

    The pager keeps the images shown so far, the page cursor and an in-flight
    flag. When the observer reports the sentinel under the grid as
    intersecting the viewport and no fetch is in flight, a fetch starts: the flag is raised and a batch of ten items is
    built from the current page. When the fetch completes, the batch is
    appended, the cursor moves on by one and the flag is cleared.

    The pure functions below (`Batch`, `AfterTrigger`, `AfterStart`,
    `AfterComplete`) specify the transitions; the class `Pager` performs them
    on mutable fields, as the component does with its state hooks.
 */
module ScrollPager {
  import opened ItemIds

  /** Items per page; also the factor of the page number in the random key. */
  const BatchSize: nat := 10

  /** One gallery image. The url is kept only as its varying part, the
      integer random key appended to the fixed image-service address. */
  datatype Item = Item(id: string, random: nat)

  /** The random key of item `index` of page `page`. While the index stays
      below the batch size, the key determines both: dividing by ten gives
      back the page, the remainder the index. */
  function RandomKey(page: nat, index: nat): (key: nat)
    ensures index < BatchSize ==> key / BatchSize == page && key % BatchSize == index
  {
    page * BatchSize + index
  }

  /** Item `index` of page `page`; its id and, for an index within the
      batch, its random key both decode to (page, index). */
  function MakeItem(page: nat, index: nat): (item: Item)
    ensures ParseId(item.id) == Some((page, index))
    ensures index < BatchSize ==>
              item.random / BatchSize == page && item.random % BatchSize == index
  {
    Item(Id(page, index), RandomKey(page, index))
  }

  /** The batch built when a fetch starts on page `page`: exactly ten items,
      item k carrying id "{page}-{k}" and random key page*10 + k. */
  function Batch(page: nat): (b: seq<Item>)
    ensures |b| == BatchSize
    ensures forall k :: 0 <= k < |b| ==>
              b[k].id == Id(page, k) && b[k].random == page * BatchSize + k
  {
    seq(BatchSize, k requires 0 <= k < BatchSize => MakeItem(page, k))
  }

  /** Random keys are distinct within a batch and across batches of
      different pages. */
  lemma RandomKeyInjective(page: nat, index: nat, page': nat, index': nat)
    requires index < BatchSize && index' < BatchSize
    requires RandomKey(page, index) == RandomKey(page', index')
    ensures page == page' && index == index'
  {
  }

  /** The images shown after `n` completed fetches, starting from page 1. */
  function Accumulated(n: nat): (s: seq<Item>)
    ensures |s| == BatchSize * n
  {
    if n == 0 then [] else Accumulated(n - 1) + Batch(n)
  }

  /** Item k of the accumulated list belongs to page k/10 + 1 and sits at
      index k%10 within it. */
  lemma {:induction false} AccumulatedAt(n: nat, k: nat)
    requires k < |Accumulated(n)|
    ensures Accumulated(n)[k] == MakeItem(k / BatchSize + 1, k % BatchSize)
    ensures Accumulated(n)[k].random == k + BatchSize
  {
    var prefix := Accumulated(n - 1);
    if k < |prefix| {
      AccumulatedAt(n - 1, k);
    } else {
      var i := k - |prefix|;
      assert Accumulated(n)[k] == Batch(n)[i];
      assert k == RandomKey(n - 1, i);
    }
  }

  /** No two images of the accumulated list share an id or a random key. */
  lemma AccumulatedDistinct(n: nat)
    ensures forall a, b :: 0 <= a < b < |Accumulated(n)| ==>
              Accumulated(n)[a].id != Accumulated(n)[b].id &&
              Accumulated(n)[a].random != Accumulated(n)[b].random
  {
    var s := Accumulated(n);
    forall a, b | 0 <= a < b < |s|
      ensures s[a].id != s[b].id && s[a].random != s[b].random
    {
      AccumulatedAt(n, a);
      AccumulatedAt(n, b);
    }
  }

  /** Image k of the accumulated list has id "{k/10+1}-{k%10}". */
  lemma AccumulatedIds(n: nat)
    ensures forall k :: 0 <= k < |Accumulated(n)| ==>
              Accumulated(n)[k].id == Id(k / BatchSize + 1, k % BatchSize)
  {
    forall k | 0 <= k < |Accumulated(n)|
      ensures Accumulated(n)[k].id == Id(k / BatchSize + 1, k % BatchSize)
    {
      AccumulatedAt(n, k);
    }
  }

  /** The pager's state: the images shown, the page cursor, the in-flight
      flag, and the batch the scheduled completion will append. */
  datatype PagerState = PagerState(images: seq<Item>, page: nat, loading: bool, pending: seq<Item>)

  /** The state at mount: no images, page 1, not loading. It satisfies the
      invariant. */
  function Initial(): (s: PagerState)
    ensures Inv(s) && |s.images| == 0 && s.page == 1 && !s.loading
  {
    PagerState([], 1, false, [])
  }

  /** What every reachable state satisfies: the images are exactly the pages
      fetched so far, in page order, and a batch is pending exactly when the
      flag is raised, and then it is the batch of the current page. */
  ghost predicate Inv(s: PagerState) {
    s.page >= 1 &&
    s.images == Accumulated(s.page - 1) &&
    s.pending == (if s.loading then Batch(s.page) else [])
  }

  /** Starting a fetch: raise the flag, pend the batch of the current page,
      keep images and page. The invariant is kept. */
  function AfterStart(s: PagerState): (t: PagerState)
    requires !s.loading
    ensures Inv(s) ==> Inv(t)
    ensures t.loading && t.pending == Batch(s.page)
    ensures t.images == s.images && t.page == s.page
  {
    s.(loading := true, pending := Batch(s.page))
  }

  /** The sentinel's callback: a fetch starts only if the sentinel is in view
      and no fetch is in flight; otherwise nothing happens. */
  function AfterTrigger(s: PagerState, visible: bool): (t: PagerState)
    ensures Inv(s) ==> Inv(t)
    ensures !visible || s.loading ==> t == s
    ensures visible && !s.loading ==>
              t.loading && t.pending == Batch(s.page) && t.images == s.images && t.page == s.page
  {
    if visible && !s.loading then AfterStart(s) else s
  }

  /** The timer callback: the old images stay as an unchanged prefix, the
      pending batch (that of the current page) follows them in index order,
      the page advances by exactly one and the flag is cleared. The
      invariant is kept. */
  function AfterComplete(s: PagerState): (t: PagerState)
    requires s.loading
    ensures |t.images| == |s.images| + |s.pending| && t.images[..|s.images|] == s.images
    ensures Inv(s) ==> Inv(t) && t.images[|s.images|..] == Batch(s.page) &&
                       |t.images| == |s.images| + BatchSize
    ensures t.page == s.page + 1 && !t.loading && t.pending == []
  {
    PagerState(s.images + s.pending, s.page + 1, false, [])
  }

  /** The events that drive the pager: the sentinel's visibility callback and
      the firing of the completion timer. */
  datatype Event = Intersect(visible: bool) | TimerFires

  /** The transitions an event causes. */
  datatype Transition = Begin | Finish

  /** One event. The completion timer exists only while a fetch is in
      flight, so a timer event with nothing scheduled changes nothing. */
  function Step(s: PagerState, e: Event): (t: PagerState)
    ensures Inv(s) ==> Inv(t)
    ensures t.page == if s.loading && !t.loading then s.page + 1 else s.page
  {
    match e
    case Intersect(visible) => AfterTrigger(s, visible)
    case TimerFires => if s.loading then AfterComplete(s) else s
  }

  /** The transition an event causes: a fetch start exactly when the event
      raises the flag, a completion exactly when it clears it, nothing
      exactly when the state stays as it is. */
  function Effect(s: PagerState, e: Event): (r: seq<Transition>)
    ensures r == [Begin] <==> !s.loading && Step(s, e).loading
    ensures r == [Finish] <==> s.loading && !Step(s, e).loading
    ensures r == [] <==> Step(s, e) == s
  {
    match e
    case Intersect(visible) => if visible && !s.loading then [Begin] else []
    case TimerFires => if s.loading then [Finish] else []
  }

  function Run(s: PagerState, events: seq<Event>): PagerState
    decreases |events|
  {
    if events == [] then s else Run(Step(s, events[0]), events[1..])
  }

  /** The fetch starts and completions caused by a sequence of events. */
  function Log(s: PagerState, events: seq<Event>): seq<Transition>
    decreases |events|
  {
    if events == [] then [] else Effect(s, events[0]) + Log(Step(s, events[0]), events[1..])
  }

  function Completions(log: seq<Transition>): nat
    decreases |log|
  {
    if log == [] then 0 else (if log[0] == Finish then 1 else 0) + Completions(log[1..])
  }

  /** An event advances the page by exactly the number of completions it
      causes. */
  lemma StepAdvances(s: PagerState, e: Event)
    ensures Step(s, e).page == s.page + Completions(Effect(s, e))
  {
  }

  lemma CompletionsConcat(head: seq<Transition>, tail: seq<Transition>)
    requires |head| <= 1
    ensures Completions(head + tail) == Completions(head) + Completions(tail)
  {
    if head != [] {
      assert (head + tail)[1..] == tail;
    } else {
      assert head + tail == tail;
    }
  }

  /** Fetch starts and completions strictly alternate, whatever the order of
      events: from an idle state the log reads Begin, Finish, Begin, ...;
      from a loading state it reads Finish, Begin, Finish, .... In particular
      a second trigger while loading never starts a second fetch. */
  lemma {:induction false} Alternation(s: PagerState, events: seq<Event>)
    ensures forall k :: 0 <= k < |Log(s, events)| ==>
              Log(s, events)[k] == (if (k % 2 == 0) == !s.loading then Begin else Finish)
    decreases |events|
  {
    if events != [] {
      var t, rest := Step(s, events[0]), events[1..];
      Alternation(t, rest);
      var eff := Effect(s, events[0]);
      if eff == [] {
        assert t == s;
      } else {
        assert t.loading == !s.loading;
        var log := Log(s, events);
        assert log == eff + Log(t, rest);
        forall k | 1 <= k < |log|
          ensures log[k] == (if (k % 2 == 0) == !s.loading then Begin else Finish)
        {
          assert log[k] == Log(t, rest)[k - 1];
        }
      }
    }
  }

  /** Every state reachable by events keeps the invariant, and the page has
      advanced by exactly the number of completions. */
  lemma {:induction false} RunKeepsInv(s: PagerState, events: seq<Event>)
    requires Inv(s)
    ensures Inv(Run(s, events))
    ensures Run(s, events).page == s.page + Completions(Log(s, events))
    decreases |events|
  {
    if events != [] {
      var t, rest := Step(s, events[0]), events[1..];
      assert Inv(t);
      StepAdvances(s, events[0]);
      RunKeepsInv(t, rest);
      var eff := Effect(s, events[0]);
      assert Log(s, events) == eff + Log(t, rest);
      assert Run(s, events) == Run(t, rest);
      CompletionsConcat(eff, Log(t, rest));
    }
  }

  /** From mount, after any events with N completed fetches: page is N+1,
      there are 10*N images, image k has id "{k/10+1}-{k%10}", all ids are
      distinct, and loading holds exactly when a batch is pending. */
  lemma FromMount(events: seq<Event>)
    ensures var t, n := Run(Initial(), events), Completions(Log(Initial(), events));
      t.page == n + 1 &&
      |t.images| == BatchSize * n &&
      (forall k :: 0 <= k < |t.images| ==> t.images[k].id == Id(k / BatchSize + 1, k % BatchSize)) &&
      (forall a, b :: 0 <= a < b < |t.images| ==> t.images[a].id != t.images[b].id) &&
      (t.loading <==> t.pending != [])
  {
    var t, n := Run(Initial(), events), Completions(Log(Initial(), events));
    RunKeepsInv(Initial(), events);
    assert t.images == Accumulated(n) && t.page == n + 1 && (t.loading <==> t.pending != []);
    AccumulatedIds(n);
    AccumulatedDistinct(n);
  }

  /** The component's mutable state and its transitions. */
  class Pager {
    var images: seq<Item>
    var page: nat
    var loading: bool
    var pending: seq<Item>

    function State(): PagerState
      reads this
    {
      PagerState(images, page, loading, pending)
    }

    ghost predicate Valid()
      reads this
    {
      Inv(State())
    }

    /** Mount: empty list, page 1, not loading. */
    constructor ()
      ensures Valid() && State() == Initial()
      ensures images == [] && page == 1 && !loading && pending == []
    {
      images, page, loading, pending := [], 1, false, [];
    }

    /** The sentinel reports its visibility; a fetch starts only when it is
        in view and no fetch is in flight. */
    method Trigger(visible: bool) returns (started: bool)
      requires Valid()
      modifies this
      ensures Valid() && State() == AfterTrigger(old(State()), visible)
      ensures started <==> visible && !old(loading)
      ensures !started ==> images == old(images) && page == old(page) &&
                           loading == old(loading) && pending == old(pending)
      ensures started ==> loading && pending == Batch(page) &&
                          images == old(images) && page == old(page)
    {
      started := visible && !loading;
      if started {
        StartFetch();
      }
    }

    /** Raise the flag and build the batch of the current page. */
    method StartFetch()
      requires Valid() && !loading
      modifies this
      ensures Valid() && State() == AfterStart(old(State()))
      ensures loading && pending == Batch(page)
      ensures images == old(images) && page == old(page)
    {
      loading := true;
      pending := Batch(page);
    }

    /** The timer callback: append the pending batch, advance the page,
        clear the flag. */
    method CompleteFetch()
      requires Valid() && loading
      modifies this
      ensures Valid() && State() == AfterComplete(old(State()))
      ensures images == old(images) + Batch(old(page))
      ensures |images| == |old(images)| + BatchSize
      ensures page == old(page) + 1 && !loading && pending == []
    {
      ghost var before := State();
      ghost var after := AfterComplete(before);
      assert Inv(after) && after.images == images + Batch(page);
      images := images + pending;
      page := page + 1;
      loading := false;
      pending := [];
      assert State() == after;
    }
  }
}

# Infinite-scroll image gallery: the scroll pager

This project models the scroll pager of the `InfiniteScrollImages` React
component. The component shows a grid of placeholder images and a sentinel
element under it. When the observer reports the sentinel as intersecting the
viewport and no fetch is in flight, the component fetches the next page of ten
images. After a timer fires, it appends them to the grid.

The pager's state is three hooks: `images` (append-only, starts empty),
`page` (starts at 1) and `loading` (starts false). The model adds a fourth
field, `pending`: the batch that the scheduled completion captured when the
fetch started.

- `ItemIds.dfy` (module `ItemIds`) covers the item id `"{page}-{index}"`. It
  renders numbers in decimal, builds the id (`Id`) and parses it back
  (`ParseId`). `Id`'s contract states that parsing inverts building, so
  distinct (page, index) pairs get distinct ids.
- `ScrollPager.dfy` (module `ScrollPager`) defines the item, the batch built
  when a fetch starts, and the list accumulated after N fetches.
  - The pure transition functions `AfterTrigger`, `AfterStart` and
    `AfterComplete` specify the state machine. Their contracts say what each
    transition does and that it keeps the reachable-state invariant `Inv`.
  - `Step`, `Run` and `Log` replay any sequence of sentinel and timer events.
    The lemmas over them prove alternation of fetch starts and completions and
    the page and length counts.
  - The class `Pager` holds the mutable fields and performs the transitions.
    Each of its methods ensures that the new state is the specification
    function applied to the old state, and that `Valid()` is kept.

A URL is represented only by its varying part, the integer random key
`page*10 + index`. The image-service address in front of it is a constant and
is not modelled.

## Model

| member | source | states |
|---|---|---|
| ItemIds.Decimal | src/components/InfiniteScrollImages.jsx:14 | the template literal's rendering of a page or index number is non-empty, all decimal digits, and starts with '0' only for zero |
| ItemIds.ValueOfDecimal | src/components/InfiniteScrollImages.jsx:14 | reading the decimal rendering back gives the number it was made from |
| ItemIds.DecimalInjective | src/components/InfiniteScrollImages.jsx:14 | two numbers with the same decimal rendering are equal |
| ItemIds.ParseDashJoined | src/components/InfiniteScrollImages.jsx:14 | two digit strings joined by a dash split back, at the first dash, into the two numbers they spell |
| ItemIds.Id | src/components/InfiniteScrollImages.jsx:14 | the id `"{page}-{index}"`, split at its first dash with both halves read as decimal numbers, gives back (page, index) |
| ItemIds.IdInjective | src/components/InfiniteScrollImages.jsx:14 | two items whose ids are equal have the same page and the same index |
| ScrollPager.RandomKey | src/components/InfiniteScrollImages.jsx:15 | for an index below 10, the random key page*10 + index divided by 10 gives the page and its remainder gives the index |
| ScrollPager.MakeItem | src/components/InfiniteScrollImages.jsx:14-15 | an item's id parses back to its (page, index), and for an index below 10 its random key decodes to the same pair |
| ScrollPager.Batch | src/components/InfiniteScrollImages.jsx:13-16 | a batch has exactly 10 items; item k has id "{page}-{k}" and random key page*10 + k |
| ScrollPager.RandomKeyInjective | src/components/InfiniteScrollImages.jsx:13-15 | equal random keys (index below 10) mean the same page and the same index, within a batch and across pages |
| ScrollPager.Accumulated | src/components/InfiniteScrollImages.jsx:19-20 | the list after n fetches from page 1 has exactly 10*n items |
| ScrollPager.AccumulatedAt | src/components/InfiniteScrollImages.jsx:13-20 | item k of the accumulated list is item k%10 of page k/10 + 1, and its random key is k + 10 |
| ScrollPager.AccumulatedIds | src/components/InfiniteScrollImages.jsx:13-20 | item k of the accumulated list has id "{k/10+1}-{k%10}" |
| ScrollPager.AccumulatedDistinct | src/components/InfiniteScrollImages.jsx:13-20 | no two items of the accumulated list share an id or a random key |
| ScrollPager.Initial | src/components/InfiniteScrollImages.jsx:4-6 | the mount state has no images, page 1, not loading, and satisfies the invariant |
| ScrollPager.AfterStart | src/components/InfiniteScrollImages.jsx:11-16 | starting a fetch raises the flag, pends the batch of the current page, keeps images and page, and keeps the invariant |
| ScrollPager.AfterTrigger | src/components/InfiniteScrollImages.jsx:30-32 | a trigger that is not intersecting, or that arrives while loading, changes nothing. Otherwise it raises the flag and pends the current page's batch, and keeps images and page. Either way the invariant holds |
| ScrollPager.AfterComplete | src/components/InfiniteScrollImages.jsx:19-21 | completion keeps the old images as an unchanged prefix and appends the current page's batch after them. The length grows by 10, page grows by exactly 1, loading becomes false and the invariant is kept |
| ScrollPager.Step | src/components/InfiniteScrollImages.jsx:18-32 | an observer or timer event keeps the invariant; the page grows by 1 exactly when the event clears the flag, and otherwise stays |
| ScrollPager.Effect | src/components/InfiniteScrollImages.jsx:18-32 | an event logs a fetch start exactly when it raises the flag, a completion exactly when it clears it, and nothing exactly when the state is unchanged |
| ScrollPager.StepAdvances | src/components/InfiniteScrollImages.jsx:20 | an event advances the page by exactly the number of completions it logs |
| ScrollPager.Alternation | src/components/InfiniteScrollImages.jsx:10-32 | for any sequence of events, fetch starts and completions strictly alternate, so a trigger while loading never starts a second fetch |
| ScrollPager.RunKeepsInv | src/components/InfiniteScrollImages.jsx:10-32 | any sequence of events keeps the invariant (at most one batch pending, pending exactly while loading), and the page grows by the number of completions |
| ScrollPager.FromMount | src/components/InfiniteScrollImages.jsx:4-32 | from mount, after N completed fetches: page is N+1, there are 10*N images, image k has id "{k/10+1}-{k%10}", all ids are distinct, and loading holds exactly when a batch is pending |
| ScrollPager.Pager.constructor | src/components/InfiniteScrollImages.jsx:4-6 | the component mounts with no images, page 1 and not loading |
| ScrollPager.Pager.Trigger | src/components/InfiniteScrollImages.jsx:30-32 | the observer callback starts a fetch exactly when the sentinel intersects and loading is false. Otherwise images, page, loading and pending are unchanged |
| ScrollPager.Pager.StartFetch | src/components/InfiniteScrollImages.jsx:11-16 | starting a fetch sets loading and pends the batch of the current page, and leaves images and page as they were |
| ScrollPager.Pager.CompleteFetch | src/components/InfiniteScrollImages.jsx:18-22 | the timer callback appends the current page's batch to the images, increments page by exactly 1 and clears loading |

## Left out

- Rendering (lines 48-61): the grid, the `img` elements, the `key` projection and the loading indicator only read `images` and `loading`.
- IntersectionObserver setup and teardown (lines 26-46), the `threshold: 1.0` option and `loaderRef` are browser platform API. They become the boolean `visible` argument of `Pager.Trigger` and the `Intersect` event.
- When the observer delivers entries is not modelled. Line 30 tests `isIntersecting`, which is true for a partial intersection too; the threshold only decides when entries arrive. Because the effect re-creates the observer whenever `loading` changes (line 46), each new observer reports the sentinel's current state. So a sentinel that is still partly on screen after a completion starts the next fetch. The model admits any such report as an `Intersect(true)` event at any time, so its properties hold whatever the delivery order.
- JavaScript number range: `page` and the random key are JavaScript numbers, exact only below 2^53, and a template literal writes numbers from 10^21 up in exponent notation. The model uses unbounded naturals and plain decimal, which agree with the code for every page reachable in about 10^15 fetches.
- The 1000 ms delay of `setTimeout` (line 18): timing is not modelled. Completion is a separate call (`Pager.CompleteFetch`, the `TimerFires` event), which can happen only while a fetch is pending.
- Pager.StartFetch: requires that no fetch is in flight. `fetchImages` has no guard of its own, but its only caller (line 30-31) checks `!loading` first. The single `pending` slot cannot hold two scheduled completions.
- Stale closures and React batching: the real callback reads `loading` from the closure of the last render. A second intersection delivered before re-rendering could start a duplicate fetch of the same page. Every transition in the model sees the latest state. This is an assumption of the model, not a guarantee of the code.
- Unmounting: the code does not cancel the timer on unmount, and the model adds no such handling.
- Fetch failure: the placeholder image source cannot fail, so there is no error path.
- Full URL strings: only the integer random key is kept, because the address in front of it is a constant.
- The CSS string and its injection into `document.head` (lines 66-131) are presentation and a DOM side effect.

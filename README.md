# Maximum bytes in a sliding time window

The repository's core is one Python function, `max_bytes(events)`
(`assignments/task1/max_bytes.py`). It takes a list of `{timestamp, bytes}`
records. It returns the largest total of bytes carried by events whose
timestamps fall within one window `[t - 4, t]`, a span of less than 5 time
units. It works in two phases:

1. it sorts the caller's list in place by timestamp;
2. it sweeps the sorted list once, keeping three things:
   - a deque (double-ended queue) of the active events;
   - the running sum of their bytes;
   - the running maximum of that sum.

   At each event with timestamp `t` it first pops from the front of the deque
   every event older than `t - 4`. It then appends the new event, adds its
   bytes to the sum, and updates the maximum.

This project models that function in Dafny and proves what it computes.

- `events.dfy` (module `Events`): the `Event` record (`timestamp: int`, `bytes: nat`)
  and the window constant `Reach = 4`.
  - `Total` is the sum of bytes of a run of events.
  - `WindowBytes(s, t)` is the bytes of the events of `s` that lie in `[t - 4, t]`.
  - It also holds the algebra of these: concatenation, runs and permutation.
- `window_spec.dfy` (module `WindowSpec`) gives two independent descriptions of the answer.
  - `MaxWindow(s)` is the reference answer. It is the best window total over the
    windows that end at an event's timestamp, and it ignores the order of `s`.
  - `PrefixMax(s)` is the running maximum the sweep produces.
  - They are proved equal for sorted input.
- `sort.dfy` (module `Sorting`): the in-place sort of the caller's list, over an `array<Event>`.
- `aggregator.dfy` (module `Aggregator`): the function itself.
  - `SweepSorted` is the sweep loop, with the deque as a sequence that is popped
    from the front and appended at the back.
  - `Evict` is the eviction loop.
  - `MaxBytes` is the whole function: sort in place, then sweep.
  - `MaxBytesTwice` is the module's two calls on the same list.
- `properties.dfy` (module `Properties`): properties of the answer.
  - The bounds.
  - The boundary law: a gap of 4 is summed, a gap of 5 is not.
  - Equal timestamps are always summed together.
  - The answer is the total of one contiguous run of span less than 5.
- `scenarios.dfy` (module `Scenarios`): the concrete cases of
  `assignments/task1/test_max_bytes.py`, stated on `MaxWindow`.
- `demo.dfy` (module `Demo`): the 50-event list defined at the top of
  `max_bytes.py`, for which the answer is 1435.

The function mutates the caller's list: after the call it is sorted. A pure
function that leaves its input alone would be the cleaner design. The model
follows the code: `MaxBytes` has `modifies events`, and it states both the new
contents of the array and the returned value.

The source comment on line 83 of `max_bytes.py` says the call prints 450. For
the 50-event list defined in that file the function returns 1435 (`Demo.DemoAnswer`).
The repository's large-dataset test expects the same value. The comment is
stale; the code is not at fault.

## Model

| member | source | states |
|---|---|---|
| `Aggregator.MaxBytes` | assignments/task1/max_bytes.py:56-80 | afterwards the caller's array is sorted by timestamp and is a permutation of what it held; the returned value is the reference answer `MaxWindow` of the original events |
| `Aggregator.SweepSorted` | assignments/task1/max_bytes.py:60-80 | on timestamp-sorted events the sweep returns the running maximum `PrefixMax` and hence the reference answer `MaxWindow` (0 for no events). The loop keeps four invariants: the deque is the contiguous run `events[lo..i]`; `current_sum` is its total; every event before `lo` is older than the window of the last event; `max_sum` is the running maximum so far |
| `Aggregator.Evict` | assignments/task1/max_bytes.py:69-71 | eviction keeps a suffix of the deque and the running sum of that suffix. Every event it dropped is older than `t - 4`. It stops at an event inside the window or at an empty deque |
| `Aggregator.SweepStep` | assignments/task1/max_bytes.py:69-78 | after eviction and append, the deque is the contiguous run ending at the current event. Every earlier event has left the window (`Evicted`), and every event of the deque lies inside it (`Active`). The running maximum is updated with the total of the new deque, which is the current window's total |
| `Aggregator.RunIsPrefixWindow` | assignments/task1/max_bytes.py:69-75 | once eviction stops at `lo`, the window of `s[i]` over the events seen so far holds exactly the bytes of the run `s[lo..i + 1]` |
| `Aggregator.EvictedStep` | assignments/task1/max_bytes.py:69-71 | what eviction keeps is the tail of the run the deque held, and all events before it lie below the new event's window |
| `Aggregator.Evicted` | assignments/task1/max_bytes.py:69-71 | every event before the start of the deque is older than `t - 4` for the timestamp `t` of the last event processed: eviction leaves nothing behind that still belongs to the window |
| `Aggregator.Active` | assignments/task1/max_bytes.py:69-75 | every event from the start of the deque up to the last event processed lies in that event's window `[t - 4, t]` |
| `Aggregator.KeptInWindow` | assignments/task1/max_bytes.py:69-74 | on sorted events, once eviction stops at an event inside the window of `s[i]`, every event from there up to `s[i]` lies in that window |
| `Aggregator.MaxBytesTwice` | assignments/task1/max_bytes.py:83-86 | two calls on the same list return the same value, the reference answer of the original list; the list ends sorted and is a permutation of the original |
| `Sorting.SortByTimestamp` | assignments/task1/max_bytes.py:58 | the array ends sorted by non-decreasing timestamp and holds the same multiset of events |
| `Sorting.InsertAt` | assignments/task1/max_bytes.py:58 | one insertion step grows the sorted prefix by one, keeps the multiset of events and leaves the rest of the array unchanged |
| `Sorting.Swap` | assignments/task1/max_bytes.py:58 | exchanges two events and leaves the others and the multiset unchanged |
| `WindowSpec.MaxWindow` | assignments/task1/max_bytes.py:64-80 | the reference answer bounds the window total at every event timestamp and equals one of them; it is 0 for no events |
| `WindowSpec.BestOver` | assignments/task1/max_bytes.py:64-80 | the largest window total over the candidate timestamps bounds each of them and is attained by one of them; it is 0 for no candidates |
| `WindowSpec.PrefixMax` | assignments/task1/max_bytes.py:62-78 | the running maximum `max_sum`: 0 before any event; after each event, the larger of its previous value and the total of the window ending at that event over the events seen so far |
| `WindowSpec.PrefixMaxStep` | assignments/task1/max_bytes.py:78 | one more event raises the running maximum to the window total that ends at that event, if that total is larger |
| `WindowSpec.PrefixMaxBelow` | assignments/task1/max_bytes.py:62-78 | no running maximum over a prefix exceeds the reference answer of the whole list |
| `WindowSpec.WindowBelowPrefixMax` | assignments/task1/max_bytes.py:64-78 | on sorted events every window total at an event timestamp is at most the sweep's running maximum: the sweep misses no window |
| `WindowSpec.SweepIsMaxWindow` | assignments/task1/max_bytes.py:56-80 | on sorted events the sweep's running maximum equals the reference answer |
| `WindowSpec.MaxWindowPermutation` | assignments/task1/max_bytes.py:58 | the answer does not depend on the input order: any two lists with the same multiset of events have the same answer |
| `Events.Total` | assignments/task1/max_bytes.py:61-75 | `current_sum`: the sum of the bytes of the events in the deque, 0 for an empty deque |
| `Events.InWindow` | assignments/task1/max_bytes.py:69 | an event belongs to the window of time `t` exactly when `t - 4 <= timestamp <= t`. The width is the constant `Reach` = 4 of line 69, and eviction's test `timestamp < t - 4` is the negation of the lower bound |
| `Events.WindowBytes` | assignments/task1/max_bytes.py:64-75 | the total bytes of the events of a list that lie in the window `[t - 4, t]`, the quantity `current_sum` holds after the append |
| `Events.TotalFront` | assignments/task1/max_bytes.py:70-71 | popping the front event of the deque removes exactly its bytes from the running sum |
| `Events.WindowIsRun` | assignments/task1/max_bytes.py:69-75 | when exactly the run `s[lo..hi]` lies inside a window, that window's total is the run's total |
| `Events.WindowBytesPermutation` | assignments/task1/max_bytes.py:58 | a window total depends only on the multiset of events, not on their order |
| `Events.MemberBytesInWindow` | assignments/task1/max_bytes.py:74-75 | every event inside a window contributes its bytes in full |
| `Events.WindowBytesAllIn` | assignments/task1/max_bytes.py:74-75 | when all events lie in the window, the window total is the total of all bytes |
| `Properties.MaxWindowBounds` | assignments/task1/max_bytes.py:62-78 | the answer is at least the bytes of every single event, and at most the total of all bytes |
| `Properties.PairLaw` | assignments/task1/max_bytes.py:69 | two events are summed exactly when their timestamps differ by at most 4. Otherwise the answer is the larger of the two alone, so a gap of 5 is never summed |
| `Properties.SameTimestamp` | assignments/task1/test_max_bytes.py:179-188 | when all events share one timestamp the answer is the total of their bytes (ties are never split) |
| `Properties.RunBelowMaxWindow` | assignments/task1/max_bytes.py:64-78 | on sorted events every contiguous run whose timestamps span at most 4 totals no more than the answer |
| `Properties.MaxWindowIsRun` | assignments/task1/max_bytes.py:64-78 | on sorted, non-empty events the answer is the total of one contiguous run whose timestamps span at most 4 |
| `Scenarios.EmptyList` | assignments/task1/test_max_bytes.py:103-108 | no events give 0 |
| `Scenarios.SimpleCase` | assignments/task1/test_max_bytes.py:35-46 | the five events of the simple case give 450 |
| `Scenarios.SingleEvent` | assignments/task1/test_max_bytes.py:48-53 | one event of 100 bytes gives 100 |
| `Scenarios.NoOverlap` | assignments/task1/test_max_bytes.py:55-64 | events 10 apart give the largest single event, 300 |
| `Scenarios.AllInWindow` | assignments/task1/test_max_bytes.py:66-76 | four events within a span of 4 give their sum, 500 |
| `Scenarios.UnsortedEvents` | assignments/task1/test_max_bytes.py:78-88 | the unsorted list gives 500 |
| `Scenarios.SlidingWindow` | assignments/task1/test_max_bytes.py:90-101 | the sliding-window case gives 900 |
| `Scenarios.BoundaryCase` | assignments/task1/test_max_bytes.py:110-119 | events at 1, 5 and 6 give 500: the events at 1 and 6 are never summed |
| `Scenarios.IdenticalTimestamps` | assignments/task1/test_max_bytes.py:179-188 | three events at one timestamp give their sum, 450 |
| `Scenarios.ZeroBytes` | assignments/task1/test_max_bytes.py:190-199 | zero-byte events add nothing: the answer is 100 |
| `Demo.DemoBound` | assignments/task1/max_bytes.py:1-52 | no window ending at a timestamp of the 50-event list holds more than 1435 bytes |
| `Demo.DemoAnswer` | assignments/task1/test_max_bytes.py:121-177 | the answer for the 50-event list is 1435, attained by the window ending at 85 |

## Left out

- The built-in sort (Timsort) is modelled by an insertion sort with the same
  promise: the result is sorted by timestamp and is a permutation of the input.
  The model does not capture Timsort's stability, that is, the order of events
  with equal timestamps. The answer does not depend on that order
  (`WindowSpec.MaxWindowPermutation`).
- The deque is a Dafny sequence that the sweep reassigns. Its constant-time
  `popleft`/`append` and the O(n log n) running time are not modelled.
- Timestamps are integers. Python would also accept floats, and floating point
  is not modelled.
- Bytes are non-negative integers (`nat`). Negative byte counts are not
  modelled.
- Python integers are unbounded, like Dafny's, so there is no overflow to
  model.
- Records are modelled as a datatype with two fields. Dictionary key access is
  not modelled: a missing `timestamp` or `bytes` key, which would raise in Python,
  cannot occur in the model.
- The window width is the constant 4 of line 69. It is not a parameter.
- The `print` calls of lines 83 and 86 and their output are not modelled. The
  two calls themselves are `Aggregator.MaxBytesTwice`.
- The test runners and reporting scripts are not modelled. Neither are
  `assignments/task1/test_max_bytes.py` beyond the expected values it asserts,
  nor the files under `task2/`.

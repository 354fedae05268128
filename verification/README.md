# bjiff-calendar: a verified model of the calendar builder's data shaping

The program fetches the film-festival listing of one theatre (theatre id 97) and
then the screenings of every listed film. It writes all the screenings to an
iCalendar file. This project models the pure data shaping between those steps,
in Dafny:

- **Listing flattening** (`Catalogue`). The listing response holds
  recommendation groups. Each group holds sub-layers, and each sub-layer holds
  a film list. A reduce that starts from an empty accumulator pushes every film
  into one list. Source order is kept, and so are duplicates.
- **Request fan-out** (`Calendar.Tasks`). One schedule request is queued per
  listed film, carrying its theatre id and film id.
- **Completion handler** (`Schedules`). Each completed schedule response is a
  list of days, and each day has a `showList`. The handler pushes every
  screening onto one buffer, which only ever grows.
- **Event mapping** (`Events`). Each buffered screening becomes the attributes
  of one calendar event: title, description, start, end, categories, status,
  busy status and location. The whole buffer is mapped one to one.

Modules:

- `Types` holds the records.
- `Seqs` holds generic facts about concatenating lists of lists.
- `Catalogue`, `Schedules` and `Events` follow the three steps above.
- `Calendar` puts one run together. Completed responses reach it as a list in
  completion order.

Time formatting (`formatEventDateTime`) depends on a date library and on the
local time zone. It enters the model as a parameter of type
`Formatter = int -> seq<int>`, and nothing is assumed about it.

Two behaviours of the code shape what the model receives:

- The pattern `yyyy-M-d-H-m` (src/index.ts:68) yields five fields with no
  seconds. The formatter is a parameter, so no field count is fixed.
- No handler is attached to the promise `queue.add` returns
  (src/index.ts:87). Only the `completed` handler touches the buffer, so the
  model receives only completed responses.

## Model

| member | source | states |
|---|---|---|
| Catalogue.FetchAllMovies | src/index.ts:46-53 | The reduce over groups, sub-layers and films returns the concatenation of every sub-layer's film list in traversal order. Its length is the sum of all those list lengths, and as a multiset it is the union of all those lists, duplicates included. An empty `data` array gives an empty list. |
| Catalogue.PushRecommendation | src/index.ts:47-51 | The callback for one group appends that group's films to the accumulator: sub-layer after sub-layer, each film list in order. |
| Catalogue.PushFilms | src/index.ts:48-50 | The inner callback for one sub-layer appends its film list to the accumulator, every entry in order. |
| Catalogue.FlattenLength | src/index.ts:46-53 | The flattened listing has exactly as many films as the sub-layer lists of all groups together. |
| Catalogue.FlattenTraversal | src/index.ts:46-53 | Flattening group by group equals concatenating every sub-layer list: groups first, then sub-layers within a group. |
| Catalogue.FlattenBag | src/index.ts:48-49 | Every film entry is pushed unconditionally, so the result's multiset is the union of all sub-layer lists and duplicates survive. |
| Catalogue.FlattenMember | src/index.ts:46-53 | A film is in the flattened listing exactly when some sub-layer of some group lists it (both directions). |
| Catalogue.FlattenAt | src/index.ts:46-53 | The k-th film of sub-layer s of group g sits at index Position(g, s) + k. Position counts the films of all earlier groups and of the earlier sub-layers of g. |
| Catalogue.PositionOrder | src/index.ts:46-53 | Source order is kept: each earlier sub-layer's block of films ends before a later sub-layer's block begins. This holds for an earlier group, or for the same group and an earlier sub-layer. |
| Calendar.TasksOfListing | src/index.ts:85-88 | The run queues one request per flattened film, as many requests as the listing holds films. Every listed film's theatre id and film id has a request. |
| Calendar.TasksAt | src/index.ts:86-88 | The request for the k-th film of sub-layer s of group g is at index Position(g, s) + k and carries that film's theatre id and film id. Requests follow listing order, and a film listed twice is requested twice. |
| Schedules.OnCompleted | src/index.ts:90-95 | One completion leaves the buffer as the old buffer followed by every day's `showList`, in order. It grows by exactly the number of screenings in the response. |
| Schedules.Aggregate | src/index.ts:90-95 | Over any run of completions, what the buffer held before stays its prefix. Nothing is removed or reordered. |
| Schedules.AggregateAppends | src/index.ts:90-95 | After a run of completions, the buffer is the old buffer followed by each response's screenings, response after response. |
| Schedules.AggregateSplit | src/index.ts:90-95 | Handling two runs of completions in turn is the same as handling their concatenation. |
| Schedules.AggregateLength | src/index.ts:90-95 | The buffer grows by exactly the number of screenings the responses hold. |
| Schedules.AggregateOrderIndependent | src/index.ts:90-95 | Any order of completion gives the same screenings with the same multiplicity. Only their order differs. |
| Events.GenerateEventData | src/index.ts:70-79 | The event can be read back into film, cinema, hall, city-plus-address and the formatted start and end. Its single category is the cinema, and that cinema plus one space opens both the description and the location. Status is `CONFIRMED` and busy status is `BUSY`. |
| Events.GenerateEventDataInjective | src/index.ts:70-79 | Two screenings give equal events exactly when they agree on film, cinema, hall, city concatenated with address, and formatted start and end. Ids and `meetingInfo` do not reach the event, and neither does the split between city and address. |
| Events.ToEvents | src/index.ts:99 | Mapping the buffer gives exactly one event per screening, in the same order. The event at each index is the one generated from the screening at that index. |
| Events.ToEventsAppend | src/index.ts:99 | The events of a longer buffer are the events of its parts, concatenated. |
| Events.ToEventsPermutation | src/index.ts:99 | Reordering the buffer only reorders the events. |
| Calendar.CalendarEvents | src/index.ts:90-99 | The idle handler's event list has exactly one event per screening in the completed responses. Event k is generated from the k-th screening, taking responses in completion order and days in order. |
| Calendar.CalendarEventsExtend | src/index.ts:90-99 | Later completions only add events behind the events already there. |
| Calendar.CalendarEventsOrderIndependent | src/index.ts:90-99 | The event content does not depend on the order in which requests complete. Only the event order does. |
| Calendar.EmptyListing | src/index.ts:46-53 | An empty listing queues no requests and yields no events, and raises no error. |
| Calendar.OneFilmListing | src/index.ts:46-53 | A listing with one group, one sub-layer and one film queues exactly one request, for that film's theatre id and film id. |
| Calendar.OneScreening | src/index.ts:70-79 | A single screening of "Test Film" at "Cinema A", "Hall 1", "City", "Addr 1" yields exactly one event. Its description is "Cinema A Hall 1", its location "Cinema A CityAddr 1", its category ["Cinema A"], its status CONFIRMED and its busy status BUSY. |

## Left out

- HTTP requests through `got` (src/index.ts:41-44, 58-66) are network I/O. `FetchAllMovies` takes the parsed listing response as its argument, and each schedule response enters the model as a list of days.
- JSON parsing and shape mismatches are left out. Responses are modelled as well-typed records.
- The bounded-concurrency queue (`PQueue` with concurrency 5) and its `completed` and `idle` events (src/index.ts:82, 87, 90, 98) are left out. Scheduling and completion order are nondeterministic. Completions are given to the model as a list in any order, and the order-independence lemmas cover every order.
- Failed schedule requests are left out. The code has no per-request error handling, and what the runtime does with the unhandled rejection is outside this model.
- Serialisation by `ics.createEvents` and its error check (src/index.ts:99-101) are left out. It is a third-party library. The model stops at the list of event attributes handed to it.
- Clearing `./dist` and writing `bjiff.ics` (src/index.ts:103-106) are filesystem I/O.
- The body of `formatEventDateTime` (src/index.ts:68) is left out. It relies on `date-fns` and the local time zone. It is the `Formatter` parameter, and no calendar arithmetic is stated about it.
- `showTime` and `showEndTime` are JavaScript numbers. They are modelled as integers of epoch milliseconds, and they reach the formatter unchanged.

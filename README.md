# PollSomewhere poll store, modelled in Dafny

PollSomewhere lets users create timed polls, vote, and view tallies. Its
server keeps an in-memory store made of two maps. `pollDetails` maps a poll
name to the poll (name, end time, options). `pollResults` maps a poll name to
that poll's ledger, which maps each voter to the option they chose last.
Five handlers act on the store:

- `addPoll` validates a request body and creates a poll with an empty ledger.
- `list` (and `getPollDetails`) returns every poll sorted by a rank. The rank
  puts open polls first, soonest-closing first, then closed polls, most
  recently closed first.
- `vote` records a voter's choice. A later vote by the same voter replaces
  the earlier one.
- `getResult` counts each option's voters and adds a synthetic `total` entry.
- `clear` empties both maps.

The client checks every poll it receives with `parsePoll`.

The model has four modules:

- `Json` (`json.dfy`): the untyped values that handlers receive.
  - `Value` covers undefined, null, booleans, numbers, strings, arrays and
    objects.
  - A number is NaN or an exact real.
  - A request body or query is a `map<string, Value>`. Reading an absent
    property gives `Undefined`.
- `Routes` (`routes.dfy`): the server store from `server/src/routes.ts`.
  - Pure parts are functions: the guard chains of `addPoll` and `vote`
    (`CheckAdd`, `CheckVote`), `comparePolls`, `first`, and a declarative
    tally (`Tally`).
  - The store is the class `PollStore`. Its fields are the two maps plus
    `order`, the insertion order of a JavaScript `Map`, which `list` depends
    on for ties.
  - Its methods change the maps in place. `GetResult` and `List` are proved
    against the declarative definitions through loops with invariants.
  - `Valid()` holds the store invariants that every handler keeps:
    - both maps have the same key set;
    - each poll is stored under its own name and has at least two options;
    - every recorded vote is one of its poll's options;
    - `order` lists each stored name exactly once.
- `PollClient` (`poll.dfy`): `parsePoll` from `client/src/poll.ts`.
- `Scenarios` (`scenarios.dfy`): request sequences from the server's test
  file, verified against the store's contracts.

The clock is a parameter `now` (milliseconds). Each call reads it once.

Where the specification and the code disagree, the model follows the code:

- A poll is open while `now <= endTime`. The instant `endTime` itself counts
  as open.
- `addPoll` reports a duplicate name (`{added: false}`) right after the name
  check. A duplicate is never rejected for its minutes or options.
- Option names are not checked. They may repeat, need not be strings, and
  may be `"total"`. The sum of the option counts equals `total` when no
  option is named `"total"` and every vote is for a declared option
  (`TallySumsToTotal`). When one is, its voters
  are counted twice under `total` (`TallyTotalCollision`).
- `vote` ignores the end time, so votes after the close are accepted
  (`VoteIgnoresEndTime`).

## Model

| member | source | states |
|---|---|---|
| `Json.Round` | server/src/routes.ts:55 | `Math.round` gives an integer within one half of its argument. |
| `Json.RoundFixesExactlyIntegers` | server/src/routes.ts:55 | `Math.round(x) === x` holds exactly when x is a whole number. |
| `Routes.MinutesGuard` | server/src/routes.ts:55-58 | The test `isNaN(m) \|\| m < 1 \|\| Math.round(m) !== m` on a number fails exactly for positive whole numbers. When it fails, the minutes give at least one minute of milliseconds. |
| `Routes.CheckAdd` | server/src/routes.ts:43-73 | A missing, non-string or empty name is rejected first. A name present in either map is then reported as a duplicate, whatever the minutes and options are. Creation happens iff the name is new, the minutes are a positive integer, and the options are an array of at least 2 entries. Otherwise the specific rejection is given: minutes not a number, minutes not a positive integer, options not an array, or too few options (with the length). A created poll has the name, `now + minutes*60000` as its end time, and the options verbatim. |
| `Routes.PollStore.constructor` | server/src/routes.ts:16-18 | The store starts with both maps empty and satisfies its invariant. |
| `Routes.PollStore.AddPoll` | server/src/routes.ts:42-80 | A rejection or a duplicate leaves both maps and the order unchanged, and the response reports it. A creation stores the poll under its name, installs an empty ledger, appends the name to the order, and reports `added: true` with the poll. The store invariant is kept, including that both maps have the same keys. |
| `Routes.PollJson` | server/src/routes.ts:79 | A poll is sent as an object with exactly the properties name, endTime and options. |
| `Routes.ComparePolls` | server/src/routes.ts:84-89 | Negative exactly when the first poll's rank is below the second's. Two open polls compare by end time ascending. Two closed polls compare by end time descending. An open poll comes before a closed one when their end times sum to less than 1e15. |
| `Routes.SortedListOrder` | server/src/routes.ts:82-83 | In a list sorted by rank, open polls come soonest-closing first and closed polls most-recently-closed first. A closed poll can precede an open one only when their end times sum to at least 1e15. |
| `Routes.Insert` | server/src/routes.ts:100 | One insertion step of the sort: the list grows by one element, and the inserted poll is in it. |
| `Routes.InsertKeepsSorted` | server/src/routes.ts:100 | One insertion step of the sort keeps the list sorted by rank. |
| `Routes.InsertPermutes` | server/src/routes.ts:100 | One insertion step adds exactly the inserted poll to the multiset of polls. |
| `Routes.InsertIsStable` | server/src/routes.ts:100 | One insertion step puts the poll after every poll of equal rank. |
| `Routes.InInsertionOrder` | server/src/routes.ts:99 | `Array.from(pollDetails.values())` lists the poll of each name, in insertion order. |
| `Routes.InsertionOrderListsEachPollOnce` | server/src/routes.ts:99 | With distinct names that are stored under their own names, the listed multiset holds each named poll exactly once. |
| `Routes.StoredPollsNamed` | server/src/routes.ts:99 | When the names are exactly the stored keys, the polls they name are exactly the stored polls. |
| `Routes.PollStore.List` | server/src/routes.ts:98-109 | The result is sorted ascending by rank. It is a permutation of the stored polls. For every rank, the polls of that rank appear in insertion order, as a stable sort gives them. |
| `Routes.CheckVote` | server/src/routes.ts:113-133 | The checks come in this order: poll name missing or empty; no ledger for the name; voter name missing or empty; option not a string or not among the poll's options. Each has its own rejection, and acceptance happens iff all checks pass. An accepted vote carries the body's poll, voter and option, and the option is one of that poll's options. |
| `Routes.VoteIgnoresEndTime` | server/src/routes.ts:112-144 | Vote validation does not depend on any poll's end time, so votes after the close are accepted. |
| `Routes.PollStore.Vote` | server/src/routes.ts:112-144 | A rejection changes nothing. An accepted vote reports `replaced` iff the voter already had an entry. It sets the voter's entry to the option, and leaves other voters, other polls' ledgers, the poll map and the order unchanged. It grows the ledger by one iff `replaced` is false. The store invariant is kept. |
| `Routes.First` | server/src/routes.ts:188-196 | A non-empty array gives the result of its first element, and an empty array gives undefined. A string gives itself. Any other value gives undefined. A name is found only in a string or a non-empty array. |
| `Routes.FirstUnwrapsNestedString` | server/src/routes.ts:185-196 | A string wrapped in any number of one-element arrays is returned unchanged. |
| `Routes.FirstRejectsNestedScalar` | server/src/routes.ts:188-196 | A value that is neither a string nor an array gives undefined, however deeply it is wrapped. |
| `Routes.FirstOfRepeatedParameter` | server/src/routes.ts:185-190 | A repeated parameter (an array) gives the result of its first element; the rest are ignored. |
| `Routes.CountAfterVote` | server/src/routes.ts:141 | Recording a vote moves exactly one voter from their previous option's count to the new option's count. |
| `Routes.ZeroCounts` | server/src/routes.ts:158-165 | The initial counts have exactly the keys "total" and the declared options, all 0. |
| `Routes.CountVote` | server/src/routes.ts:167-174 | Handling one ledger entry keeps the key set. It adds one to "total", or two when the chosen option is itself "total". It adds one to the chosen option when that option is a key. Every other key is unchanged. |
| `Routes.CountVoteStep` | server/src/routes.ts:166-175 | Handling one more voter's entry keeps the keys and yields the tally of the ledger extended by that entry. |
| `Routes.AddVotes` | server/src/routes.ts:166-175 | Visiting all ledger entries, in any order, yields for each key the number of voters who chose it, plus the ledger size for "total". |
| `Routes.CountsAreTally` | server/src/routes.ts:158-176 | Counts with the declared keys that match the whole ledger are the declarative tally. |
| `Routes.PollStore.GetResult` | server/src/routes.ts:147-177 | A name parameter without a string gives `missing "name"`. A name with no ledger is rejected with that name. Otherwise the result is the tally of that poll's ledger over its options, or over no options when the poll map lacks the name. |
| `Routes.TallyOfNoVotes` | server/src/routes.ts:158-165 | With no votes, every declared option and the total are 0. |
| `Routes.TallyTotalIsVoterCount` | server/src/routes.ts:166-170 | When no voter chose an option named "total", the total equals the number of voters. |
| `Routes.TallyTotalCollision` | server/src/routes.ts:159-173 | When an option is named "total", the total entry is the number of voters plus the number of voters who chose "total". |
| `Routes.TallySumsToTotal` | server/src/routes.ts:158-175 | Assume that no option is named "total" and that every vote is for a declared option. Then the counts, summed over the distinct options, equal the total, and the total equals the number of voters. |
| `Routes.PollStore.Clear` | server/src/routes.ts:180-184 | Both maps and the order become empty, and the invariant holds. |
| `PollClient.ParsePoll` | client/src/poll.ts:17-39 | The result is undefined when the value is not a record, `name` is not a string, `endTime` is not a non-negative non-NaN number, or `options` is not an array of at least 2 entries. Otherwise it is defined, and it holds exactly the input's name, end time and options, so it satisfies the RI. |
| `PollClient.ParsePollIgnoresOtherFields` | client/src/poll.ts:38 | Properties other than name, endTime and options do not affect the result. |
| `PollClient.ServerPollParses` | client/src/poll.ts:4-9 | A server poll with at least two options and a non-negative end time, sent as JSON, parses into a client poll with the same name, end time and options. |
| `Scenarios.TallyOfOneVote` | server/src/routes_test.ts:382-399 | With a single vote, the chosen option counts 1, the total counts 1, and every other option counts 0. |
| `Scenarios.MiloCreated` | server/src/routes_test.ts:139-169 | Adding "milo" for 5 minutes at instant 0 is answered `added: true` with its poll. A second add of "milo" is answered `added: false`. Afterwards the store holds the poll "milo" with an empty ledger. |
| `Scenarios.MiloFirstVote` | server/src/routes_test.ts:297-305 | A voter's first vote is answered `replaced: false`. Afterwards the ledger maps that voter to the chosen option. |
| `Scenarios.MiloSecondVote` | server/src/routes_test.ts:319-327 | The same voter's second vote is answered `replaced: true`. Afterwards the ledger holds only the new choice. |
| `Scenarios.MiloTallyValue` | server/src/routes_test.ts:381-399 | The tally of "milo" with A's single vote is exactly: the chosen option 1, the other option 0, and total 1. |
| `Scenarios.MiloTally` | server/src/routes_test.ts:381-399 | Querying the result of "milo", even with the name given as a repeated parameter, answers that exact tally. |
| `Scenarios.MiloRejections` | server/src/routes_test.ts:241-280 | A vote for the unknown poll "eat?" is rejected as poll not found. A vote for the undeclared option "l" is rejected as an invalid option. |
| `Scenarios.ClearScenario` | server/src/routes.ts:180-184 | After a poll is added and the store is cleared, the list is empty. A result query for the cleared poll is rejected as no such poll, and one without a name as a missing name. A vote for the cleared poll is rejected as poll not found. |

## Left out

- HTTP plumbing is not modelled: Express requests and responses, status codes, and `index.ts` route wiring. `AddPoll`, `Vote` and `GetResult` take the body or query as a map and return a `Response` value; `Rejected` stands for status 400. `List` returns the sorted polls that `list` wraps in `{polls: ...}`. `Clear` returns nothing, where the source always sends the constant `{clear: true}`.
- Rejection messages are not modelled as text. Each message is an error kind, and the kind carries any value the message interpolates (the minutes, the options length, the poll name). Turning a JavaScript value into text is not modelled.
- `Date.now()` is a parameter. The real comparator reads the clock again on every comparison, so a poll can change status during one sort. The model reads the clock once per call.
- Numbers are exact reals plus a NaN tag, and Infinity is left out. In the source, Infinity can arrive in two ways.
  - `JSON.parse` turns a too-large literal such as `1e400` into Infinity. The minutes guard accepts it, and the poll gets an infinite end time.
  - A large finite `minutes`, such as `1e305`, overflows to Infinity when the end time is computed.
- The model computes `minutes * 60 * 1000` and the end time as exact integers, with no overflow and no precision loss above 2^53.
- PollClient.ServerPollParses: does not cover an end time that overflows to Infinity. `JSON.stringify` sends such an end time as `null`, so the client's `parsePoll` rejects the server's own poll. Model numbers cannot overflow, so the lemma does not see this case.
- JavaScript `Map` equality on keys is not modelled. Tally keys and option membership compare values structurally. `Object.fromEntries` turns keys into property names, which would merge, say, the number 3 with the string "3"; the model does not do that. `TallyResult` is an unordered map, so the model also loses the order of the sent properties. In the source, "total" comes first, then the options in declared order, with integer-like names moved to the front, and the client's results view displays them in that order.
- `Array.prototype.sort` is modelled as a stable insertion sort. The comparator is a consistent total preorder for a single `now`. Under such a comparator, every stable sort gives the same list.
- `isRecord` is taken to hold exactly of objects, because `client/src/record.ts` is not part of this model. An array or a scalar has no `name` property, so `parsePoll` rejects it at the next check either way.
- Logging is left out: `parsePoll` writes its rejections to the console.
- The `dummy` greeting handler is not modelled; it does not touch the store.
- The React components of the client are not modelled: rendering, `fetch` calls, and display arithmetic on floats.
- The tests' shared module state is not modelled. The `Scenarios` module verifies a few of the test sequences statically, each starting from a store in a stated state.

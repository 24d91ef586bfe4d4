/** The server's in-memory poll store: poll creation with validation, listing
    by rank, last-write-wins voting, tallying and reset. The clock is the
    parameter `now` (milliseconds since the epoch). */
module Routes {
  import opened Json

  /** A poll as stored and sent to clients. RI: |options| >= 2. The options
      are kept exactly as the request gave them, whatever their types. */
  datatype Poll = Poll(name: string, endTime: int, options: seq<Value>)

  /** One poll's votes: voter name to the option that voter chose last. */
  type Ledger = map<string, string>

  /** Why a request was refused (sent with status 400). The kinds that the
      source interpolates into its message carry the interpolated value. */
  datatype Rejection =
    | InvalidName                       // 'missing or invalid "name" parameter'
    | MinutesNotNumber(minutes: Value)  // 'minutes' is not a number: ...
    | MinutesNotPositiveInteger(minutes: Value)
    | OptionsNotArray                   // '"options" is not an array'
    | TooFewOptions(length: nat)        // 'options' has length < 2, ...
    | PollNotFound(name: string)        // poll does not exist <name>
    | InvalidVoterName                  // 'missing or invalid "voterName" parameter'
    | InvalidOption                     // 'missing or invalid "option" parameter'
    | MissingName                       // 'missing "name" parameter'
    | NoSuchPoll(name: string)          // poll does not exist with name: <name>

  /** The bodies the handlers send. */
  datatype Response =
    | Rejected(reason: Rejection)
    | AddResult(added: bool, poll: Option<Poll>)
    | VoteResult(replaced: bool)
    | TallyResult(result: map<Value, nat>)

  const MillisPerMinute: int := 60 * 1000
  /** The constant 1e15 that ranks closed polls after open ones. */
  const Horizon: int := 1_000_000_000_000_000
  /** The synthetic key of the tally that counts all voters. */
  const Total: Value := Str("total")

  // ---------------------------------------------------------------------
  // addPoll: the guard chain

  datatype AddDecision =
    | AddRejected(why: Rejection)
    | AddDuplicate
    | AddCreate(poll: Poll)

  /** `minutes` is a number, not NaN, at least 1 and a whole number. */
  predicate IsPositiveInteger(v: Value) {
    v.Number? && v.n.Finite? && v.n.val >= 1.0 && v.n.val.Floor as real == v.n.val
  }

  /** `options` is an array with at least two entries. */
  predicate IsOptionArray(v: Value) {
    v.Arr? && |v.elems| >= 2
  }

  /** The test `isNaN(minutes) || minutes < 1 || Math.round(minutes) !== minutes`
      fails exactly for the positive whole numbers. */
  lemma MinutesGuard(minutes: Value)
    ensures minutes.Number? ==>
      ((minutes.n.NaN? || minutes.n.val < 1.0 || Round(minutes.n.val) as real != minutes.n.val)
       <==> !IsPositiveInteger(minutes))
    ensures IsPositiveInteger(minutes) ==>
      Round(minutes.n.val) == minutes.n.val.Floor && minutes.n.val.Floor * MillisPerMinute >= MillisPerMinute
  {
    if minutes.Number? && minutes.n.Finite? {
      RoundFixesExactlyIntegers(minutes.n.val);
    }
  }

  /** What addPoll decides for a request body, given the current maps. */
  function CheckAdd(body: map<string, Value>, details: map<string, Poll>,
                    results: map<string, Ledger>, now: int): (d: AddDecision)
    ensures var name := Field(body, "name");
      !IsNonEmptyString(name) ==> d == AddRejected(InvalidName)
    // a name already in use is reported before minutes and options are looked at
    ensures var name := Field(body, "name");
      IsNonEmptyString(name) && (name.s in details || name.s in results) ==> d == AddDuplicate
    ensures var name, minutes, options := Field(body, "name"), Field(body, "minutes"), Field(body, "options");
      d.AddCreate? <==>
        IsNonEmptyString(name) && name.s !in details && name.s !in results &&
        IsPositiveInteger(minutes) && IsOptionArray(options)
    ensures var name, minutes, options := Field(body, "name"), Field(body, "minutes"), Field(body, "options");
      d.AddCreate? ==>
        d.poll == Poll(name.s, now + minutes.n.val.Floor * MillisPerMinute, options.elems) &&
        |d.poll.options| >= 2 && d.poll.endTime >= now + MillisPerMinute
    ensures var name, minutes := Field(body, "name"), Field(body, "minutes");
      IsNonEmptyString(name) && name.s !in details && name.s !in results ==>
        (!minutes.Number? ==> d == AddRejected(MinutesNotNumber(minutes))) &&
        (minutes.Number? && !IsPositiveInteger(minutes) ==> d == AddRejected(MinutesNotPositiveInteger(minutes)))
    ensures var name, minutes, options := Field(body, "name"), Field(body, "minutes"), Field(body, "options");
      IsNonEmptyString(name) && name.s !in details && name.s !in results && IsPositiveInteger(minutes) ==>
        (!options.Arr? ==> d == AddRejected(OptionsNotArray)) &&
        (options.Arr? && |options.elems| < 2 ==> d == AddRejected(TooFewOptions(|options.elems|)))
  {
    var name := Field(body, "name");
    if !name.Str? || |name.s| == 0 then AddRejected(InvalidName)
    else if name.s in details || name.s in results then AddDuplicate
    else
      var minutes := Field(body, "minutes");
      MinutesGuard(minutes);
      if !minutes.Number? then AddRejected(MinutesNotNumber(minutes))
      else if minutes.n.NaN? || minutes.n.val < 1.0 || Round(minutes.n.val) as real != minutes.n.val then
        AddRejected(MinutesNotPositiveInteger(minutes))
      else
        var options := Field(body, "options");
        if !options.Arr? then AddRejected(OptionsNotArray)
        else if |options.elems| < 2 then AddRejected(TooFewOptions(|options.elems|))
        else AddCreate(Poll(name.s, now + Round(minutes.n.val) * 60 * 1000, options.elems))
  }

  /** The JSON object a poll is sent as in `{added: true, poll}` and
      `{polls: [...]}`. */
  function PollJson(p: Poll): (v: Value)
    ensures v.Obj? && v.fields.Keys == {"name", "endTime", "options"}
  {
    Obj(map["name" := Str(p.name), "endTime" := Number(Finite(p.endTime as real)), "options" := Arr(p.options)])
  }

  // ---------------------------------------------------------------------
  // comparePolls and the order of list

  /** A poll is open up to and including the instant endTime. */
  predicate IsOpen(p: Poll, now: int) {
    now <= p.endTime
  }

  /** The synthetic sort key of comparePolls. */
  function Rank(p: Poll, now: int): int {
    if now <= p.endTime then p.endTime else Horizon - p.endTime
  }

  /** comparePolls with a single reading of the clock: negative when a sorts
      before b. */
  function ComparePolls(a: Poll, b: Poll, now: int): (c: int)
    ensures c < 0 <==> Rank(a, now) < Rank(b, now)
    // two open polls: the one that closes first comes first
    ensures IsOpen(a, now) && IsOpen(b, now) ==> c == a.endTime - b.endTime
    // two closed polls: the one that closed most recently comes first
    ensures !IsOpen(a, now) && !IsOpen(b, now) ==> c == b.endTime - a.endTime
    // an open poll comes before a closed one when the end times are below the horizon
    ensures IsOpen(a, now) && !IsOpen(b, now) && a.endTime + b.endTime < Horizon ==> c < 0
  {
    var endA := if now <= a.endTime then a.endTime else Horizon - a.endTime;
    var endB := if now <= b.endTime then b.endTime else Horizon - b.endTime;
    endA - endB
  }

  ghost predicate SortedByRank(ps: seq<Poll>, now: int) {
    forall i, j :: 0 <= i < j < |ps| ==> Rank(ps[i], now) <= Rank(ps[j], now)
  }

  /** What a list sorted by rank means for its polls: open polls closing
      soonest first, closed polls closed most recently first, and a closed
      poll ahead of an open one only when their end times sum to the horizon
      or more. */
  lemma SortedListOrder(ps: seq<Poll>, now: int, i: int, j: int)
    requires SortedByRank(ps, now) && 0 <= i < j < |ps|
    ensures IsOpen(ps[i], now) && IsOpen(ps[j], now) ==> ps[i].endTime <= ps[j].endTime
    ensures !IsOpen(ps[i], now) && !IsOpen(ps[j], now) ==> ps[i].endTime >= ps[j].endTime
    ensures !IsOpen(ps[i], now) && IsOpen(ps[j], now) ==> ps[i].endTime + ps[j].endTime >= Horizon
  {
  }

  /** The polls of ps whose rank is k, in the order of ps. */
  function WithRank(ps: seq<Poll>, k: int, now: int): seq<Poll> {
    if ps == [] then []
    else (if Rank(ps[0], now) == k then [ps[0]] else []) + WithRank(ps[1..], k, now)
  }

  /** One step of a stable sort: x goes after every poll that does not
      compare greater than it. */
  function Insert(ps: seq<Poll>, x: Poll, now: int): (r: seq<Poll>)
    ensures |r| == |ps| + 1
    ensures x in r
  {
    if ps == [] then [x]
    else if ComparePolls(x, ps[0], now) < 0 then [x] + ps
    else [ps[0]] + Insert(ps[1..], x, now)
  }

  lemma {:induction false} InsertPermutes(ps: seq<Poll>, x: Poll, now: int)
    ensures multiset(Insert(ps, x, now)) == multiset(ps) + multiset{x}
  {
    if ps != [] && ComparePolls(x, ps[0], now) >= 0 {
      InsertPermutes(ps[1..], x, now);
      assert ps == [ps[0]] + ps[1..];
    }
  }

  lemma {:induction false} InsertKeepsSorted(ps: seq<Poll>, x: Poll, now: int)
    requires SortedByRank(ps, now)
    ensures SortedByRank(Insert(ps, x, now), now)
  {
    if ps != [] && ComparePolls(x, ps[0], now) >= 0 {
      var rest := Insert(ps[1..], x, now);
      InsertKeepsSorted(ps[1..], x, now);
      InsertPermutes(ps[1..], x, now);
      forall j | 0 <= j < |rest| ensures Rank(ps[0], now) <= Rank(rest[j], now) {
        assert rest[j] in multiset(ps[1..]) + multiset{x};
        if rest[j] in ps[1..] {
          var i :| 0 <= i < |ps[1..]| && ps[1..][i] == rest[j];
          assert ps[i + 1] == rest[j];
        }
      }
    }
  }

  lemma {:induction false} WithRankAppend(ps: seq<Poll>, x: Poll, k: int, now: int)
    ensures WithRank(ps + [x], k, now) == WithRank(ps, k, now) + (if Rank(x, now) == k then [x] else [])
  {
    if ps == [] {
      assert [x][1..] == [];
    } else {
      assert (ps + [x])[1..] == ps[1..] + [x];
      WithRankAppend(ps[1..], x, k, now);
    }
  }

  /** The polls of rank below that of every poll in ps are none. */
  lemma {:induction false} WithRankBelowIsEmpty(ps: seq<Poll>, k: int, now: int)
    requires forall p :: p in ps ==> k < Rank(p, now)
    ensures WithRank(ps, k, now) == []
  {
    if ps != [] {
      assert ps[0] in ps;
      WithRankBelowIsEmpty(ps[1..], k, now);
    }
  }

  /** Inserting x adds it at the end of the polls of equal rank. */
  lemma WithRankCons(p: Poll, ps: seq<Poll>, k: int, now: int)
    ensures WithRank([p] + ps, k, now) == (if Rank(p, now) == k then [p] else []) + WithRank(ps, k, now)
  {
    assert ([p] + ps)[1..] == ps;
  }

  lemma SortedTail(ps: seq<Poll>, now: int)
    requires ps != [] && SortedByRank(ps, now)
    ensures SortedByRank(ps[1..], now)
    ensures forall p :: p in ps ==> Rank(ps[0], now) <= Rank(p, now)
  {
    forall p | p in ps ensures Rank(ps[0], now) <= Rank(p, now) {
      var i :| 0 <= i < |ps| && ps[i] == p;
      if i > 0 {
        assert Rank(ps[0], now) <= Rank(ps[i], now);
      }
    }
  }

  /** Inserting x adds it at the end of the polls of equal rank. */
  lemma {:induction false} InsertIsStable(ps: seq<Poll>, x: Poll, k: int, now: int)
    requires SortedByRank(ps, now)
    ensures WithRank(Insert(ps, x, now), k, now) == WithRank(ps, k, now) + (if Rank(x, now) == k then [x] else [])
  {
    if ps == [] {
      WithRankCons(x, [], k, now);
    } else {
      SortedTail(ps, now);
      var tail := if Rank(x, now) == k then [x] else [];
      if ComparePolls(x, ps[0], now) < 0 {
        WithRankCons(x, ps, k, now);
        if Rank(x, now) == k {
          WithRankBelowIsEmpty(ps, k, now);
        }
      } else {
        var head := if Rank(ps[0], now) == k then [ps[0]] else [];
        InsertIsStable(ps[1..], x, k, now);
        WithRankCons(ps[0], Insert(ps[1..], x, now), k, now);
        WithRankCons(ps[0], ps[1..], k, now);
        assert ps == [ps[0]] + ps[1..];
        assert WithRank(Insert(ps, x, now), k, now) == head + (WithRank(ps[1..], k, now) + tail);
        assert WithRank(ps, k, now) == head + WithRank(ps[1..], k, now);
      }
    }
  }

  /** Array.from(pollDetails.values()): the stored polls in insertion order. */
  function InInsertionOrder(details: map<string, Poll>, order: seq<string>): (ps: seq<Poll>)
    requires forall n :: n in order ==> n in details
    ensures |ps| == |order| && forall i :: 0 <= i < |order| ==> ps[i] == details[order[i]]
  {
    if order == [] then []
    else [details[order[0]]] + InInsertionOrder(details, order[1..])
  }

  ghost predicate NoDuplicates(s: seq<string>) {
    forall i, j :: 0 <= i < j < |s| ==> s[i] != s[j]
  }

  /** The polls stored under the given names. */
  ghost function PollsNamed(details: map<string, Poll>, names: seq<string>): set<Poll>
    requires forall n :: n in names ==> n in details
  {
    if names == [] then {} else {details[names[0]]} + PollsNamed(details, names[1..])
  }

  lemma {:induction false} PollsNamedMembers(details: map<string, Poll>, names: seq<string>, p: Poll)
    requires forall n :: n in names ==> n in details && details[n].name == n
    ensures p in PollsNamed(details, names) <==> p.name in names && p == details[p.name]
  {
    if names != [] {
      PollsNamedMembers(details, names[1..], p);
      assert names == [names[0]] + names[1..];
    }
  }

  /** Listing the polls in insertion order gives each poll named once exactly once. */
  lemma {:induction false} InsertionOrderListsEachPollOnce(details: map<string, Poll>, order: seq<string>)
    requires NoDuplicates(order)
    requires forall n :: n in order ==> n in details && details[n].name == n
    ensures multiset(InInsertionOrder(details, order)) == multiset(PollsNamed(details, order))
  {
    if order != [] {
      var rest := order[1..];
      assert NoDuplicates(rest) by {
        forall i, j | 0 <= i < j < |rest| ensures rest[i] != rest[j] {
          assert rest[i] == order[i + 1] && rest[j] == order[j + 1];
        }
      }
      InsertionOrderListsEachPollOnce(details, rest);
      var first := details[order[0]];
      PollsNamedMembers(details, rest, first);
      assert order[0] !in rest by {
        forall j | 0 <= j < |rest| ensures rest[j] != order[0] {
          assert rest[j] == order[j + 1];
        }
      }
      assert multiset({first} + PollsNamed(details, rest)) == multiset{first} + multiset(PollsNamed(details, rest));
    }
  }

  /** When the names are exactly the stored ones, they name every stored poll. */
  lemma StoredPollsNamed(details: map<string, Poll>, order: seq<string>)
    requires forall n :: n in order <==> n in details
    requires forall n :: n in details ==> details[n].name == n
    ensures PollsNamed(details, order) == details.Values
  {
    forall p ensures p in PollsNamed(details, order) <==> p in details.Values {
      PollsNamedMembers(details, order, p);
    }
  }

  // ---------------------------------------------------------------------
  // vote: the guard chain

  datatype VoteDecision =
    | VoteRejected(why: Rejection)
    | VoteAccepted(poll: string, voter: string, option: string)

  /** What vote decides for a request body, given the current maps. The
      poll's end time plays no part: votes after the close are accepted. */
  function CheckVote(body: map<string, Value>, details: map<string, Poll>,
                     results: map<string, Ledger>): (d: VoteDecision)
    ensures var name := Field(body, "name");
      !IsNonEmptyString(name) ==> d == VoteRejected(InvalidName)
    ensures var name := Field(body, "name");
      IsNonEmptyString(name) && name.s !in results ==> d == VoteRejected(PollNotFound(name.s))
    ensures var name, voter := Field(body, "name"), Field(body, "voterName");
      IsNonEmptyString(name) && name.s in results && !IsNonEmptyString(voter) ==>
        d == VoteRejected(InvalidVoterName)
    ensures var name, voter, option := Field(body, "name"), Field(body, "voterName"), Field(body, "option");
      IsNonEmptyString(name) && name.s in results && IsNonEmptyString(voter) &&
      !(name.s in details && option.Str? && option in details[name.s].options) ==>
        d == VoteRejected(InvalidOption)
    ensures var name, voter, option := Field(body, "name"), Field(body, "voterName"), Field(body, "option");
      d.VoteAccepted? <==>
        IsNonEmptyString(name) && name.s in results && IsNonEmptyString(voter) &&
        name.s in details && option.Str? && option in details[name.s].options
    ensures var name, voter, option := Field(body, "name"), Field(body, "voterName"), Field(body, "option");
      d.VoteAccepted? ==>
        d.poll == name.s && d.voter == voter.s && d.option == option.s &&
        d.poll in results && d.poll in details && Str(d.option) in details[d.poll].options
  {
    var name := Field(body, "name");
    if !name.Str? || |name.s| == 0 then VoteRejected(InvalidName)
    else if name.s !in results then VoteRejected(PollNotFound(name.s))
    else
      var voterName := Field(body, "voterName");
      if !voterName.Str? || |voterName.s| == 0 then VoteRejected(InvalidVoterName)
      else
        var option := Field(body, "option");
        if !option.Str? || !(name.s in details && option in details[name.s].options) then
          VoteRejected(InvalidOption)
        else VoteAccepted(name.s, voterName.s, option.s)
  }

  /** Vote validation reads only the poll names and options: changing any
      poll's end time changes no decision. */
  lemma VoteIgnoresEndTime(body: map<string, Value>, details: map<string, Poll>,
                           later: map<string, Poll>, results: map<string, Ledger>)
    requires later.Keys == details.Keys
    requires forall n :: n in details ==> later[n].options == details[n].options
    ensures CheckVote(body, later, results) == CheckVote(body, details, results)
  {
  }

  // ---------------------------------------------------------------------
  // getResult: the tally and the query parameter

  /** The first value of a query parameter: express gives repeated
      parameters as an array. */
  function First(param: Value): (r: Option<string>)
    ensures param.Arr? && |param.elems| > 0 ==> r == First(param.elems[0])
    ensures param.Arr? && |param.elems| == 0 ==> r == None
    ensures param.Str? ==> r == Some(param.s)
    ensures !param.Arr? && !param.Str? ==> r == None
    ensures r.Some? ==> param.Str? || (param.Arr? && |param.elems| > 0)
  {
    match param
    case Arr(elems) =>
      if |elems| == 0 then None  // param[0] is undefined
      else First(elems[0])
    case Str(s) => Some(s)
    case _ => None
  }

  /** v wrapped in n single-element arrays. */
  function Nest(n: nat, v: Value): Value {
    if n == 0 then v else Arr([Nest(n - 1, v)])
  }

  /** However deeply a string is wrapped in arrays, First finds it. */
  lemma {:induction false} FirstUnwrapsNestedString(n: nat, s: string)
    ensures First(Nest(n, Str(s))) == Some(s)
  {
    if n > 0 {
      FirstUnwrapsNestedString(n - 1, s);
    }
  }

  /** A value that is neither a string nor an array gives no name, however
      deeply it is wrapped. */
  lemma {:induction false} FirstRejectsNestedScalar(n: nat, v: Value)
    requires !v.Str? && !v.Arr?
    ensures First(Nest(n, v)) == None
  {
    if n > 0 {
      FirstRejectsNestedScalar(n - 1, v);
    }
  }

  /** A repeated parameter yields its first value; the others are ignored. */
  lemma FirstOfRepeatedParameter(v: Value, rest: seq<Value>)
    ensures First(Arr([v] + rest)) == First(v)
  {
  }

  /** The voters whose current choice is k. */
  ghost function ChoseOption(ledger: Ledger, k: Value): set<string> {
    set v | v in ledger && Str(ledger[v]) == k
  }

  /** The number of voters whose current choice is k. */
  ghost function Count(ledger: Ledger, k: Value): nat {
    |ChoseOption(ledger, k)|
  }

  ghost function OptionSet(options: seq<Value>): set<Value> {
    set o | o in options
  }

  /** The tally getResult sends: every declared option and "total", each
      option counting the voters that chose it, "total" counting every voter
      and then, because the key is shared, the voters that chose an option
      named "total" a second time. */
  ghost function Tally(options: seq<Value>, ledger: Ledger): map<Value, nat> {
    map k | k in {Total} + OptionSet(options) ::
      Count(ledger, k) + (if k == Total then |ledger| else 0)
  }

  /** The options getResult finds for a name (none when the poll map lacks it). */
  function OptionsOf(details: map<string, Poll>, name: string): seq<Value> {
    if name in details then details[name].options else []
  }

  /** Recording a vote moves one voter's count from the old choice to the
      new one. */
  lemma ChoseAfterVote(ledger: Ledger, voter: string, option: string, k: Value)
    ensures ChoseOption(ledger[voter := option], k) ==
      (ChoseOption(ledger, k) - {voter}) + (if Str(option) == k then {voter} else {})
  {
  }

  lemma ChoseBeforeVote(ledger: Ledger, voter: string, k: Value)
    ensures ChoseOption(ledger, k) ==
      (ChoseOption(ledger, k) - {voter}) + (if voter in ledger && Str(ledger[voter]) == k then {voter} else {})
  {
  }

  lemma CardinalityWithout(s: set<string>, v: string, extra: set<string>)
    requires extra <= {v}
    ensures |(s - {v}) + extra| == |s - {v}| + |extra|
  {
    assert (s - {v}) * extra == {};
  }

  lemma CountAfterVote(ledger: Ledger, voter: string, option: string, k: Value)
    ensures Count(ledger[voter := option], k) ==
      Count(ledger, k)
      - (if voter in ledger && Str(ledger[voter]) == k then 1 else 0)
      + (if Str(option) == k then 1 else 0)
  {
    var others := ChoseOption(ledger, k) - {voter};
    var added: set<string> := if Str(option) == k then {voter} else {};
    var removed: set<string> := if voter in ledger && Str(ledger[voter]) == k then {voter} else {};
    ChoseAfterVote(ledger, voter, option, k);
    ChoseBeforeVote(ledger, voter, k);
    CardinalityWithout(ChoseOption(ledger, k), voter, added);
    CardinalityWithout(ChoseOption(ledger, k), voter, removed);
  }

  /** counts holds, for each of its keys, the tally of the votes in seen. */
  ghost predicate CountsMatch(counts: map<Value, nat>, seen: Ledger) {
    forall k :: k in counts ==> counts[k] == Count(seen, k) + (if k == Total then |seen| else 0)
  }

  /** One pass of getResult's second loop: the voter's entry adds one to the
      total and one to the chosen option when that option is a key. */
  function CountVote(counts: map<Value, nat>, opt: string): (r: map<Value, nat>)
    requires Total in counts
    ensures r.Keys == counts.Keys
    ensures r[Total] == counts[Total] + (if Str(opt) == Total then 2 else 1)
    ensures forall k :: k in counts && k != Total ==>
      r[k] == counts[k] + (if k == Str(opt) then 1 else 0)
  {
    var counts := counts[Total := counts[Total] + 1];
    if Str(opt) in counts then counts[Str(opt) := counts[Str(opt)] + 1] else counts
  }

  lemma CountVoteStep(counts: map<Value, nat>, seen: Ledger, voter: string, opt: string)
    requires voter !in seen && Total in counts
    requires CountsMatch(counts, seen)
    ensures CountVote(counts, opt).Keys == counts.Keys
    ensures CountsMatch(CountVote(counts, opt), seen[voter := opt])
  {
    var after := CountVote(counts, opt);
    forall k | k in after
      ensures after[k] == Count(seen[voter := opt], k) + (if k == Total then |seen[voter := opt]| else 0)
    {
      CountAfterVote(seen, voter, opt, k);
    }
  }

  lemma CountsAreTally(counts: map<Value, nat>, options: seq<Value>, ledger: Ledger)
    requires counts.Keys == {Total} + OptionSet(options)
    requires CountsMatch(counts, ledger)
    ensures counts == Tally(options, ledger)
  {
  }

  /** getResult's first loop: "total" and every declared option start at 0. */
  method ZeroCounts(options: seq<Value>) returns (counts: map<Value, nat>)
    ensures counts.Keys == {Total} + OptionSet(options)
    ensures forall k :: k in counts ==> counts[k] == 0
  {
    counts := map[Total := 0];
    for i := 0 to |options|
      invariant counts.Keys == {Total} + OptionSet(options[..i])
      invariant forall k :: k in counts ==> counts[k] == 0
    {
      assert options[..i + 1] == options[..i] + [options[i]];
      counts := counts[options[i] := 0];
    }
    assert options[..|options|] == options;
  }

  /** getResult's second loop: each voter's entry, visited one at a time in
      any order, adds to the total and to its option's count. */
  method AddVotes(ledger: Ledger, zero: map<Value, nat>) returns (counts: map<Value, nat>)
    requires Total in zero
    requires forall k :: k in zero ==> zero[k] == 0
    ensures counts.Keys == zero.Keys
    ensures CountsMatch(counts, ledger)
  {
    counts := zero;
    var pending := ledger.Keys;
    forall k | k in counts ensures ChoseOption(ledger - pending, k) == {} {
    }
    while pending != {}
      invariant pending <= ledger.Keys
      invariant counts.Keys == zero.Keys
      invariant CountsMatch(counts, ledger - pending)
      decreases pending
    {
      var voter :| voter in pending;
      var opt := ledger[voter];
      VisitVoter(ledger, pending, voter);
      CountVoteStep(counts, ledger - pending, voter, opt);
      counts := CountVote(counts, opt);
      pending := pending - {voter};
    }
    assert ledger - pending == ledger;
  }

  /** Visiting one more voter extends the visited part of the ledger by that
      voter's entry. */
  lemma VisitVoter(ledger: Ledger, pending: set<string>, voter: string)
    requires voter in pending && pending <= ledger.Keys
    ensures voter !in ledger - pending
    ensures ledger - (pending - {voter}) == (ledger - pending)[voter := ledger[voter]]
  {
  }

  /** With no votes every declared option and the total are 0. */
  lemma TallyOfNoVotes(options: seq<Value>)
    ensures forall o :: o in options ==> o in Tally(options, map[]) && Tally(options, map[])[o] == 0
    ensures Total in Tally(options, map[]) && Tally(options, map[])[Total] == 0
  {
    forall o | o in options ensures ChoseOption(map[], o) == {} {
    }
    assert ChoseOption(map[], Total) == {};
  }

  /** The voters whose current choice is one of ks. */
  ghost function ChoseAny(ledger: Ledger, ks: seq<Value>): set<string> {
    set v | v in ledger && Str(ledger[v]) in ks
  }

  lemma {:induction false} CountsOverDistinctKeys(ledger: Ledger, ks: seq<Value>)
    requires forall i, j :: 0 <= i < j < |ks| ==> ks[i] != ks[j]
    ensures SumCounts(ledger, ks) == |ChoseAny(ledger, ks)|
  {
    if ks == [] {
      assert ChoseAny(ledger, ks) == {};
    } else {
      var rest := ks[1..];
      CountsOverDistinctKeys(ledger, rest);
      var head := ChoseOption(ledger, ks[0]);
      var tail := ChoseAny(ledger, rest);
      assert ChoseAny(ledger, ks) == head + tail by {
        assert ks == [ks[0]] + rest;
      }
      assert head * tail == {} by {
        forall j | 0 <= j < |rest| ensures rest[j] != ks[0] {
          assert rest[j] == ks[j + 1];
        }
        forall v | v in tail ensures v !in head {
          assert Str(ledger[v]) in rest;
        }
      }
    }
  }

  ghost function SumCounts(ledger: Ledger, ks: seq<Value>): nat {
    if ks == [] then 0 else Count(ledger, ks[0]) + SumCounts(ledger, ks[1..])
  }

  /** The sum of the entries of r at the keys ks. */
  ghost function SumAt(r: map<Value, nat>, ks: seq<Value>): nat
    requires forall k :: k in ks ==> k in r
  {
    if ks == [] then 0 else r[ks[0]] + SumAt(r, ks[1..])
  }

  lemma {:induction false} SumAtTally(options: seq<Value>, ledger: Ledger, ks: seq<Value>)
    requires forall k :: k in ks ==> k in options && k != Total
    ensures forall k :: k in ks ==> k in Tally(options, ledger)
    ensures SumAt(Tally(options, ledger), ks) == SumCounts(ledger, ks)
  {
    if ks != [] {
      SumAtTally(options, ledger, ks[1..]);
    }
  }

  /** When no voter chose an option named "total", the total is the number
      of voters. */
  lemma TallyTotalIsVoterCount(options: seq<Value>, ledger: Ledger)
    requires forall v :: v in ledger ==> Str(ledger[v]) != Total
    ensures Total in Tally(options, ledger)
    ensures Tally(options, ledger)[Total] == |ledger|
  {
    assert ChoseOption(ledger, Total) == {};
  }

  /** An option named "total" shares its key with the total: its voters are
      counted twice there and its own count is not reported. */
  lemma TallyTotalCollision(options: seq<Value>, ledger: Ledger)
    requires Total in options
    ensures Total in Tally(options, ledger)
    ensures Tally(options, ledger)[Total] == |ledger| + Count(ledger, Total)
  {
  }

  lemma EveryVoteCounted(options: seq<Value>, ledger: Ledger, ks: seq<Value>)
    requires forall v :: v in ledger ==> Str(ledger[v]) in options
    requires OptionSet(ks) == OptionSet(options)
    ensures ChoseAny(ledger, ks) == ledger.Keys
  {
    forall v | v in ledger ensures Str(ledger[v]) in ks {
      assert Str(ledger[v]) in OptionSet(options);
    }
  }

  /** When no option is named "total" and every vote is for a declared
      option, the counts of the distinct options add up to the total, which
      is the number of voters. */
  lemma TallySumsToTotal(options: seq<Value>, ledger: Ledger, ks: seq<Value>)
    requires Total !in options
    requires forall v :: v in ledger ==> Str(ledger[v]) in options
    requires forall i, j :: 0 <= i < j < |ks| ==> ks[i] != ks[j]
    requires OptionSet(ks) == OptionSet(options)
    ensures forall k :: k in ks ==> k in Tally(options, ledger)
    ensures Tally(options, ledger)[Total] == |ledger|
    ensures SumAt(Tally(options, ledger), ks) == Tally(options, ledger)[Total]
  {
    assert forall k :: k in ks ==> k in OptionSet(options);
    SumAtTally(options, ledger, ks);
    CountsOverDistinctKeys(ledger, ks);
    EveryVoteCounted(options, ledger, ks);
    TallyTotalIsVoterCount(options, ledger);
  }

  // ---------------------------------------------------------------------
  // The store

  class PollStore {
    /** pollDetails: poll name to poll. */
    var details: map<string, Poll>
    /** pollResults: poll name to that poll's ledger. */
    var results: map<string, Ledger>
    /** The names in the order they were added (the iteration order of a
        JavaScript Map). */
    var order: seq<string>

    ghost predicate Valid()
      reads this
    {
      && details.Keys == results.Keys
      && (forall n :: n in details ==> details[n].name == n && |details[n].options| >= 2)
      && (forall n, v :: n in results && v in results[n] ==> Str(results[n][v]) in details[n].options)
      && NoDuplicates(order)
      && (forall n :: n in order <==> n in details)
    }

    constructor ()
      ensures Valid()
      ensures details == map[] && results == map[] && order == []
    {
      details, results, order := map[], map[], [];
    }

    /** addPoll: validate the body, then store the poll with an empty ledger. */
    method AddPoll(body: map<string, Value>, now: int) returns (r: Response)
      requires Valid()
      modifies this
      ensures Valid()
      ensures match CheckAdd(body, old(details), old(results), now)
        case AddCreate(p) =>
          && r == AddResult(true, Some(p))
          && details == old(details)[p.name := p]
          && results == old(results)[p.name := map[]]
          && order == old(order) + [p.name]
        case AddDuplicate =>
          r == AddResult(false, None) && details == old(details) && results == old(results) && order == old(order)
        case AddRejected(why) =>
          r == Rejected(why) && details == old(details) && results == old(results) && order == old(order)
    {
      var d := CheckAdd(body, details, results, now);
      match d
      case AddRejected(why) =>
        r := Rejected(why);
      case AddDuplicate =>
        r := AddResult(false, None);
      case AddCreate(poll) =>
        details := details[poll.name := poll];
        results := results[poll.name := map[]];
        order := order + [poll.name];
        r := AddResult(true, Some(poll));
    }

    /** list / getPollDetails: the stored polls sorted by rank, with polls of
        equal rank in the order they were added. */
    method List(now: int) returns (ps: seq<Poll>)
      requires Valid()
      ensures SortedByRank(ps, now)
      ensures multiset(ps) == multiset(details.Values)
      ensures forall k :: WithRank(ps, k, now) == WithRank(InInsertionOrder(details, order), k, now)
    {
      var vals := InInsertionOrder(details, order);
      ps := [];
      for i := 0 to |vals|
        invariant SortedByRank(ps, now)
        invariant multiset(ps) == multiset(vals[..i])
        invariant forall k :: WithRank(ps, k, now) == WithRank(vals[..i], k, now)
      {
        assert vals[..i + 1] == vals[..i] + [vals[i]];
        forall k ensures WithRank(Insert(ps, vals[i], now), k, now) == WithRank(vals[..i + 1], k, now) {
          InsertIsStable(ps, vals[i], k, now);
          WithRankAppend(vals[..i], vals[i], k, now);
        }
        InsertKeepsSorted(ps, vals[i], now);
        InsertPermutes(ps, vals[i], now);
        ps := Insert(ps, vals[i], now);
      }
      assert vals[..|vals|] == vals;
      InsertionOrderListsEachPollOnce(details, order);
      StoredPollsNamed(details, order);
    }

    /** vote: validate the body, then record the voter's choice, replacing
        any earlier one. */
    method Vote(body: map<string, Value>) returns (r: Response)
      requires Valid()
      modifies this
      ensures Valid()
      ensures details == old(details) && order == old(order)
      ensures match CheckVote(body, old(details), old(results))
        case VoteRejected(why) =>
          r == Rejected(why) && results == old(results)
        case VoteAccepted(name, voter, option) =>
          && r == VoteResult(voter in old(results)[name])
          && results.Keys == old(results).Keys
          && results[name] == old(results)[name][voter := option]
          && (forall n :: n in results && n != name ==> results[n] == old(results)[n])
          && |results[name]| == |old(results)[name]| + (if r.replaced then 0 else 1)
    {
      var d := CheckVote(body, details, results);
      match d
      case VoteRejected(why) =>
        r := Rejected(why);
      case VoteAccepted(name, voter, option) =>
        var ledger := results[name];
        r := VoteResult(voter in ledger);
        ledger := ledger[voter := option];
        results := results[name := ledger];
    }

    /** getResult: count the current choices of the named poll's voters. */
    method GetResult(query: map<string, Value>) returns (r: Response)
      ensures var name := First(Field(query, "name"));
        && (name.None? ==> r == Rejected(MissingName))
        && (name.Some? && name.value !in results ==> r == Rejected(NoSuchPoll(name.value)))
        && (name.Some? && name.value in results ==>
              r == TallyResult(Tally(OptionsOf(details, name.value), results[name.value])))
    {
      var name := First(Field(query, "name"));
      if name.None? {
        return Rejected(MissingName);
      }
      if name.value !in results {
        return Rejected(NoSuchPoll(name.value));
      }
      var options := if name.value in details then details[name.value].options else [];
      var counts := ZeroCounts(options);
      counts := AddVotes(results[name.value], counts);
      CountsAreTally(counts, options, results[name.value]);
      r := TallyResult(counts);
    }

    /** clear: forget every poll and every vote. */
    method Clear()
      modifies this
      ensures Valid()
      ensures details == map[] && results == map[] && order == []
    {
      details := map[];
      results := map[];
      order := [];
    }
  }
}

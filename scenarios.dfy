/** Request sequences from the server's test suite, checked against the
    contracts of the store: each assertion follows from the contracts alone. */
module Scenarios {
  import opened Json
  import opened Routes

  function AddBody(name: string, minutes: real, options: seq<Value>): map<string, Value> {
    map["name" := Str(name), "minutes" := Number(Finite(minutes)), "options" := Arr(options)]
  }

  function VoteBody(name: string, voter: string, option: string): map<string, Value> {
    map["name" := Str(name), "voterName" := Str(voter), "option" := Str(option)]
  }

  /** The tally of a poll with a single vote. */
  lemma TallyOfOneVote(options: seq<Value>, voter: string, option: string)
    ensures Total in Tally(options, map[voter := option])
    ensures forall o :: o in options ==> o in Tally(options, map[voter := option])
    ensures forall k :: k in Tally(options, map[voter := option]) ==>
      Tally(options, map[voter := option])[k] ==
        (if k == Total then 1 else 0) + (if Str(option) == k then 1 else 0)
  {
    forall k ensures Count(map[voter := option], k) == if Str(option) == k then 1 else 0 {
      CountAfterVote(map[], voter, option, k);
      assert ChoseOption(map[], k) == {};
    }
  }

  const Milo := Poll("milo", 300000, [Str("lp"), Str("ish")])

  /** Create "milo" at instant 0; a second add under the same name is
      reported as not added, even with bad minutes and options. */
  method MiloCreated() returns (store: PollStore, added: Response, again: Response)
    ensures fresh(store) && store.Valid()
    ensures store.details == map["milo" := Milo] && store.results == map["milo" := map[]]
    ensures added == AddResult(true, Some(Milo))
    ensures again == AddResult(false, None)
  {
    store := new PollStore();
    assert (5.0).Floor == 5;
    added := store.AddPoll(AddBody("milo", 5.0, [Str("lp"), Str("ish")]), 0);
    again := store.AddPoll(AddBody("milo", 3.1, [Str("x")]), 0);
  }

  /** A first vote is not a replacement. */
  method MiloFirstVote(store: PollStore) returns (first: Response)
    requires store.Valid()
    requires store.details == map["milo" := Milo] && store.results == map["milo" := map[]]
    modifies store
    ensures store.Valid()
    ensures store.details == map["milo" := Milo] && store.results == map["milo" := map["A" := "lp"]]
    ensures first == VoteResult(false)
  {
    first := store.Vote(VoteBody("milo", "A", "lp"));
  }

  /** A second vote by the same voter replaces the first. */
  method MiloSecondVote(store: PollStore) returns (second: Response)
    requires store.Valid()
    requires store.details == map["milo" := Milo] && store.results == map["milo" := map["A" := "lp"]]
    modifies store
    ensures store.Valid()
    ensures store.details == map["milo" := Milo] && store.results == map["milo" := map["A" := "ish"]]
    ensures second == VoteResult(true)
  {
    second := store.Vote(VoteBody("milo", "A", "ish"));
    assert map["A" := "lp"]["A" := "ish"] == map["A" := "ish"];
  }

  /** The tally of "milo" when A's current vote is for `option`. */
  lemma MiloTallyValue(option: string, other: string)
    requires {option, other} == {"lp", "ish"}
    ensures Tally(Milo.options, map["A" := option]) == map[Total := 1, Str(option) := 1, Str(other) := 0]
  {
    TallyOfOneVote(Milo.options, "A", option);
    assert Str(option) in Milo.options && Str(other) in Milo.options;
    assert OptionSet(Milo.options) == {Str(option), Str(other)};
  }

  /** With A's current vote for `option`, that option counts 1, the other 0,
      and the total 1; the name may come as a repeated parameter. */
  method MiloTally(store: PollStore, option: string, other: string) returns (tally: Response)
    requires {option, other} == {"lp", "ish"}
    requires store.details == map["milo" := Milo] && store.results == map["milo" := map["A" := option]]
    ensures tally == TallyResult(map[Total := 1, Str(option) := 1, Str(other) := 0])
  {
    tally := store.GetResult(map["name" := Arr([Str("milo"), Str("kei")])]);
    MiloTallyValue(option, other);
  }

  /** Votes for an unknown poll or an undeclared option are refused. */
  method MiloRejections(store: PollStore) returns (unknown: Response, badOption: Response)
    requires store.Valid()
    requires store.details == map["milo" := Milo]
    modifies store
    ensures unknown == Rejected(PollNotFound("eat?"))
    ensures badOption == Rejected(InvalidOption)
  {
    unknown := store.Vote(VoteBody("eat?", "A", "lp"));
    badOption := store.Vote(VoteBody("milo", "A", "l"));
  }

  /** The "milo" sequence of the server's tests, in their order: create
      (routes_test.ts:139-169), vote (297-305), tally (381-399), vote again
      (319-327), tally again, and the refused votes (241-280). Each step's
      precondition follows from the previous step's contract. */
  method MiloScenario() {
    var store, added, again := MiloCreated();
    var first := MiloFirstVote(store);
    var tally := MiloTally(store, "lp", "ish");
    var second := MiloSecondVote(store);
    tally := MiloTally(store, "ish", "lp");
    var unknown, badOption := MiloRejections(store);
  }

  /** After clear nothing is listed and no poll is found. */
  method ClearScenario(now: int) returns (polls: seq<Poll>, tally: Response, missing: Response, vote: Response)
    ensures polls == []
    ensures tally == Rejected(NoSuchPoll("kei"))
    ensures missing == Rejected(MissingName)
    ensures vote == Rejected(PollNotFound("kei"))
  {
    var store := new PollStore();
    var added := store.AddPoll(AddBody("kei", 3.0, [Str("apple"), Str("banana")]), now);
    assert added.added;
    store.Clear();
    polls := store.List(now);
    assert multiset(polls) == multiset{};
    tally := store.GetResult(map["name" := Str("kei")]);
    missing := store.GetResult(map[]);
    vote := store.Vote(VoteBody("kei", "B", "apple"));
  }
}

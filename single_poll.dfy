/**
 * The single-poll voting chaincode (chaincode.go).
 *
 * The world state holds at most one poll, under the fixed key "poll".
 * `createPoll` (also run by `Init` and by `Invoke("init")`) overwrites it
 * with a fresh open poll and a tally table `Count` that has one zero entry
 * per option; `vote` checks the choice, appends a `Vote` and bumps the
 * matching tally entries; the queries `getVoteCount` and `getVotes` return
 * the tally table and the votes.
 *
 * A stored poll is decoded with its `json.Unmarshal` error ignored, so a
 * missing key reads as the zero `Poll` (closed, no options, no votes).
 * The pure functions `CreatePollStep`, `CastVoteStep`, `InvokeStep` and
 * `Query` specify each operation over the world state; the `Ledger` class
 * carries the source's loops and is proved to follow them.
 */
module SinglePoll {
  import opened Strconv
  import opened Shim

  const POLL_KEY := "poll"
  /** The voter recorded on every vote. */
  const VOTER := "admin"
  /** The owner recorded on every poll. */
  const OWNER := "admins"

  datatype Vote = Vote(option: string, user: string)

  datatype VoteCount = VoteCount(option: string, countTotal: int)

  datatype Poll = Poll(
    title: string,
    question: string,
    isOpen: bool,
    maxVotes: int,
    options: seq<string>,
    votes: seq<Vote>,
    owner: string,
    count: seq<VoteCount>)

  /** What decoding leaves in `Poll{}` when there is nothing stored. */
  const ZERO_POLL := Poll("", "", false, 0, [], [], "", [])

  datatype Error =
    | ArgumentCount
    | MaxVotesNotNumeric
    | GetFailed
    | PollEnded
    | InvalidOption
    | PutFailed
    | UnknownFunction(name: string)

  /** The bytes an operation returns, before JSON encoding. */
  datatype Payload = NoPayload | CountList(counts: seq<VoteCount>) | VoteList(votes: seq<Vote>)

  datatype Response = Success(payload: Payload) | Failure(error: Error)

  /** The world state: keys to decoded polls. */
  type Store = map<string, Poll>

  /** The outcome of a state-changing operation: its response and the new world state. */
  datatype Step = Step(response: Response, store: Store)

  /** `GetState` followed by `json.Unmarshal` into `Poll{}`, its error ignored. */
  function Lookup(s: Store, key: string): (p: Poll)
    ensures key in s ==> p == s[key]
    ensures key !in s ==> !p.isOpen && p.options == [] && p.votes == [] && p.count == [] && p.maxVotes == 0
  {
    if key in s then s[key] else ZERO_POLL
  }

  // ---------------------------------------------------------------------
  // Tallies

  /** The number of votes for `option`. */
  function Tally(votes: seq<Vote>, option: string): nat {
    if |votes| == 0 then 0
    else (if votes[0].option == option then 1 else 0) + Tally(votes[1..], option)
  }

  /** The tally table lists the options in order, each with the number of votes cast for it. */
  predicate TallyConsistent(p: Poll) {
    && |p.count| == |p.options|
    && (forall i :: 0 <= i < |p.count| ==> p.count[i].option == p.options[i])
    && (forall i :: 0 <= i < |p.count| ==> p.count[i].countTotal == Tally(p.votes, p.count[i].option))
  }

  /** Every vote is for one of the poll's options. */
  predicate VotesValid(p: Poll) {
    forall i :: 0 <= i < |p.votes| ==> p.votes[i].option in p.options
  }

  predicate Consistent(p: Poll) {
    TallyConsistent(p) && VotesValid(p)
  }

  predicate Distinct(options: seq<string>) {
    forall i, j :: 0 <= i < j < |options| ==> options[i] != options[j]
  }

  function SumCounts(count: seq<VoteCount>): int {
    if |count| == 0 then 0 else count[0].countTotal + SumCounts(count[1..])
  }

  // ---------------------------------------------------------------------
  // The polls the operations build

  function ZeroCounts(options: seq<string>): seq<VoteCount> {
    seq(|options|, i requires 0 <= i < |options| => VoteCount(options[i], 0))
  }

  /** An open poll with no votes and a zero tally per option, in the order given. */
  function NewPoll(title: string, question: string, maxVotes: int, options: seq<string>): (p: Poll)
    ensures p.title == title && p.question == question && p.maxVotes == maxVotes && p.owner == OWNER
    ensures p.isOpen && p.votes == [] && p.options == options
    ensures |p.count| == |options| && forall i :: 0 <= i < |p.count| ==> p.count[i] == VoteCount(options[i], 0)
    ensures Consistent(p)
  {
    Poll(title, question, true, maxVotes, options, [], OWNER, ZeroCounts(options))
  }

  function Bump(c: VoteCount, choice: string): VoteCount {
    if c.option == choice then c.(countTotal := c.countTotal + 1) else c
  }

  /**
   * `p` with one more vote by `VOTER` for `choice` and every tally entry
   * named `choice` one higher; everything else as it was.
   */
  function WithVote(p: Poll, choice: string): (q: Poll)
    ensures q.votes == p.votes + [Vote(choice, VOTER)]
    ensures |q.count| == |p.count|
    ensures forall i :: 0 <= i < |q.count| ==>
      q.count[i].option == p.count[i].option
      && q.count[i].countTotal == p.count[i].countTotal + (if p.count[i].option == choice then 1 else 0)
    ensures q.(votes := p.votes, count := p.count) == p
  {
    p.(votes := p.votes + [Vote(choice, VOTER)],
       count := seq(|p.count|, i requires 0 <= i < |p.count| => Bump(p.count[i], choice)))
  }

  // ---------------------------------------------------------------------
  // The operations, as functions of the world state

  function CreatePollStep(s: Store, args: seq<string>, io: Faults): (st: Step)
    ensures st.response.Failure? ==> st.store == s
    ensures st.response.Success? ==>
      st.response.payload == NoPayload && POLL_KEY in st.store && st.store == s[POLL_KEY := st.store[POLL_KEY]]
  {
    if |args| < 5 then Step(Failure(ArgumentCount), s)
    else
      var maxVotes := Atoi(args[2]);
      if maxVotes.Err? then Step(Failure(MaxVotesNotNumeric), s)
      else if io.putFails then Step(Failure(PutFailed), s)
      else Step(Success(NoPayload), s[POLL_KEY := NewPoll(args[0], args[1], maxVotes.value, args[3..])])
  }

  function CastVoteStep(s: Store, args: seq<string>, io: Faults): (st: Step)
    ensures st.response.Failure? ==> st.store == s
    ensures st.response.Success? ==>
      st.response.payload == NoPayload && POLL_KEY in st.store && st.store == s[POLL_KEY := st.store[POLL_KEY]]
  {
    if |args| != 1 then Step(Failure(ArgumentCount), s)
    else if io.getFails then Step(Failure(GetFailed), s)
    else
      var p := Lookup(s, POLL_KEY);
      if !p.isOpen then Step(Failure(PollEnded), s)
      else if args[0] !in p.options then Step(Failure(InvalidOption), s)
      else if io.putFails then Step(Failure(PutFailed), s)
      else Step(Success(NoPayload), s[POLL_KEY := WithVote(p, args[0])])
  }

  function InvokeStep(s: Store, name: string, args: seq<string>, io: Faults): (st: Step)
    ensures st.response.Failure? ==> st.store == s
    ensures st.store == s || st.store == s[POLL_KEY := Lookup(st.store, POLL_KEY)]
    ensures name != "init" && name != "vote" ==> st == Step(Failure(UnknownFunction(name)), s)
  {
    if name == "init" then CreatePollStep(s, args, io)
    else if name == "vote" then CastVoteStep(s, args, io)
    else Step(Failure(UnknownFunction(name)), s)
  }

  function GetVoteCount(s: Store, io: Faults): (r: Response)
    ensures r.Success? <==> !io.getFails
    ensures r.Success? ==> r.payload.CountList? && r.payload.counts == Lookup(s, POLL_KEY).count
  {
    if io.getFails then Failure(GetFailed) else Success(CountList(Lookup(s, POLL_KEY).count))
  }

  function GetVotes(s: Store, io: Faults): (r: Response)
    ensures r.Success? <==> !io.getFails
    ensures r.Success? ==> r.payload.VoteList? && r.payload.votes == Lookup(s, POLL_KEY).votes
  {
    if io.getFails then Failure(GetFailed) else Success(VoteList(Lookup(s, POLL_KEY).votes))
  }

  /** Queries read the world state and cannot change it; their arguments are ignored. */
  function Query(s: Store, name: string, args: seq<string>, io: Faults): (r: Response)
    ensures name != "getVoteCount" && name != "getVotes" ==> r == Failure(UnknownFunction(name))
    ensures r.Success? ==> !io.getFails
  {
    if name == "getVoteCount" then GetVoteCount(s, io)
    else if name == "getVotes" then GetVotes(s, io)
    else Failure(UnknownFunction(name))
  }

  // ---------------------------------------------------------------------
  // What createPoll promises

  /** Fewer than five arguments, or a `maxVotes` that is not a decimal integer, fail and write nothing. */
  lemma CreatePollRejects(s: Store, args: seq<string>, io: Faults)
    requires |args| < 5 || Atoi(args[2]).Err?
    ensures CreatePollStep(s, args, io) ==
      Step(Failure(if |args| < 5 then ArgumentCount else MaxVotesNotNumeric), s)
  {
  }

  /**
   * A successful create replaces whatever poll was stored by an open poll
   * with no votes whose options are `args[3..]`, each with a zero tally.
   */
  lemma CreatePollStores(s: Store, args: seq<string>, io: Faults)
    requires |args| >= 5 && Atoi(args[2]).Ok? && !io.putFails
    ensures CreatePollStep(s, args, io).response == Success(NoPayload)
    ensures var p := Lookup(CreatePollStep(s, args, io).store, POLL_KEY);
      && p.title == args[0] && p.question == args[1] && p.isOpen
      && p.maxVotes == Atoi(args[2]).value && p.owner == OWNER
      && p.votes == [] && p.options == args[3..] && |p.options| >= 2
      && |p.count| == |args| - 3
      && (forall i :: 0 <= i < |p.count| ==> p.count[i] == VoteCount(args[3 + i], 0))
      && Consistent(p)
  {
  }

  // ---------------------------------------------------------------------
  // What vote promises

  /** A vote succeeds exactly when the choice is an option of an open poll and the stub cooperates. */
  lemma CastVoteSucceedsIff(s: Store, args: seq<string>, io: Faults)
    ensures CastVoteStep(s, args, io).response.Success? <==>
      && |args| == 1 && !io.getFails && !io.putFails
      && Lookup(s, POLL_KEY).isOpen && args[0] in Lookup(s, POLL_KEY).options
  {
  }

  /** A closed poll rejects every choice, valid or not, and so does a ledger where no poll was created. */
  lemma ClosedPollRejects(s: Store, choice: string, io: Faults)
    requires !io.getFails && (POLL_KEY !in s || !s[POLL_KEY].isOpen)
    ensures CastVoteStep(s, [choice], io) == Step(Failure(PollEnded), s)
  {
  }

  /** A choice that is not an option of the open poll is rejected and nothing is written. */
  lemma InvalidChoiceRejected(s: Store, choice: string, io: Faults)
    requires !io.getFails && Lookup(s, POLL_KEY).isOpen && choice !in Lookup(s, POLL_KEY).options
    ensures CastVoteStep(s, [choice], io) == Step(Failure(InvalidOption), s)
  {
  }

  /**
   * A successful vote appends one vote by `VOTER`, adds one to every tally
   * entry for the choice, and leaves every other entry and field alone.
   */
  lemma CastVoteRecords(s: Store, choice: string)
    requires Lookup(s, POLL_KEY).isOpen && choice in Lookup(s, POLL_KEY).options
    ensures CastVoteStep(s, [choice], NO_FAULTS).response == Success(NoPayload)
    ensures var p, q := Lookup(s, POLL_KEY), Lookup(CastVoteStep(s, [choice], NO_FAULTS).store, POLL_KEY);
      && q.votes == p.votes + [Vote(choice, VOTER)]
      && |q.count| == |p.count|
      && (forall i :: 0 <= i < |q.count| ==>
            && q.count[i].option == p.count[i].option
            && q.count[i].countTotal == p.count[i].countTotal + (if p.count[i].option == choice then 1 else 0))
      && q.(votes := p.votes, count := p.count) == p
  {
  }

  lemma {:induction false} TallyAppend(votes: seq<Vote>, v: Vote, option: string)
    ensures Tally(votes + [v], option) == Tally(votes, option) + (if v.option == option then 1 else 0)
  {
    if |votes| == 0 {
      assert [v][1..] == [];
    } else {
      assert (votes + [v])[1..] == votes[1..] + [v];
      TallyAppend(votes[1..], v, option);
    }
  }

  /** After a successful vote the choice has one more vote and every other option as many as before. */
  lemma CastVoteTallies(s: Store, choice: string, option: string)
    requires Lookup(s, POLL_KEY).isOpen && choice in Lookup(s, POLL_KEY).options
    ensures Tally(Lookup(CastVoteStep(s, [choice], NO_FAULTS).store, POLL_KEY).votes, option) ==
      Tally(Lookup(s, POLL_KEY).votes, option) + (if option == choice then 1 else 0)
  {
    TallyAppend(Lookup(s, POLL_KEY).votes, Vote(choice, VOTER), option);
  }

  /** The votes that successive successful calls of `vote` append, one per choice. */
  function CastVotes(s: Store, choices: seq<string>): Store {
    if |choices| == 0 then s else CastVotes(CastVoteStep(s, [choices[0]], NO_FAULTS).store, choices[1..])
  }

  function VotesFor(choices: seq<string>): seq<Vote> {
    seq(|choices|, i requires 0 <= i < |choices| => Vote(choices[i], VOTER))
  }

  /**
   * No vote is lost: successive valid votes append exactly one vote each,
   * in order, and change nothing but the votes and the tally table.
   */
  lemma {:induction false} CastVotesAppend(s: Store, choices: seq<string>)
    requires Lookup(s, POLL_KEY).isOpen
    requires forall i :: 0 <= i < |choices| ==> choices[i] in Lookup(s, POLL_KEY).options
    ensures var p, q := Lookup(s, POLL_KEY), Lookup(CastVotes(s, choices), POLL_KEY);
      q.votes == p.votes + VotesFor(choices) && q.(votes := p.votes, count := p.count) == p
  {
    if |choices| > 0 {
      var p := Lookup(s, POLL_KEY);
      var s' := CastVoteStep(s, [choices[0]], NO_FAULTS).store;
      var p' := Lookup(s', POLL_KEY);
      assert p' == WithVote(p, choices[0]);
      CastVotesAppend(s', choices[1..]);
      assert [Vote(choices[0], VOTER)] + VotesFor(choices[1..]) == VotesFor(choices);
    }
  }

  // ---------------------------------------------------------------------
  // The tally table stays in step with the votes

  lemma NewPollConsistent(title: string, question: string, maxVotes: int, options: seq<string>)
    ensures Consistent(NewPoll(title, question, maxVotes, options))
  {
  }

  lemma WithVoteConsistent(p: Poll, choice: string)
    requires Consistent(p) && choice in p.options
    ensures Consistent(WithVote(p, choice))
  {
    var q := WithVote(p, choice);
    forall i | 0 <= i < |q.count|
      ensures q.count[i].countTotal == Tally(q.votes, q.count[i].option)
    {
      TallyAppend(p.votes, Vote(choice, VOTER), p.count[i].option);
    }
    forall i | 0 <= i < |q.votes|
      ensures q.votes[i].option in q.options
    {
      if i < |p.votes| {
        assert q.votes[i] == p.votes[i];
      }
    }
  }

  /** Every invocation keeps the stored poll's tally table equal to a count over its votes. */
  lemma InvokePreservesConsistency(s: Store, name: string, args: seq<string>, io: Faults)
    requires Consistent(Lookup(s, POLL_KEY))
    ensures Consistent(Lookup(InvokeStep(s, name, args, io).store, POLL_KEY))
  {
    var st := InvokeStep(s, name, args, io);
    if st.store != s {
      if name == "init" {
        NewPollConsistent(args[0], args[1], Atoi(args[2]).value, args[3..]);
      } else {
        WithVoteConsistent(Lookup(s, POLL_KEY), args[0]);
      }
    }
  }

  /** On a consistent ledger the two queries agree: each tally entry counts the votes returned. */
  lemma QueriesAgree(s: Store, io: Faults)
    requires Consistent(Lookup(s, POLL_KEY)) && !io.getFails
    ensures var counts, votes := Query(s, "getVoteCount", [], io), Query(s, "getVotes", [], io);
      && counts.Success? && counts.payload.CountList? && votes.Success? && votes.payload.VoteList?
      && forall i :: 0 <= i < |counts.payload.counts| ==>
           counts.payload.counts[i].countTotal == Tally(votes.payload.votes, counts.payload.counts[i].option)
  {
  }

  // ---------------------------------------------------------------------
  // The tally table sums to the number of votes when the options are distinct

  function SumTallies(options: seq<string>, votes: seq<Vote>): nat {
    if |options| == 0 then 0 else Tally(votes, options[0]) + SumTallies(options[1..], votes)
  }

  function Occurrences(options: seq<string>, x: string): nat {
    if |options| == 0 then 0 else (if options[0] == x then 1 else 0) + Occurrences(options[1..], x)
  }

  lemma {:induction false} SumTalliesNoVotes(options: seq<string>)
    ensures SumTallies(options, []) == 0
  {
    if |options| > 0 {
      SumTalliesNoVotes(options[1..]);
    }
  }

  lemma {:induction false} SumTalliesCons(options: seq<string>, v: Vote, rest: seq<Vote>)
    ensures SumTallies(options, [v] + rest) == SumTallies(options, rest) + Occurrences(options, v.option)
  {
    assert ([v] + rest)[1..] == rest;
    if |options| > 0 {
      SumTalliesCons(options[1..], v, rest);
    }
  }

  lemma {:induction false} OccursNever(options: seq<string>, x: string)
    requires x !in options
    ensures Occurrences(options, x) == 0
  {
    if |options| > 0 {
      OccursNever(options[1..], x);
    }
  }

  lemma {:induction false} OccursOnce(options: seq<string>, x: string)
    requires Distinct(options) && x in options
    ensures Occurrences(options, x) == 1
  {
    var rest := options[1..];
    assert Distinct(rest) by {
      forall i, j | 0 <= i < j < |rest| ensures rest[i] != rest[j] {
        assert rest[i] == options[i + 1] && rest[j] == options[j + 1];
      }
    }
    if options[0] == x {
      assert x !in rest by {
        forall i | 0 <= i < |rest| ensures rest[i] != x {
          assert rest[i] == options[i + 1];
        }
      }
      OccursNever(rest, x);
    } else {
      OccursOnce(rest, x);
    }
  }

  lemma {:induction false} SumTalliesVotes(options: seq<string>, votes: seq<Vote>)
    requires Distinct(options)
    requires forall i :: 0 <= i < |votes| ==> votes[i].option in options
    ensures SumTallies(options, votes) == |votes|
  {
    if |votes| == 0 {
      SumTalliesNoVotes(options);
    } else {
      assert votes == [votes[0]] + votes[1..];
      SumTalliesCons(options, votes[0], votes[1..]);
      OccursOnce(options, votes[0].option);
      SumTalliesVotes(options, votes[1..]);
    }
  }

  lemma {:induction false} SumCountsTallies(count: seq<VoteCount>, options: seq<string>, votes: seq<Vote>)
    requires |count| == |options|
    requires forall i :: 0 <= i < |count| ==> count[i].countTotal == Tally(votes, options[i])
    ensures SumCounts(count) == SumTallies(options, votes)
  {
    if |count| > 0 {
      SumCountsTallies(count[1..], options[1..], votes);
    }
  }

  /** With distinct options, the tally table of a consistent poll adds up to the number of votes. */
  lemma TallySumsToVotes(p: Poll)
    requires Consistent(p) && Distinct(p.options)
    ensures SumCounts(p.count) == |p.votes|
  {
    SumCountsTallies(p.count, p.options, p.votes);
    SumTalliesVotes(p.options, p.votes);
  }

  // ---------------------------------------------------------------------
  // The ledger object, whose methods run the source's loops

  class Ledger {
    var state: Store

    constructor ()
      ensures state == map[]
    {
      state := map[];
    }

    /** The chaincode's `Init`: creates the poll. */
    method Init(args: seq<string>, io: Faults) returns (r: Response)
      modifies this
      ensures Step(r, state) == CreatePollStep(old(state), args, io)
    {
      r := CreatePoll(args, io);
    }

    method Invoke(name: string, args: seq<string>, io: Faults) returns (r: Response)
      modifies this
      ensures Step(r, state) == InvokeStep(old(state), name, args, io)
    {
      if name == "init" {
        r := Init(args, io);
      } else if name == "vote" {
        r := CastVote(args, io);
      } else {
        r := Failure(UnknownFunction(name));
      }
    }

    method CreatePoll(args: seq<string>, io: Faults) returns (r: Response)
      modifies this
      ensures Step(r, state) == CreatePollStep(old(state), args, io)
    {
      if |args| < 5 {
        return Failure(ArgumentCount);
      }
      var maxVotes := Atoi(args[2]);
      if maxVotes.Err? {
        return Failure(MaxVotesNotNumeric);
      }
      var options: seq<string> := [];
      var count: seq<VoteCount> := [];
      var i := 3;
      while i < |args|
        invariant 3 <= i <= |args|
        invariant options == args[3..i]
        invariant |count| == i - 3
        invariant forall j :: 0 <= j < |count| ==> count[j] == VoteCount(args[3 + j], 0)
      {
        options := options + [args[i]];
        count := count + [VoteCount(args[i], 0)];
        i := i + 1;
      }
      var newPoll := Poll(args[0], args[1], true, maxVotes.value, options, [], OWNER, count);
      assert newPoll == NewPoll(args[0], args[1], maxVotes.value, args[3..]);
      if io.putFails {
        return Failure(PutFailed);
      }
      state := state[POLL_KEY := newPoll];
      r := Success(NoPayload);
    }

    method CastVote(args: seq<string>, io: Faults) returns (r: Response)
      modifies this
      ensures Step(r, state) == CastVoteStep(old(state), args, io)
    {
      if |args| != 1 {
        return Failure(ArgumentCount);
      }
      if io.getFails {
        return Failure(GetFailed);
      }
      var res := Lookup(state, POLL_KEY);
      if !res.isOpen {
        return Failure(PollEnded);
      }
      var isValidOption := false;
      var i := 0;
      while i < |res.options|
        invariant 0 <= i <= |res.options|
        invariant isValidOption <==> args[0] in res.options[..i]
      {
        if res.options[i] == args[0] {
          isValidOption := true;
        }
        i := i + 1;
      }
      assert res.options[..i] == res.options;
      if !isValidOption {
        return Failure(InvalidOption);
      }
      var votes := res.votes + [Vote(args[0], VOTER)];
      var count := res.count;
      i := 0;
      while i < |count|
        invariant 0 <= i <= |count| == |res.count|
        invariant forall j :: 0 <= j < i ==> count[j] == Bump(res.count[j], args[0])
        invariant forall j :: i <= j < |count| ==> count[j] == res.count[j]
      {
        if count[i].option == args[0] {
          count := count[i := count[i].(countTotal := count[i].countTotal + 1)];
        }
        i := i + 1;
      }
      var voted := res.(votes := votes, count := count);
      assert voted == WithVote(res, args[0]);
      if io.putFails {
        return Failure(PutFailed);
      }
      state := state[POLL_KEY := voted];
      r := Success(NoPayload);
    }
  }

  /**
   * A run of the ledger: create a poll with options A and B, vote for A,
   * try to vote for C, then read the tally table.
   */
  method Example() returns (created: Response, accepted: Response, rejected: Response, tally: Response)
    ensures created == Success(NoPayload) && accepted == Success(NoPayload)
    ensures rejected == Failure(InvalidOption)
    ensures tally == Success(CountList([VoteCount("A", 1), VoteCount("B", 0)]))
  {
    var ledger := new Ledger();
    var args := ["T", "Q?", "5", "A", "B"];
    var p := ExampleCreate(args);
    ExampleVotes(p);
    created := ledger.CreatePoll(args, NO_FAULTS);
    accepted := ledger.CastVote(["A"], NO_FAULTS);
    rejected := ledger.CastVote(["C"], NO_FAULTS);
    tally := GetVoteCount(ledger.state, NO_FAULTS);
  }

  /** The poll the example creates. */
  lemma ExampleCreate(args: seq<string>) returns (p: Poll)
    requires args == ["T", "Q?", "5", "A", "B"]
    ensures p == NewPoll("T", "Q?", 5, ["A", "B"])
    ensures CreatePollStep(map[], args, NO_FAULTS) == Step(Success(NoPayload), map[POLL_KEY := p])
  {
    AtoiExamples();
    assert args[3..] == ["A", "B"];
    p := NewPoll("T", "Q?", 5, ["A", "B"]);
  }

  /** The example's two votes on that poll, and the tally they leave. */
  lemma ExampleVotes(p: Poll)
    requires p == NewPoll("T", "Q?", 5, ["A", "B"])
    ensures CastVoteStep(map[POLL_KEY := p], ["A"], NO_FAULTS) ==
      Step(Success(NoPayload), map[POLL_KEY := WithVote(p, "A")])
    ensures CastVoteStep(map[POLL_KEY := WithVote(p, "A")], ["C"], NO_FAULTS).response == Failure(InvalidOption)
    ensures WithVote(p, "A").count == [VoteCount("A", 1), VoteCount("B", 0)]
  {
  }
}

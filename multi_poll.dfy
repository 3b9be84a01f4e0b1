/**
 * The multi-poll voting chaincode (chaincode_finished.go).
 *
 * Polls are stored under their own `Id`. `createPoll` refuses an id whose
 * stored poll already carries that id, then stores a fresh open poll;
 * `vote` checks that the poll is found, open and offers the choice, then
 * appends a `Vote`. There is no tally table, `Init` does nothing and
 * every `Query` fails.
 *
 * A stored poll is decoded with its `json.Unmarshal` error ignored, so a
 * missing key reads as the zero `Poll`, whose `Id` is "". The pure
 * functions `CreatePollStep`, `CastVoteStep` and `InvokeStep` specify each
 * operation over the world state; the `Ledger` class carries the source's
 * loops and is proved to follow them.
 */
module MultiPoll {
  import opened Strconv
  import opened Shim

  /** The voter recorded on every vote. */
  const VOTER := "admin"
  /** The owner recorded on every poll. */
  const OWNER := "admins"

  datatype Vote = Vote(option: string, user: string)

  datatype Poll = Poll(
    id: string,
    title: string,
    question: string,
    isOpen: bool,
    maxVotes: int,
    options: seq<string>,
    votes: seq<Vote>,
    owner: string)

  /** What decoding leaves in `Poll{}` when there is nothing stored. */
  const ZERO_POLL := Poll("", "", "", false, 0, [], [], "")

  datatype Error =
    | ArgumentCount
    | GetFailed
    | AlreadyExists
    | MaxVotesNotNumeric
    | NotFound
    | PollEnded
    | InvalidOption
    | PutFailed
    | UnknownFunction(name: string)

  /** Every operation of this chaincode returns no bytes. */
  datatype Response = Success | Failure(error: Error)

  /** The world state: keys to decoded polls. */
  type Store = map<string, Poll>

  /** The outcome of a state-changing operation: its response and the new world state. */
  datatype Step = Step(response: Response, store: Store)

  /** `GetState` followed by `json.Unmarshal` into `Poll{}`, its error ignored. */
  function Lookup(s: Store, key: string): (p: Poll)
    ensures key in s ==> p == s[key]
    ensures key !in s ==> p.id == "" && !p.isOpen && p.options == [] && p.votes == [] && p.maxVotes == 0
  {
    if key in s then s[key] else ZERO_POLL
  }

  /** Every stored poll sits under its own id, and every vote in it is for one of its options. */
  predicate StoreInvariant(s: Store) {
    forall k :: k in s ==> s[k].id == k && VotesValid(s[k])
  }

  predicate VotesValid(p: Poll) {
    forall i :: 0 <= i < |p.votes| ==> p.votes[i].option in p.options
  }

  /** No key disappears and no open poll is closed. */
  predicate NoneClosed(s: Store, s': Store) {
    forall k :: k in s ==> k in s' && (s[k].isOpen ==> s'[k].isOpen)
  }

  /** An open poll with no votes, carrying its own id. */
  function NewPoll(id: string, title: string, question: string, maxVotes: int, options: seq<string>): (p: Poll)
    ensures p.id == id && p.title == title && p.question == question && p.maxVotes == maxVotes
    ensures p.isOpen && p.options == options && p.votes == [] && p.owner == OWNER
    ensures VotesValid(p)
  {
    Poll(id, title, question, true, maxVotes, options, [], OWNER)
  }

  /** `p` with one more vote by `VOTER` for `choice`; everything else as it was. */
  function WithVote(p: Poll, choice: string): (q: Poll)
    ensures q.votes == p.votes + [Vote(choice, VOTER)]
    ensures q.(votes := p.votes) == p
    ensures VotesValid(p) && choice in p.options ==> VotesValid(q)
  {
    p.(votes := p.votes + [Vote(choice, VOTER)])
  }

  // ---------------------------------------------------------------------
  // The operations, as functions of the world state

  function CreatePollStep(s: Store, args: seq<string>, io: Faults): (st: Step)
    ensures st.response.Failure? ==> st.store == s
    ensures st.response.Success? ==> |args| >= 6 && args[0] in st.store && st.store == s[args[0] := st.store[args[0]]]
  {
    if |args| < 6 then Step(Failure(ArgumentCount), s)
    else
      var id := args[0];
      if io.getFails then Step(Failure(GetFailed), s)
      else if Lookup(s, id).id == id then Step(Failure(AlreadyExists), s)
      else
        var maxVotes := Atoi(args[3]);
        if maxVotes.Err? then Step(Failure(MaxVotesNotNumeric), s)
        else if io.putFails then Step(Failure(PutFailed), s)
        else Step(Success, s[id := NewPoll(id, args[1], args[2], maxVotes.value, args[4..])])
  }

  function CastVoteStep(s: Store, args: seq<string>, io: Faults): (st: Step)
    ensures st.response.Failure? ==> st.store == s
    ensures st.response.Success? ==> |args| == 2 && args[0] in s && args[0] in st.store && st.store == s[args[0] := st.store[args[0]]]
  {
    if |args| != 2 then Step(Failure(ArgumentCount), s)
    else
      var id := args[0];
      if io.getFails then Step(Failure(GetFailed), s)
      else
        var p := Lookup(s, id);
        if p.id != id then Step(Failure(NotFound), s)
        else if !p.isOpen then Step(Failure(PollEnded), s)
        else if args[1] !in p.options then Step(Failure(InvalidOption), s)
        else if io.putFails then Step(Failure(PutFailed), s)
        else Step(Success, s[id := WithVote(p, args[1])])
  }

  /** The chaincode's `Init` does nothing. */
  function InitStep(s: Store, args: seq<string>): (st: Step)
    ensures st == Step(Success, s)
  {
    Step(Success, s)
  }

  function InvokeStep(s: Store, name: string, args: seq<string>, io: Faults): (st: Step)
    ensures st.response.Failure? ==> st.store == s
    ensures name != "init" && name != "createPoll" && name != "vote" ==>
      st == Step(Failure(UnknownFunction(name)), s)
  {
    if name == "init" then InitStep(s, args)
    else if name == "createPoll" then CreatePollStep(s, args, io)
    else if name == "vote" then CastVoteStep(s, args, io)
    else Step(Failure(UnknownFunction(name)), s)
  }

  /** No query is routed: every query fails. */
  function Query(s: Store, name: string, args: seq<string>): (r: Response)
    ensures r == Failure(UnknownFunction(name))
  {
    Failure(UnknownFunction(name))
  }

  // ---------------------------------------------------------------------
  // What createPoll promises

  /** Fewer than six arguments fail and write nothing. */
  lemma CreatePollNeedsSixArguments(s: Store, args: seq<string>, io: Faults)
    requires |args| < 6
    ensures CreatePollStep(s, args, io) == Step(Failure(ArgumentCount), s)
  {
  }

  /**
   * An id whose stored poll carries it is refused before `maxVotes` is
   * read, and the stored poll is left as it was.
   */
  lemma CreatePollRejectsExistingId(s: Store, args: seq<string>, io: Faults)
    requires |args| >= 6 && !io.getFails && Lookup(s, args[0]).id == args[0]
    ensures CreatePollStep(s, args, io) == Step(Failure(AlreadyExists), s)
  {
  }

  /** Since a missing key reads as a poll whose `Id` is "", the empty id can never be created. */
  lemma CreatePollRejectsEmptyId(s: Store, args: seq<string>, io: Faults)
    requires StoreInvariant(s)
    requires |args| >= 6 && args[0] == ""
    ensures CreatePollStep(s, args, io).response.Failure?
  {
  }

  /** A `maxVotes` that is not a decimal integer fails and writes nothing. */
  lemma CreatePollRejectsBadMaxVotes(s: Store, args: seq<string>, io: Faults)
    requires |args| >= 6 && Atoi(args[3]).Err?
    ensures CreatePollStep(s, args, io).response.Failure?
    ensures !io.getFails && Lookup(s, args[0]).id != args[0] ==>
      CreatePollStep(s, args, io).response == Failure(MaxVotesNotNumeric)
  {
  }

  /** A successful create writes an open, empty poll under its id and no other key. */
  lemma CreatePollStores(s: Store, args: seq<string>, io: Faults)
    requires CreatePollStep(s, args, io).response.Success?
    ensures var s' := CreatePollStep(s, args, io).store;
      && |args| >= 6 && !io.putFails
      && s'.Keys == s.Keys + {args[0]}
      && (forall k :: k in s && k != args[0] ==> s'[k] == s[k])
      && var p := s'[args[0]];
         && p.id == args[0] && p.title == args[1] && p.question == args[2] && p.isOpen
         && Atoi(args[3]) == Ok(p.maxVotes) && p.options == args[4..] && |p.options| >= 2
         && p.votes == [] && p.owner == OWNER
  {
  }

  /** Creating the same id twice: the second call fails and the first poll is untouched. */
  lemma CreatePollTwice(s: Store, args: seq<string>, args2: seq<string>, io: Faults, io2: Faults)
    requires CreatePollStep(s, args, io).response.Success?
    requires |args2| >= 6 && args2[0] == args[0] && !io2.getFails
    ensures var s' := CreatePollStep(s, args, io).store;
      CreatePollStep(s', args2, io2) == Step(Failure(AlreadyExists), s')
  {
  }

  // ---------------------------------------------------------------------
  // What vote promises

  /** A vote succeeds exactly when the poll is found, open and offers the choice, and the stub cooperates. */
  lemma CastVoteSucceedsIff(s: Store, args: seq<string>, io: Faults)
    ensures CastVoteStep(s, args, io).response.Success? <==>
      && |args| == 2 && !io.getFails && !io.putFails
      && var p := Lookup(s, args[0]);
         p.id == args[0] && p.isOpen && args[1] in p.options
  {
  }

  /** The failures, each with the error the source returns, in the order it checks them. */
  lemma CastVoteRejects(s: Store, id: string, choice: string, io: Faults)
    requires !io.getFails
    ensures Lookup(s, id).id != id ==> CastVoteStep(s, [id, choice], io) == Step(Failure(NotFound), s)
    ensures Lookup(s, id).id == id && !Lookup(s, id).isOpen ==>
      CastVoteStep(s, [id, choice], io) == Step(Failure(PollEnded), s)
    ensures Lookup(s, id).id == id && Lookup(s, id).isOpen && choice !in Lookup(s, id).options ==>
      CastVoteStep(s, [id, choice], io) == Step(Failure(InvalidOption), s)
  {
  }

  /** A poll that was never created is not found; a closed poll rejects every choice. */
  lemma CastVoteOnMissingOrClosed(s: Store, id: string, choice: string, io: Faults)
    requires !io.getFails && id != "" && StoreInvariant(s)
    ensures id !in s ==> CastVoteStep(s, [id, choice], io) == Step(Failure(NotFound), s)
    ensures id in s && !s[id].isOpen ==> CastVoteStep(s, [id, choice], io) == Step(Failure(PollEnded), s)
  {
  }

  /** A successful vote appends one vote by `VOTER` to the poll at its id and changes nothing else. */
  lemma CastVoteRecords(s: Store, args: seq<string>, io: Faults)
    requires CastVoteStep(s, args, io).response.Success?
    ensures var s' := CastVoteStep(s, args, io).store;
      && s'.Keys == s.Keys
      && (forall k :: k in s && k != args[0] ==> s'[k] == s[k])
      && s'[args[0]].votes == s[args[0]].votes + [Vote(args[1], VOTER)]
      && s'[args[0]].(votes := s[args[0]].votes) == s[args[0]]
  {
  }

  // ---------------------------------------------------------------------
  // Invariants of every invocation

  /** On a well-formed store, a poll is found exactly when it is stored (the empty id always reads as found). */
  lemma FoundIffStored(s: Store, key: string)
    requires StoreInvariant(s)
    ensures Lookup(s, key).id == key <==> key in s || key == ""
  {
  }

  lemma InvokePreservesInvariant(s: Store, name: string, args: seq<string>, io: Faults)
    requires StoreInvariant(s)
    ensures StoreInvariant(InvokeStep(s, name, args, io).store)
  {
  }

  /**
   * Nothing is ever stored under the empty id: creating it reads as a
   * duplicate, and voting on it reads the closed zero poll.
   */
  lemma EmptyIdNeverStored(s: Store, name: string, args: seq<string>, io: Faults)
    requires "" !in s
    ensures "" !in InvokeStep(s, name, args, io).store
  {
  }

  /** No invocation removes a poll or closes one. */
  lemma InvokeNeverCloses(s: Store, name: string, args: seq<string>, io: Faults)
    ensures NoneClosed(s, InvokeStep(s, name, args, io).store)
  {
  }

  // ---------------------------------------------------------------------
  // The ledger object, whose methods run the source's loops

  class Ledger {
    var state: Store

    constructor ()
      ensures state == map[]
    {
      state := map[];
    }

    method Init(args: seq<string>) returns (r: Response)
      ensures Step(r, state) == InitStep(state, args)
    {
      r := Success;
    }

    method Invoke(name: string, args: seq<string>, io: Faults) returns (r: Response)
      modifies this
      ensures Step(r, state) == InvokeStep(old(state), name, args, io)
    {
      if name == "init" {
        r := Init(args);
      } else if name == "createPoll" {
        r := CreatePoll(args, io);
      } else if name == "vote" {
        r := CastVote(args, io);
      } else {
        r := Failure(UnknownFunction(name));
      }
    }

    method CreatePoll(args: seq<string>, io: Faults) returns (r: Response)
      modifies this
      ensures Step(r, state) == CreatePollStep(old(state), args, io)
    {
      if |args| < 6 {
        return Failure(ArgumentCount);
      }
      var id := args[0];
      if io.getFails {
        return Failure(GetFailed);
      }
      var res := Lookup(state, id);
      if res.id == id {
        return Failure(AlreadyExists);
      }
      var maxVotes := Atoi(args[3]);
      if maxVotes.Err? {
        return Failure(MaxVotesNotNumeric);
      }
      var options: seq<string> := [];
      var i := 4;
      while i < |args|
        invariant 4 <= i <= |args|
        invariant options == args[4..i]
      {
        options := options + [args[i]];
        i := i + 1;
      }
      var newPoll := Poll(id, args[1], args[2], true, maxVotes.value, options, [], OWNER);
      assert newPoll == NewPoll(id, args[1], args[2], maxVotes.value, args[4..]);
      if io.putFails {
        return Failure(PutFailed);
      }
      state := state[id := newPoll];
      r := Success;
    }

    method CastVote(args: seq<string>, io: Faults) returns (r: Response)
      modifies this
      ensures Step(r, state) == CastVoteStep(old(state), args, io)
    {
      if |args| != 2 {
        return Failure(ArgumentCount);
      }
      var id := args[0];
      if io.getFails {
        return Failure(GetFailed);
      }
      var res := Lookup(state, id);
      if res.id != id {
        return Failure(NotFound);
      }
      if !res.isOpen {
        return Failure(PollEnded);
      }
      var isValidOption := false;
      var i := 0;
      while i < |res.options|
        invariant 0 <= i <= |res.options|
        invariant isValidOption <==> args[1] in res.options[..i]
      {
        if res.options[i] == args[1] {
          isValidOption := true;
        }
        i := i + 1;
      }
      assert res.options[..i] == res.options;
      if !isValidOption {
        return Failure(InvalidOption);
      }
      var voted := res.(votes := res.votes + [Vote(args[1], VOTER)]);
      if io.putFails {
        return Failure(PutFailed);
      }
      state := state[id := voted];
      r := Success;
    }
  }

  /**
   * A run of the ledger: create poll "p1" with options A and B, vote for A,
   * try to vote for C, try to create "p1" again.
   */
  method Example() returns (rejectedVote: Response, rejectedCreate: Response, votes: seq<Vote>)
    ensures rejectedVote == Failure(InvalidOption)
    ensures rejectedCreate == Failure(AlreadyExists)
    ensures votes == [Vote("A", VOTER)]
  {
    var ledger := new Ledger();
    var args := ["p1", "T", "Q?", "5", "A", "B"];
    var p := ExampleCreate(args);
    ExampleVotes(p);
    var created := ledger.CreatePoll(args, NO_FAULTS);
    var accepted := ledger.CastVote(["p1", "A"], NO_FAULTS);
    rejectedVote := ledger.CastVote(["p1", "C"], NO_FAULTS);
    rejectedCreate := ledger.CreatePoll(["p1", "T2", "Q2", "5", "X", "Y"], NO_FAULTS);
    votes := ledger.state["p1"].votes;
  }

  /** The poll the example creates. */
  lemma ExampleCreate(args: seq<string>) returns (p: Poll)
    requires args == ["p1", "T", "Q?", "5", "A", "B"]
    ensures p == NewPoll("p1", "T", "Q?", 5, ["A", "B"])
    ensures CreatePollStep(map[], args, NO_FAULTS) == Step(Success, map["p1" := p])
  {
    AtoiExamples();
    assert args[4..] == ["A", "B"];
    p := NewPoll("p1", "T", "Q?", 5, ["A", "B"]);
  }

  /** The example's votes and second create, on the state the first create leaves. */
  lemma ExampleVotes(p: Poll)
    requires p == NewPoll("p1", "T", "Q?", 5, ["A", "B"])
    ensures CastVoteStep(map["p1" := p], ["p1", "A"], NO_FAULTS) == Step(Success, map["p1" := WithVote(p, "A")])
    ensures CastVoteStep(map["p1" := WithVote(p, "A")], ["p1", "C"], NO_FAULTS).response == Failure(InvalidOption)
    ensures CreatePollStep(map["p1" := WithVote(p, "A")], ["p1", "T2", "Q2", "5", "X", "Y"], NO_FAULTS).response ==
      Failure(AlreadyExists)
  {
  }
}

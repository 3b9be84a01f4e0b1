# Voting chaincode, modelled in Dafny

A model of a Hyperledger Fabric voting chaincode written in Go. The chaincode
exists in two alternative versions that declare the same types, and each is
its own Dafny module:

- `SinglePoll` (`single_poll.dfy`, from `chaincode.go`). The world state holds
  one poll, under the fixed key `"poll"`. `createPoll` overwrites it with a
  fresh open poll: its option list is `args[3..]`, and its tally table
  `Count` lists every option with a count of zero. `createPoll` is also what
  `Init` and `Invoke("init")` run. `vote` checks that the poll is open and
  that the choice is one of its options. It then appends a vote by `"admin"`
  and adds one to every matching tally entry. `getVoteCount` returns the
  tally table and `getVotes` returns the votes.
- `MultiPoll` (`multi_poll.dfy`, from `chaincode_finished.go`). Polls are
  stored under their `Id`. `createPoll` refuses an id whose stored poll
  already carries that id. `vote` checks that the poll is found, open and
  offers the choice, then appends a vote. This version has no tally table.
  `Init` does nothing and every query fails.

Two shared modules hold what both versions use:

- `Strconv` (`strconv.dfy`) models Go's `strconv.Atoi` on a 64-bit platform:
  an optional sign and one or more decimal digits, within the range of a
  64-bit `int`. Like Go, it reads a long input digit by digit and reports a
  range error as soon as the digits exceed 2^64 - 1, even when a bad
  character follows. `Itoa` is its partner, and the two round-trip.
- `Shim` (`shim.dfy`) holds `Faults`. It says whether the stub's `GetState`
  and `PutState` fail on a call.

Each engine is written in two layers:

- Pure step functions (`CreatePollStep`, `CastVoteStep`, `InvokeStep`,
  `Query`) map the world state (`map<string, Poll>`), the arguments and the
  stub's faults to a response and a new world state. Lemmas about these
  functions state the properties.
- A `Ledger` class holds the world state in a field. Its methods run the
  loops of the Go code: the append loop that builds the options (and, in
  `SinglePoll`, the tally table), the flag-setting search for the choice,
  and the loop that bumps tally entries in place. Each method is proved to
  give exactly the step function's response and new state.

The decoded poll follows the Go code. The error of `json.Unmarshal` is
ignored there, so a key with nothing stored reads as the zero `Poll`
(`Lookup`): empty `Id`, `IsOpen == false`, no options and no votes. In
`SinglePoll` this means voting before any poll was created fails with "Poll
ended". In `MultiPoll` it means a poll with the empty id can never be
created.

Some consequences of the code that are easy to miss:

- `maxVotes` is parsed but never checked. Zero and negative values are
  accepted, and no operation compares the number of votes with it.
- The argument counts (at least 5 in `SinglePoll`, at least 6 in
  `MultiPoll`) leave at least two option entries. Nothing makes them
  distinct.
- In `MultiPoll`, the empty id can never be stored. Creating it fails as a
  duplicate (`AlreadyExists`), not as an invalid id. Voting on it fails with
  "Poll ended".
- A missing key is not reported as an error. It reads as the zero poll.
- In `SinglePoll`, `getVoteCount` and `getVotes` succeed when no poll is
  stored, with empty results.
- No operation takes a lock.

With repeated options, `SinglePoll` counts a vote in several tally entries.
`TallySumsToVotes` therefore needs distinct options.

## Model

| member | source | states |
|---|---|---|
| `Strconv.Atoi` | chaincode.go:89-92 | a parse succeeds only on an optional sign followed by one or more digits; its value lies in the 64-bit range, and it is non-negative unless the sign is `-` |
| `Strconv.AtoiAccepts` | chaincode.go:89-92 | a parse succeeds if and only if the input is an optional sign and one or more digits whose signed value fits in 64 bits; it then returns that value; a well-formed input outside the range is a range error |
| `Strconv.AtoiPlusSign` | chaincode.go:89 | a leading `+` does not change the result |
| `Strconv.AtoiNegativeLeadingZero` | chaincode.go:89 | a zero after a leading `-` does not change the result |
| `Strconv.AtoiOverflowFirst` | chaincode_finished.go:108-111 | digits worth more than 2^64 - 1 give a range error, whatever follows them |
| `Strconv.AtoiItoa` | chaincode_finished.go:108-111 | every 64-bit integer, formatted in decimal, parses back to itself |
| `Strconv.AtoiLeadingZero` | chaincode.go:89 | leading zeros are accepted and do not change the value |
| `Strconv.AtoiRejectsNonDigit` | chaincode.go:89-92 | any character other than a digit after the optional sign is a syntax error, provided the digits before the first such character are worth at most 2^64 - 1 |
| `Strconv.AtoiRejectsEmptyNumber` | chaincode.go:89-92 | the empty string and a bare sign are syntax errors |
| `Strconv.AtoiRejectsOutOfRange` | chaincode_finished.go:108-111 | a digit string whose value exceeds the 64-bit maximum fails with a range error |
| `Strconv.AtoiExamples` | chaincode.go:89 | "5", "-1" and "+7" parse to 5, -1 and 7, so a negative `maxVotes` is accepted |
| `Strconv.AtoiRejectedExamples` | chaincode.go:89-92 | "1_0" and " 1" are syntax errors |
| `SinglePoll.Lookup` | chaincode.go:119-124 | a stored key gives its poll; a missing key gives a closed poll with no options, no votes, no tallies and `maxVotes` 0 |
| `SinglePoll.NewPoll` | chaincode.go:86-101 | the new poll is open, has the given title, question, `maxVotes` and options, owner `"admins"`, no votes and one zero tally per option in order, and is consistent |
| `SinglePoll.WithVote` | chaincode.go:140-150 | a vote appends `Vote{choice, "admin"}`, adds 1 to exactly the tally entries named `choice`, keeps their options and changes no other field |
| `SinglePoll.CreatePollStep` | chaincode.go:80-110 | a failed create leaves the world state unchanged; a successful one returns no payload and writes only key `"poll"` |
| `SinglePoll.CastVoteStep` | chaincode.go:112-159 | a failed vote leaves the world state unchanged; a successful one returns no payload and writes only key `"poll"` |
| `SinglePoll.InvokeStep` | chaincode.go:50-63 | a failed invocation changes nothing, at most key `"poll"` changes, and a name other than `init` or `vote` fails as unknown and changes nothing |
| `SinglePoll.GetVoteCount` | chaincode.go:161-171 | succeeds exactly when `GetState` does, and returns the stored poll's tally table (empty when no poll is stored) |
| `SinglePoll.GetVotes` | chaincode.go:173-184 | succeeds exactly when `GetState` does, and returns the stored poll's votes |
| `SinglePoll.Query` | chaincode.go:66-78 | only `getVoteCount` and `getVotes` are answered; any other name fails as unknown; a query reads the state and cannot change it |
| `SinglePoll.CreatePollRejects` | chaincode.go:82-92 | fewer than 5 arguments fail with an argument error, and a non-numeric `maxVotes` fails with a numeric error; neither writes anything |
| `SinglePoll.CreatePollStores` | chaincode.go:86-109 | with a valid `maxVotes` and a working `PutState`, a create succeeds and stores, whatever was there before, the title, question, parsed `maxVotes`, `IsOpen`, owner `"admins"`, no votes, options `args[3..]` (at least two) and tally entries `{args[3+i], 0}`, and the new poll is consistent |
| `SinglePoll.CastVoteSucceedsIff` | chaincode.go:112-159 | a vote succeeds if and only if there is one argument, the stub does not fail, the stored poll is open and the choice is one of its options |
| `SinglePoll.ClosedPollRejects` | chaincode.go:123-128 | on a closed poll, or when no poll was ever stored, every choice fails with "Poll ended" and nothing is written |
| `SinglePoll.InvalidChoiceRejected` | chaincode.go:130-138 | a choice that is not one of the open poll's options fails and leaves the state unchanged |
| `SinglePoll.CastVoteRecords` | chaincode.go:140-156 | a successful vote appends exactly `Vote{choice, "admin"}`, adds 1 to each tally entry whose option is the choice, and leaves every other entry and every other field unchanged |
| `SinglePoll.CastVoteTallies` | chaincode.go:144-150 | after a successful vote the choice has one more vote and every other option has as many as before |
| `SinglePoll.CastVotesAppend` | chaincode.go:144-153 | successive valid votes append one vote each, in order, with no vote lost, and change nothing but votes and tallies |
| `SinglePoll.NewPollConsistent` | chaincode.go:94-100 | a freshly created poll's tally table matches its options and counts zero votes for each |
| `SinglePoll.WithVoteConsistent` | chaincode.go:144-150 | appending a valid vote and bumping the matching entries keeps every tally entry equal to the number of votes for its option |
| `SinglePoll.InvokePreservesConsistency` | chaincode.go:94-150 | every invocation keeps the stored poll consistent: tally entries match options one to one, each counts the votes for its option, and every vote is for an option |
| `SinglePoll.QueriesAgree` | chaincode.go:161-184 | on a consistent state, each entry that `getVoteCount` returns counts the votes that `getVotes` returns for that option |
| `SinglePoll.TallySumsToVotes` | chaincode.go:94-150 | when the options are distinct, the tally entries of a consistent poll add up to the number of votes |
| `SinglePoll.Ledger.Init` | chaincode.go:45-47 | `Init` behaves exactly as `createPoll` |
| `SinglePoll.Ledger.Invoke` | chaincode.go:50-63 | the response and new state are exactly those of `InvokeStep` |
| `SinglePoll.Ledger.CreatePoll` | chaincode.go:80-110 | the loop builds options and zero tallies from `args[3..]`; the response and new state are exactly those of `CreatePollStep` |
| `SinglePoll.Ledger.CastVote` | chaincode.go:112-159 | the search loop finds exactly whether the choice is an option, and the bump loop adds one to exactly the matching entries; the response and new state are those of `CastVoteStep` |
| `SinglePoll.Example` | chaincode.go:80-171 | creating a poll with options A and B, voting A, then voting C: the C vote fails as an invalid option, and the tally reads A:1, B:0 |
| `MultiPoll.Lookup` | chaincode_finished.go:93-99 | a stored key gives its poll; a missing key gives a closed poll with `Id == ""`, no options, no votes and `maxVotes` 0 |
| `MultiPoll.NewPoll` | chaincode_finished.go:104-116 | the new poll carries the given id, title, question, `maxVotes` and options, is open, has no votes and owner `"admins"` |
| `MultiPoll.WithVote` | chaincode_finished.go:158-162 | a vote appends `Vote{choice, "admin"}` and changes no other field; a vote for an option keeps every vote valid |
| `MultiPoll.CreatePollStep` | chaincode_finished.go:77-125 | a failed create leaves the world state unchanged; a successful one writes only key `args[0]` |
| `MultiPoll.CastVoteStep` | chaincode_finished.go:127-170 | a failed vote leaves the world state unchanged; a successful one writes only key `args[0]`, which was already stored |
| `MultiPoll.InitStep` | chaincode_finished.go:40-42 | `Init` succeeds and changes nothing |
| `MultiPoll.InvokeStep` | chaincode_finished.go:45-60 | a failed invocation changes nothing, and a name other than `init`, `createPoll` or `vote` fails as unknown |
| `MultiPoll.Query` | chaincode_finished.go:63-75 | every query fails as unknown |
| `MultiPoll.CreatePollNeedsSixArguments` | chaincode_finished.go:89-91 | fewer than 6 arguments fail and write nothing |
| `MultiPoll.CreatePollRejectsExistingId` | chaincode_finished.go:92-102 | when the poll read at key `id` carries `Id == id`, the create fails as a duplicate, whatever `maxVotes` is, and writes nothing |
| `MultiPoll.CreatePollRejectsEmptyId` | chaincode_finished.go:98-102 | on a well-formed state, creating the empty id always fails, since a missing key decodes to `Id == ""` |
| `MultiPoll.CreatePollRejectsBadMaxVotes` | chaincode_finished.go:108-111 | a non-numeric `maxVotes` always fails; it fails with the numeric error when the read succeeded and the id is new |
| `MultiPoll.CreatePollStores` | chaincode_finished.go:104-124 | a successful create adds key `id` and changes no other key; the stored poll has the given id, title, question and parsed `maxVotes`, is open, has options `args[4..]` (at least two), no votes and owner `"admins"` |
| `MultiPoll.CreatePollTwice` | chaincode_finished.go:92-124 | after a successful create, a second create with the same id fails as a duplicate and leaves the state as the first left it |
| `MultiPoll.CastVoteSucceedsIff` | chaincode_finished.go:127-170 | a vote succeeds if and only if there are 2 arguments, the stub does not fail, and the poll read at `args[0]` carries that id, is open and offers `args[1]` |
| `MultiPoll.CastVoteRejects` | chaincode_finished.go:139-156 | a poll not found fails as not found; a found closed poll fails as ended; a found open poll without the choice fails as an invalid option; none writes anything |
| `MultiPoll.CastVoteOnMissingOrClosed` | chaincode_finished.go:139-146 | on a well-formed state, voting on a non-empty id that is not stored fails as not found, and voting on a stored closed poll fails as ended |
| `MultiPoll.CastVoteRecords` | chaincode_finished.go:158-169 | a successful vote appends exactly `Vote{args[1], "admin"}` to the poll at `args[0]`; its other fields and every other key are unchanged |
| `MultiPoll.FoundIffStored` | chaincode_finished.go:139-143 | on a well-formed state, the poll read at a key carries that key exactly when the key is stored or empty |
| `MultiPoll.InvokePreservesInvariant` | chaincode_finished.go:104-169 | every invocation keeps each stored poll under its own id, with every vote for one of its options |
| `MultiPoll.EmptyIdNeverStored` | chaincode_finished.go:98-102 | when nothing is stored under the empty id, no invocation stores anything there |
| `MultiPoll.InvokeNeverCloses` | chaincode_finished.go:112-164 | no invocation removes a poll or sets `IsOpen` to false |
| `MultiPoll.Ledger.Init` | chaincode_finished.go:40-42 | `Init` returns success; it has no `modifies` clause, so it cannot change the state |
| `MultiPoll.Ledger.Invoke` | chaincode_finished.go:45-60 | the response and new state are exactly those of `InvokeStep` |
| `MultiPoll.Ledger.CreatePoll` | chaincode_finished.go:77-125 | the loop builds the options from `args[4..]`; the response and new state are exactly those of `CreatePollStep` |
| `MultiPoll.Ledger.CastVote` | chaincode_finished.go:127-170 | the search loop finds exactly whether the choice is an option; the response and new state are exactly those of `CastVoteStep` |
| `MultiPoll.Example` | chaincode_finished.go:77-170 | creating "p1", voting A, then voting C: the C vote fails as an invalid option, a second create of "p1" fails as a duplicate, and "p1" holds only the A vote |

## Left out

- JSON encoding. Polls are stored as values, not bytes. The model keeps one
  consequence of ignoring `json.Unmarshal`'s error: a missing key decodes to
  the zero poll. Unmarshalling a stored poll is taken to give that poll back.
- Fabric plumbing. `shim.Start`, `main` and the `fmt.Println` logging are
  I/O. The stub is replaced by a map. Whether `GetState` or `PutState` fails
  is a parameter (`Shim.Faults`), because the peer decides it. A failing
  `PutState` writes nothing.
- Error messages are modelled as error kinds (`Error`), not as their text.
- The identity check in `chaincode_finished.go` is commented out, and so are
  its query routes. Neither is modelled.
- `MultiPoll.CastVoteStep`: the not-found message in the source concatenates
  `res.id`, a field that does not exist, so that line would not compile. It
  is modelled as a plain `NotFound` error.
- `SinglePoll.CastVoteRecords`: tally counts are unbounded integers. Go's
  64-bit `int` would wrap after 2^63 - 1 votes for one option.
- Concurrency. The code takes no lock. Every operation is one atomic step
  on the state, as the peer runs a transaction.
- Go's distinction between a nil slice and an empty slice is not modelled.
  Both are the empty sequence.

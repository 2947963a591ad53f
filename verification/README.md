# A verified model of a quorum-replicated key-value store

This project models a replicated key-value store written in Go and proves what it
promises: linearizable reads and writes from write quorums, locks and two-phase
commit; two local stores that behave as one map with staged writes; background
propagation of writes in sloppy mode; a client library with strong writes and a
mutex built on them; and a ring elector.

`dafny verify dfyconfig.toml` checks everything.

## How it is organised

The protocol is modelled twice, and the two are proved equal. `node.dfy` gives each
handler as a function from a node and a message to the node's next value and what it
sends. `dbnode.dfy` gives the same handlers as methods of a class with the program's
fields, its loops over quorum members in arbitrary order, and its random draw of a
quorum; each method's contract is that it does exactly what the function says.

`cluster.dfy` puts nodes, messages in flight and clients together. Messages are
delivered in any order, any number of times, or never; nodes time out, crash and
recover; requests are sent again. A run is a sequence of such steps of any length.
`theorems.dfy`, `linearizable.dfy`, `locking.dfy`, `timestamps.dfy`, `own_writes.dfy`,
`confirmed.dfy`, `reads.dfy`, `failed_writes.dfy` and `requests.dfy` hold the results about
all runs: what never happens, and what every answer and every failure means. `calming.dfy`
and `progress.dfy` hold what can still happen from every state of every run: the system can
come to rest, and every write and read can then succeed. `machine.dfy` proves that each
method of the class, called on a node of a cluster, takes the step of the same name.

`program.dfy` has the program's own steps, with no exceptions; a run of them in which every
step is safe is a run as above. `boundaries.dfy` says when a step is safe, and
`failures.dfy` and `forgotten.dfy` follow four runs of the program, each with one unsafe
step, to a broken guarantee. `falling.dfy` follows a fifth, with none, to a node of sloppy
mode that falls behind for good.

They rest on one invariant of all reachable states. `ledger.dfy` records, beside the
run, how far each transaction has come and which writes are decided; `invariant.dfy` says
what each node and each message satisfies against that record, and why a step of one node
cannot break it for another; `handlers.dfy` and `coordination.dfy` show that each handler
keeps it. The record exists only in proofs: the theorems speak of nodes, messages ever
sent, and the requests and answers clients see.

The other files stand on their own: `trie.dfy`, `pages.dfy`, `persistent.dfy` and
`stores.dfy` (local stores, both refining `staged_store.dfy`), `codec.dfy` (timestamps
in front of values), `propagater.dfy` and `background.dfy` (background writes),
`client.dfy` and `locker.dfy` (client calls and the mutex), `ring.dfy` (elector),
`decimal.dfy` (numerals). `lock_progress.dfy` says when calls of the mutex can still return.
`lockservice.dfy` runs the mutex on a cluster and shows that the cluster is the register the
mutex needs.

## What a run may do

A run of the program keeps the guarantees below as long as each step is safe
(`Programs.SafeProgramRun`). For each step that is not, a lemma gives the exact condition
under which a handler keeps what the proofs rely on, and another a run in which a guarantee
fails.

- A node does not crash while a write of another node has it locked, whether or not it has
  staged anything. The crash forgets the lock, so that the lock is granted again, and the
  second grant makes the coordinator send an order to abort (`Boundaries.CrashesThatForget`,
  `Failures.LostByACrash`).
- A timestamp reply is not counted a second time once the same member's staged write has
  been counted. It would pass for the vote of a member that has staged nothing
  (`Boundaries.LateStampBreaksTally`, `Failures.LostByALateStamp`).
- A request does not join the queue of an idle node that has another request waiting. The
  queue holds the address of the variable the request was received in
  (dbnode/dbnode.go:221, 233), and taking the head assigns the head to that variable
  (dbnode/dbnode.go:269): the new request is lost and the old one is started twice
  (`Boundaries.SharedVariable`, `Failures.LostByASharedVariable`).
- Ids of finished transactions are not forgotten. The program forgets those that trail
  the newest by more than 50, and locks for them again (`Boundaries.ForgottenLocks`,
  `Forgotten.LockedTwice`).

Besides, the simulated network does not duplicate messages. The repeater sends most kinds
again, so any of them may be delivered any number of times; client requests and granted locks
it does not repeat. The id of a request is not negative and was not used before, as the one
generator of net/client.go:48-52 provides for all clients. Keys are not empty, at least two
nodes form a write quorum, quorums are of the sizes the program checks at its start, and
fewer than 2^64 - 1 requests and answers occur.

Reads are linearizable whenever R + W > n, even with background writes on. Everything
about writes, locks, two-phase commit, values and the mutex holds without R + W > n.

## Where code and documentation differ

- The design document (docs/design/spec.tex:362) counts on consistency unless a coordinator
  and another member fail during one write. The code can lose an acknowledged write when
  one locked member fails, before it has staged the write (`Failures.LostByACrash`) or
  after (`Boundaries.CrashKeepsPromises`).
- In sloppy mode the most recent value is to be served once writes have ceased for long
  enough (docs/design/spec.tex:89, 317-321), and each replica is to become monotonically more
  up to date, newer values never being overwritten by older ones (docs/diss/diss.tex:230). The
  code commits what a locked member has staged without looking at what it has stored since
  (dbnode/dbnode.go:496-497). So a node can acknowledge a newer write, be counted as one of
  those that have it, and then store an older one, with no later round to repair it
  (`Falling.OlderForGood`, in which every step is safe). Exactly such a commit makes a node's
  timestamp fall (`Timestamps.FallsByCommit`), and without sloppy mode there is none
  (`OwnWrites.NothingFalls`).
- Lock and Unlock are to block until the lock is acquired or released (net/locker.go:84-102).
  If the answer to the write that acquired or released it is lost, the call never returns,
  though the lock has changed hands: the daemon signals success only when it sees its own
  write succeed (`LockProgress.LostAnswer`). `LockProgress.LockReturns` and
  `LockProgress.UnlockReturns` say exactly when a call can still return.
- The store interface says that committing an unknown id returns false; the in-memory
  store returns true for the empty key, and drops its value (`MemStore.MemCommitRefines`).
- The store interface allows any length that a 32-bit number can hold; the page format
  reads back only fields shorter than 2^32 - 4 bytes (`Pages.FieldRoundTrip`).

## Model

| member | source | states |
|---|---|---|
| Linearizability.Linearizable | docs/design/spec.tex:89 | In strict mode, the completed operations on a key can be put in one order that respects real time and in which every read returns what the last write before it wrote. |
| Theorems.RealTimeOrder | scripts/parse-output.py:184-186 | An operation that begins after another on the same key has finished has no older timestamp, and a newer one if it is a write; the second part also without R + W > n. |
| Theorems.AnswersFollowRequests | dbnode/dbnode.go:277-289 | Every answer is to a request made before it. |
| Theorems.WritesAreNumbered | dbnode/dbnode.go:836-891 | The acknowledged writes of a key carry the timestamps 1, 2, 3 and so on, in the order they are acknowledged. |
| Theorems.StrongWrites | dbnode/dbnode.go:859-863 | A strong write succeeds only at the timestamp it asked for; an id is acknowledged at most once, and a timestamp of a key at most once. |
| Theorems.FailureIsFinal | dbnode/dbnode.go:978-996 | A write that was answered with a failure is never acknowledged. |
| Theorems.OnlyWritesAreVisible | dbnode/dbnode.go:955-960 | All that nodes store and reads return was acknowledged as written, so aborted writes are never visible. |
| Theorems.TimestampsIdentifyWrites | scripts/parse-output.py:175-179 | A key and a timestamp determine the value, over everything that nodes store and clients are answered. |
| Theorems.Coverage | dbnode/dbnode.go:892-943 | Each acknowledged write has W nodes that store it or something newer, or are still locked by it with exactly its value staged. |
| Theorems.EveryReadQuorumMeetsIt | docs/design/spec.tex:237 | In strict mode any R nodes with nothing staged include one that stores the write or something newer. |
| Theorems.OneWriter | dbnode/dbnode.go:945-950 | At most one node is coordinating a write that has all its locks. |
| Theorems.OneVerdict | dbnode/dbnode.go:902-914 | No transaction ever tells one member to commit and another to abort. |
| Theorems.VerdictMatchesAnswer | dbnode/dbnode.go:899-925 | Members are told to commit exactly when the client is told of success. |
| Theorems.NobodyExits | dbnode/dbnode.go:639-641 | No node ever stops on inconsistent values, conflicting timestamps, an unexpected message or a missing map. |
| Theorems.VotesAreCounted | dbnode/dbnode.go:475-483 | In every phase the counter equals the number of members whose reply is missing, and a quorum has the right size without the coordinator. |
| Theorems.VotesAreTrue | dbnode/dbnode.go:594-611 | Each counted vote is of a member that is locked by the transaction with the chosen key, value and timestamp staged. |
| Locking.LockedOnce | dbnode/dbnode.go:271-275 | However often a lock request is sent, a node locks for a transaction at most once in a run. |
| Locking.MembersCommitTheWrite | dbnode/dbnode.go:495-505 | A member told to commit, and still locked, has exactly the acknowledged write staged. |
| Locking.NoLockIsLost | dbnode/dbnode.go:962-976 | While a member is locked, its coordinator still works on the transaction with that member in its quorum, or the member has been told to unlock. |
| Timestamps.FallsByCommit | dbnode/dbnode.go:496-497 | A step of a run makes a node fall below a timestamp of a key exactly if it delivers the order to commit of the transaction that holds the node, with something older staged for the key. |
| Timestamps.StaysUnless | docs/diss/diss.tex:230 | Between two moments of a run a node stays at a timestamp it has reached, unless such a step happens at it in between. |
| Timestamps.OnlyGrow | docs/diss/diss.tex:230 | A node's timestamps only grow from one moment to another exactly if no such step happens at it in between. |
| Timestamps.KeptUnless | dbnode/dbnode.go:495-516 | What a node keeps of an acknowledged write, stored, newer or staged under its lock, it keeps to the end of the run, unless such a step happens at it. |
| OwnWrites.StoresOwnWrites | dbnode/dbnode.go:892-897 | Without sloppy mode, what a node stores is an acknowledged write that it has coordinated or was told to commit. |
| OwnWrites.HolderIsLast | dbnode/dbnode.go:271-308 | A decided write that still holds a node is the newest decided write of the key in which the node took part. |
| OwnWrites.NothingFalls | dbnode/dbnode.go:496-497 | Without sloppy mode no step of a run makes a node fall. |
| OwnWrites.OnlyGrowHere | docs/diss/diss.tex:230 | So a node's timestamps only grow, from any moment of a run to any later one. |
| OwnWrites.KeptForGood | dbnode/dbnode.go:495-516 | And what a node keeps of an acknowledged write it keeps to the end of the run. |
| Falling.OlderForGood | docs/diss/diss.tex:230 | A run in sloppy mode, every step of it safe: a node stores and acknowledges the newer of two writes, the propagater gives that write up, and the node then commits the older one, answers it to a read that begins afterwards, and is sent nothing by any node's next round. |
| Confirmed.ListedNodesKeepIt | dbnode/backgroundWriter.go:103-160 | Every node that a coordinator lists as confirmed for a write keeps it: it stores it or something newer, or is locked by it with exactly its value staged, unless a step made it fall below the write's timestamp. |
| Confirmed.GivenUpMeetsReaders | docs/design/spec.tex:319-321 | A write leaves the coordinator's list only when a newer write of the key has been acknowledged, or when every read quorum contains a node that keeps it to the end of the run, unless a step makes that node fall below its timestamp. |
| Reads.ReadsTheNewest | dbnode/dbnode.go:703-732 | With quorums of any size, each answered read has R nodes, the coordinator among them, each seen at a moment between request and answer at which no write that it has staged holds it: the answer is what one of them stored then, and no older than what any of them stored. |
| Reads.GivenUpIsRead | docs/design/spec.tex:319-321 | Once its coordinator has given a write up, a read of the key asked for later returns that write or a newer one, unless a newer one had been acknowledged by then or a commit made some node fall below it. |
| FailedWrites.AbortedWritesAreAnswered | dbnode/dbnode.go:978-996 | A member of a write is told to abort exactly if the client has been told of a failure. |
| FailedWrites.StrongWriteJudged | dbnode/dbnode.go:859-891 | With its last timestamp a write is proposed to every member under one more than the number of writes of the key acknowledged so far; a strong write that asked for another timestamp is answered with a failure and this one. |
| FailedWrites.TimerGivesUp | dbnode/dbnode.go:193-206 | When the timer of a node that coordinates a write fires, the node works on the write no longer, the client has been told of a failure, and every member to abort. |
| Requests.NothingIsForgotten | dbnode/dbnode.go:139-345 | Every request ever made is on its way, waiting or being worked on at a node, answered, or given up by telling its members; or it reached a node that was down, or its coordinator crashed while it read. |
| Requests.WritesAreAccounted | dbnode/dbnode.go:139-345 | Every write ever asked for is on its way, held by a node, acknowledged, or answered with a failure; or it reached a node that was down. |
| Calming.CanComeToRest | docs/diss/diss.tex:617 | No deadlock is possible: from every state of every run, recoveries, internal timers and messages already sent lead to a state in which every node is up and idle and nothing waits, and clients see nothing of it but answers to reads. |
| Progress.WriteCanSucceed | dbnode/dbnode.go:694-953 | At rest, any write can succeed with any quorum: its client is answered with one more than the number of writes of the key acknowledged before, every node of the quorum stores it with nothing left staged, and all is at rest again. A strong write has to ask for this timestamp. |
| Progress.NeverWedged | docs/diss/diss.tex:617 | So in every state of every run, whatever was lost, refused or left locked, every write can still succeed with every quorum. |
| Progress.ReadCanSucceed | dbnode/dbnode.go:522-567 | At rest, any read can be answered with any members that have nothing left staged: with the newest value that the coordinator and they store. |
| Progress.WriteThenRead | docs/design/spec.tex:89 | In every state of every run a write can still succeed and then be read back from its quorum, whatever aborted writes have left staged there. |
| Runs.RunOk | dbnode/dbnode.go:139-345 | The invariant holds at the end of every run. |
| Runs.StepOk | dbnode/dbnode.go:147-344 | Each delivery, timeout, crash, recovery, request and background round keeps the invariant of the whole cluster. |
| Ledgers.MutualExclusion | net/manager.go:76-78 | Two writes with all their locks are the same write, because write quorums overlap. |
| Invariants.NodeStable | dbnode/dbnode.go:136-138 | What one node does keeps the invariant of every other node. |
| Coordination.DispatchOk | dbnode/dbnode.go:216-266 | Handling any sound message leads to a sound node, sends only sound messages and answers clients truthfully. |
| Coordination.TakeNextOk | dbnode/dbnode.go:268-312 | So does taking the next queued request. |
| Coordination.RequestTimeoutOk | dbnode/dbnode.go:313-340 | So does giving up a request that waited too long. |
| Coordination.TimeoutOk | dbnode/dbnode.go:193-206 | So does the internal timer. |
| Coordination.TakenLinks | dbnode/dbnode.go:271-308 | A member that locks was held by no one, and had not locked for this transaction before. |
| Coordination.TakeLockRequest | dbnode/dbnode.go:300-308 | Locking leads to a sound node and sends one sound grant, which has not been sent before. |
| Coordination.LockResponseOk | dbnode/dbnode.go:467-493 | A grant or a refusal, in time, late or repeated, leads to a sound node and sends only sound messages. |
| Coordination.GrantCount | dbnode/dbnode.go:476-482 | The counter reaches zero exactly when every member's grant has been counted. |
| Coordination.StampsComplete | dbnode/dbnode.go:836-857 | The newest timestamp collected is that of the last decided write of the key. |
| Coordination.LastStampOk | dbnode/dbnode.go:836-891 | Choosing the timestamp keeps the invariant, both when the write is staged everywhere and when a strong write is given up. |
| Coordination.LastAckOk | dbnode/dbnode.go:892-943 | The last vote decides the write: the answer reports exactly the decision, every member is told, and the invariant is kept. |
| Coordination.NewestReply | dbnode/dbnode.go:703-716 | The newest of R values is at least as new as the last write decided before the read began. |
| Handlers.QuorumCovers | docs/design/spec.tex:237 | Replies that together cover R or W nodes are at least as new as the last write decided before. |
| Handlers.LocalRead | dbnode/dbnode.go:377-409 | A local read of one node answers with a decided value, in strict mode as new as the last write decided before it began, or puts the request back. |
| Handlers.GetAnswerOk | dbnode/dbnode.go:522-546 | What a quorum member answers to a read is a decided value, as new as every write it took part in that was decided before the read began. |
| Handlers.TimestampReplyOk | dbnode/dbnode.go:613-633 | A member's timestamp covers every decided write it took part in, as long as its writer is collecting timestamps. |
| Handlers.StagePromise | dbnode/dbnode.go:569-580 | A locked member asked to stage a write has exactly that write staged afterwards, and keeps earlier promises. |
| Handlers.PutRequestOk | dbnode/dbnode.go:569-592 | A put request keeps the invariant, and is acknowledged only where it was staged. |
| Handlers.CommitCover | dbnode/dbnode.go:496-497 | A commit at a member overwrites nothing newer from a decided write the member took part in. |
| Handlers.UnlockRequestOk | dbnode/dbnode.go:495-516 | An unlock at a member, in time, late or repeated, keeps the invariant. |
| Handlers.AbortOk | dbnode/dbnode.go:955-1011 | Giving up keeps the invariant: the write will never be decided, and no decided write is lost. |
| Handlers.AbortTells | dbnode/dbnode.go:962-976 | Every member of a write given up is told to unlock. |
| Handlers.FailOk | dbnode/dbnode.go:167-187 | A crash in any mode but the locked one keeps the invariant. |
| Handlers.RecoverOk | dbnode/dbnode.go:150-165 | So does recovery. |
| Handlers.BackgroundRequestOk | dbnode/dbnode.go:635-674 | A background write is consistent with what is stored, keeps the invariant, and is answered truthfully. |
| Handlers.BackgroundResponseOk | dbnode/dbnode.go:676-692 | A background reply never shows conflicting timestamps or values, and keeps the invariant. |
| Handlers.StreamWritesOk | dbnode/backgroundWriter.go:69-97 | A background round sends only decided writes. |
| Boundaries.AcceptedQuorums | net/manager.go:70-81 | The checks at the start accept exactly the quorum sizes the proofs rely on, given two nodes and one reader. |
| Boundaries.LateStampBreaksTally | dbnode/dbnode.go:559-565 | While writes are staged, a timestamp reply leaves the vote count right exactly if it is not a repeated one from a member already counted. |
| Boundaries.CommitsTooEarly | dbnode/dbnode.go:559-565 | A coordinator that commits because of one repeated timestamp, although a member has staged nothing. |
| Failures.LostByALateStamp | dbnode/dbnode.go:548-567 | A run that reaches such a coordinator: the write is acknowledged, and a later read does not find it although R + W > n. |
| Boundaries.CrashKeepsPromises | dbnode/dbnode.go:178-183 | A crash keeps what the node has stored or staged for a lock exactly if it is not locked with something newer staged. |
| Boundaries.CrashesThatForget | dbnode/dbnode.go:178-183 | In a run, a crash keeps the node's memory of its lock exactly if it is not locked. |
| Boundaries.GrantedAgain | dbnode/dbnode.go:268-308 | A lock that a crash has forgotten is granted again when its request is sent again; without the crash it is not. |
| Failures.LostByACrash | dbnode/dbnode.go:484-492 | A run in which a locked member with nothing staged crashes: the second grant brings an order to abort, and the acknowledged write is missing at one of its two nodes. |
| Boundaries.ForgottenLocks | dbnode/dbnode.go:360-375 | A lock request for a finished transaction is granted again exactly if its id trails a remembered one by more than 50. |
| Forgotten.LockedTwice | dbnode/dbnode.go:360-375 | A run in which a node forgets a committed transaction and locks for it again, and its members are told both to commit and to abort. |
| Boundaries.SharedVariable | dbnode/dbnode.go:221-269 | A queued request is taken and kept as the value it was received as exactly if no other request is waiting for the idle node. |
| Failures.LostByASharedVariable | dbnode/dbnode.go:268-275 | A run in which a request is overwritten: it is lost, the queued write is started twice, its members are told both to commit and to abort, its client is sent both answers, and it is missing at one of its two nodes. |
| Programs.SafeProgramRun | dbnode/dbnode.go:139-345 | A run of the program in which no step crashes a locked node, counts a late timestamp, overwrites a queued request or forgets an id ends where a run of the cluster ends, so all results hold in it. |
| Dbnode.Dbnode.constructor | dbnode/dbnode.go:92-134 | A new node is idle and empty, with a propagater in sloppy mode. |
| Dbnode.Dbnode.Receive | dbnode/dbnode.go:149-312 | One message is handled; then an idle node takes a queued request, which overwrites a request that the message itself has just put into the queue; a disabled node ignores the message. |
| Dbnode.Dbnode.Dispatch | dbnode/dbnode.go:216-266 | Each kind of message goes to its handler; an unknown one stops the process. |
| Dbnode.Dbnode.TakeNext | dbnode/dbnode.go:268-275 | The oldest request is taken by an idle node, and skipped if its transaction is over; what the assignment overwrites is stated by Receive. |
| Dbnode.Dbnode.Start | dbnode/dbnode.go:277-311 | A read or write begins to assemble its quorum; a lock request is granted. |
| Dbnode.Dbnode.Tick | dbnode/dbnode.go:193-206 | The timer gives up an unfinished write. |
| Dbnode.Dbnode.RequestTimeout | dbnode/dbnode.go:313-340 | A request still queued is removed and refused; one in progress is given up. |
| Dbnode.Dbnode.ControlFail | dbnode/dbnode.go:167-187 | A failing node forgets what it is doing, unless it coordinates a write. |
| Dbnode.Dbnode.ControlRecover | dbnode/dbnode.go:150-165 | A recovered node goes on with what it kept. |
| Dbnode.Dbnode.CleanUnlockTxids | dbnode/dbnode.go:360-375 | Exactly the ids that trail the newest by more than 50 are forgotten. |
| Dbnode.Dbnode.ProcessLocalRead | dbnode/dbnode.go:377-409 | Reads from this node alone, or puts the request back. |
| Dbnode.Dbnode.HandleLockRes | dbnode/dbnode.go:467-493 | Counts a grant, gives up on a refusal, unlocks a stray grant. |
| Dbnode.Dbnode.CountReply | dbnode/dbnode.go:475-483 | Each member's first reply counts, and the last one lets the transaction go on. |
| Dbnode.Dbnode.HandleUnlockReq | dbnode/dbnode.go:495-516 | Commits what is staged if told so by the transaction that holds the lock, and unlocks. |
| Dbnode.Dbnode.HandleGetReq | dbnode/dbnode.go:522-546 | Answers a read, or refuses while a write is staged. |
| Dbnode.Dbnode.HandleGetRes | dbnode/dbnode.go:548-567 | Counts a value or a timestamp. |
| Dbnode.Dbnode.HandlePutReq | dbnode/dbnode.go:569-592 | Stages a write for the transaction that holds the lock. |
| Dbnode.Dbnode.HandlePutRes | dbnode/dbnode.go:594-611 | Counts a staged write. |
| Dbnode.Dbnode.HandleTimestampReq | dbnode/dbnode.go:613-633 | Answers with the stored timestamp, or zero if not locked. |
| Dbnode.Dbnode.HandleBackgroundWriteReq | dbnode/dbnode.go:635-674 | Stores a newer value at once; two values at one timestamp stop the process. |
| Dbnode.Dbnode.HandleBackgroundWriteRes | dbnode/dbnode.go:676-692 | Tells the propagater, and stores a newer value found elsewhere. |
| Dbnode.Dbnode.ContinueProcessing | dbnode/dbnode.go:694-953 | Each mode's next step. |
| Dbnode.Dbnode.NewestReply | dbnode/dbnode.go:703-716 | The newest among the local value and the replies, in whatever order they are scanned. |
| Dbnode.Dbnode.FinishRead | dbnode/dbnode.go:703-732 | Answers the client with it and becomes idle. |
| Dbnode.Dbnode.RequestTimestamps | dbnode/dbnode.go:816-835 | Asks every member for its timestamp. |
| Dbnode.Dbnode.NewestTimestamp | dbnode/dbnode.go:837-857 | The newest timestamp stored here or answered by a member. |
| Dbnode.Dbnode.StageWrite | dbnode/dbnode.go:836-891 | Stages the next timestamp here and at every member, or refuses a strong write. |
| Dbnode.Dbnode.CommitWrite | dbnode/dbnode.go:892-943 | Commits here, unlocks every member, answers the client and starts propagation. |
| Dbnode.Dbnode.AbortProcessing | dbnode/dbnode.go:955-1011 | Rolls back, unlocks every member and answers with a failure. |
| Dbnode.Dbnode.AssembleQuorum | dbnode/dbnode.go:1013-1052 | Asks quorumSize - 1 distinct nodes, never itself, drawn at random. |
| Dbnode.PicksAreDistinct | dbnode/dbnode.go:1023-1027 | Replacing itself by the last node keeps the draw distinct and free of itself. |
| Dbnode.Dbnode.StreamWrites | dbnode/backgroundWriter.go:69-97 | A background round through this node's channel. |
| Machines.Deliver | dbnode/dbnode.go:149-312 | Receiving a message with the class takes the program's step of handling it: the node's fields, what is put on its channel and what clients see are those of the next cluster. |
| Machines.Tick | dbnode/dbnode.go:193-206 | So does the internal timer. |
| Machines.Expire | dbnode/dbnode.go:313-340 | So does the timer of a request. |
| Machines.Stop | dbnode/dbnode.go:167-187 | So does a crash. |
| Machines.Restart | dbnode/dbnode.go:150-165 | So does recovery. |
| Machines.Prune | dbnode/dbnode.go:360-375 | So does forgetting old ids. |
| Machines.Propagate | dbnode/backgroundWriter.go:69-97 | So does a background round. |
| Propagation.Propagater.constructor | dbnode/backgroundWriter.go:42-56 | A write needs n - R + 1 nodes. |
| Propagation.Propagater.PropagateTransaction | dbnode/backgroundWriter.go:103-121 | A decided write is kept with its quorum as the confirmed nodes. |
| Propagation.Propagater.HandleResponse | dbnode/backgroundWriter.go:127-160 | An acknowledgement confirms its sender once; a newer value ends the entry; an older one is fatal. |
| Propagation.Propagater.StreamWrites | dbnode/backgroundWriter.go:69-97 | Confirmed entries are dropped, the others sent to every node not confirmed. |
| Background.Bookkeeping | dbnode/backgroundWriter.go:103-160 | Over any events, an entry lists and counts exactly the nodes of its quorum and those that acknowledged since; one given up has n - R + 1 of them or was overtaken by a newer value. |
| Background.GivenUpMeetsReaders | dbnode/backgroundWriter.go:127-160 | Once a write is given up without being overtaken, every read quorum contains a node of its write quorum or one that has acknowledged it. |
| Background.RoundAsksTheRest | dbnode/backgroundWriter.go:73-92 | A round keeps exactly the writes that need more nodes, and asks exactly the nodes not known to store them. |
| Background.HandlersAbsorb | dbnode/dbnode.go:635-692 | Background requests and negative replies store a value exactly by the newest-wins merge. |
| Background.MergeKeepsNewest | dbnode/dbnode.go:635-692 | Any messages leave the newest value among the first and those received. |
| Background.MergeConverges | docs/design/spec.tex:319 | In any order and with any repetition, the same messages leave the same values. |
| Codec.DecodeEncode | dbnode/coordinator.go:8-31 | Every value with a 64-bit timestamp survives encoding. |
| Codec.EncodeDecode | dbnode/coordinator.go:8-23 | Decoding fails exactly on one to seven bytes, and otherwise loses nothing; no bytes at all mean no value at timestamp 0. |
| Codec.ReadsDecode | dbnode/coordinator.go:8-23 | Reading a key from a store of encoded values, with no bytes for an absent key, and decoding what is read, gives the value stored, or no value at timestamp 0. |
| Codec.EncodeInjective | dbnode/coordinator.go:25-31 | No two values are encoded alike. |
| Codec.EncodingCommutes | dbnode/dbnode.go:573-575 | Putting, committing and rolling back encoded values does to the encoded store what it does to the values. |
| Codec.EncodeTimestampVal | dbnode/coordinator.go:25-31 | Fills a new buffer with eight big-endian bytes and the value. |
| Codec.DecodeTimestampVal | dbnode/coordinator.go:8-23 | Reads them back, stops on one to seven bytes, and finds timestamp 0 and no value in no bytes. |
| MemStore.Trie.Get | datastore/memory.go:30-47 | The value at the end of a path of the trie. |
| MemStore.Trie.Insert | datastore/memory.go:91-100 | Changes the value of one key and of no other, prefixes and extensions included, and keeps the trie a tree. |
| MemStore.MemStore.Get | datastore/memory.go:30-47 | The last committed value. |
| MemStore.MemStore.Put | datastore/memory.go:51-64 | Stages a write under a new id that is not zero. |
| MemStore.MemStore.Commit | datastore/memory.go:68-76 | Makes a staged write readable. |
| MemStore.MemCommitRefines | datastore/memory.go:68-76 | This is the commit every store promises, except exactly for an unknown id under the empty key. |
| MemStore.MemStore.Rollback | datastore/memory.go:87-89 | Drops a staged write. |
| Pages.FieldRoundTrip | datastore/persistent.go:46-57 | A length-prefixed field is read back exactly if it is shorter than 2^32 - 4 bytes. |
| Pages.ParsePage | datastore/persistent.go:22-61 | A page is read back as the records it was written from. |
| Pages.PageParse | datastore/persistent.go:22-61 | Whatever parses was written from what it parses to. |
| Pages.PutRecordFinds | datastore/persistent.go:90-139 | Putting a record changes what is found for its key and no other, and keeps keys distinct and the other records in place. |
| Persistent.NamesApart | datastore/persistent.go:83 | A staged file never has the name of a page, and no two staged files share a name. |
| Persistent.HexInjective | datastore/persistent.go:29-30 | Two hashes have the same page name exactly if they are equal. |
| Persistent.PagesAreHashes | datastore/persistent.go:28-31 | Two keys share a page exactly if their hashes are equal. |
| Persistent.PersistentStore.Get | datastore/persistent.go:28-62 | Finds the record of a key in its page. |
| Persistent.PersistentStore.Put | datastore/persistent.go:67-142 | Writes the page with the record put into it under the staged name. |
| Persistent.PersistentStore.Rewrite | datastore/persistent.go:90-139 | The new page, byte for byte: the value replaced in place, or the record added at the end. |
| Persistent.PersistentStore.Commit | datastore/persistent.go:173-182 | The staged page becomes the page. |
| Persistent.PersistentStore.Rollback | datastore/persistent.go:192-195 | The staged page is removed. |
| Persistent.PutRefines | datastore/persistent.go:67-142 | A new staged write changes nothing that is read. |
| Persistent.RollbackRefines | datastore/persistent.go:192-195 | Nor does dropping one. |
| Persistent.CommitRefines | datastore/persistent.go:173-182 | A commit makes exactly the staged value readable, and keeps the refinement exactly if it makes no staged write of the same page stale that is still to be committed. |
| Persistent.CommitUndone | datastore/persistent.go:173-182 | Of two writes to keys of one page staged together, committing the second undoes the first. |
| Stores.StoresAgree | datastore/store.go:11-20 | Over every run whose commits make no write stale that the run commits later, and for every hash function, both stores give the answers of one map with staged writes. |
| Stores.HashesThatAgree | datastore/persistent.go:28-31 | Both stores answer every run alike, if its lengths fit and its commits are under the keys that were staged, exactly if no two keys that fit have equal hashes. |
| Stores.ReadsLastCommitted | datastore/store.go:1-3 | A read returns the value last committed; staged and rolled back writes are invisible. |
| Clients.Client.Put | net/client.go:154-201 | Success, with its timestamp, comes from the first attempt that succeeds; otherwise the last attempt decides between error and unknown. |
| Clients.Client.Get | net/client.go:104-137 | The first successful answer is returned; without one the call fails. |
| Clients.StrongPutIsCompareAndSet | net/client.go:146-149 | A strong write is acknowledged only when exactly one write less than it asked for was acknowledged before. |
| Clients.AtMostOneAttemptCommits | net/client.go:154-201 | Of all attempts of a strong call at most one ever commits. |
| Clients.ResultIsTrue | net/client.go:15-19 | An attempt seen to succeed has committed, one seen to fail never does; only one that timed out may hide a commit. |
| Lockers.ClientLocker.StartLock | net/locker.go:87-92 | A call of Lock up to where it waits. |
| Lockers.ClientLocker.StartUnlock | net/locker.go:97-102 | A call of Unlock up to where it waits. |
| Lockers.ClientLocker.AfterGet | net/locker.go:54-70 | The daemon releases, acquires or does nothing. |
| Lockers.ClientLocker.AfterPut | net/locker.go:60-77 | What a successful write of the lock lets the daemon tell its user. |
| Lockers.RunOk | net/locker.go:47-102 | Every run of any clients with distinct ids, with late attempts, lost answers and stale reads, keeps the invariant. |
| Lockers.MutualExclusion | net/locker.go:8-16 | At most one client is between Lock returning and calling Unlock, and it wrote the latest version. |
| Lockers.VersionsAlternate | net/locker.go:56-70 | An odd version is written by a client waiting in Lock; an even one only by the client that wrote the odd version before, once it is not inside. |
| LockProgress.OwnerReleases | net/locker.go:54-67 | Wherever the invariant of Lockers.RunOk holds, a client that waits in Unlock, owns the latest, odd version and has its daemon between two calls gives it up by five steps of its own: it reads the lock and writes the next, even version, and Unlock returns if the answer comes. |
| LockProgress.FreeLockIsTaken | net/locker.go:69-78 | In the same way a client that waits in Lock at an even version writes the next, odd version under its own id, and Lock returns if the answer comes. |
| LockProgress.LockReturns | net/locker.go:84-92 | At any moment of any run a call of Lock can still return exactly if no client, itself included, waits in Lock for the lock that it already has by a write whose answer is lost. |
| LockProgress.UnlockReturns | net/locker.go:94-102 | A call of Unlock can still return exactly if its client has not yet given the lock up, or waits for the answer of the write that did. |
| LockProgress.LostAnswer | net/client.go:15-19 | Whenever a client can take the free lock or give it up, the answer may be lost, and then its call never returns. |
| LockService.RunRefines | net/locker.go:8-16 | Every run of lock clients on a cluster is a run of the clients with a register that only strong writes at the next version change, and from which reads return some version. |
| LockService.AttemptAnswered | net/client.go:146-149 | An attempt of a strong write is acknowledged once, when the key has one version less than it asked for, with its value. |
| LockService.OneHolder | net/locker.go:8-16 | However a cluster delays, loses and repeats messages, at most one client is inside the lock, and the last write acknowledged for the lock's key is its own. |
| Rings.IdRoundTrip | dbnode/elector/ring.go:250-274 | Exactly the ids below 1000 are written as three bytes and read back. |
| Rings.AddId | dbnode/elector/ring.go:217-221 | Adds an id at the end. |
| Rings.AddIdToken | dbnode/elector/ring.go:217-221 | The highest id of the longer token is the greater of the old highest and the id added. |
| Rings.HighestId | dbnode/elector/ring.go:233-248 | The highest id in a token, or -1. |
| Rings.RemoveId | dbnode/elector/ring.go:223-231 | Removes the first occurrence of an id only. |
| Rings.Ring.Elect | dbnode/elector/ring.go:114-134 | A node adds its id, takes the highest id as leader and passes the token on. |
| Rings.OneTrip | dbnode/elector/ring.go:114-134 | After one trip, from anywhere, the token names the highest node. |
| Rings.AllAgree | dbnode/elector/ring.go:114-134 | After two trips, and for good, every node's leader is the node with the highest id. |

## Left out

- The locked read: modes coordinatingRead and processingRead are unreachable while fast reads are on, as the constant in dbnode/dbnode.go:32 has them.
- Writes with W = 1: only possible with a single node, and handled without the protocol.
- Liveness: that requests are answered, that locks become free and that background rounds happen. What is proved is that the first two always can happen (Progress.NeverWedged, LockProgress.LockReturns). The program need not do any of it: the key that an aborted write leaves staged at a member blocks reads there until another write succeeds there, and the propagater's clock is never started.
- Theorems.RealTimeOrder: an answer counts as given when the node sends it, not when the client receives it, which only makes the claim stronger.
- Linearizability.Linearizable: is stated for each key; operations span one key only.
- Clusters.Next: timers fire at any time rather than after a duration, and a request stays subject to its timer for ever; both allow more than the program does.
- The repeater: a message once sent may be delivered any number of times, which covers sending it again until it is acknowledged.
- The request queue: a sequence of values, each what the address in the program's queue leads to; removing compares values instead of addresses.
- Programs.Step: a node that has stopped on a fatal error goes on handling messages, which only adds runs; no node stops in a safe run (Theorems.NobodyExits).
- Dbnode.Dbnode.Receive: the elector's answer (who is leader, where a write is forwarded) is a parameter; forwarding takes effect at once.
- Dbnode.Dbnode.AbortProcessing: does not model errors of the local store, which in the program lead to the same place.
- Dbnode.Dbnode.HandleBackgroundWriteReq: logging is not modelled.
- Propagation.Propagater.PropagateTransaction: does not model the signal sent on a channel while the mutex is held.
- Aliasing of byte slices, channel capacities and the interleaving of goroutines inside one node.
- MemStore.Trie.Insert: inner nodes of the trie do not carry the unused staging fields of the root; the trie of nodes and the store with its staged writes are two classes.
- MemStore.MemStore.Get: does not model the delays that imitate a disk.
- Persistent.PersistentStore.Put: does not model failing reads, writes and renames, nor fsync; the hash is an arbitrary function and a directory is a map from names to bytes.
- Decimal numerals: Atoi reads digits only, not a sign in front of them.
- Clients.Client.Put: ids, random destinations and what becomes of each attempt are parameters; the goroutine that routes responses is part of that.
- Lockers.RunOk: the database is a register with compare-and-set, which LockService.RunRefines derives from runs of a cluster; reads may return any version, however old.
- LockService.OneHolder: only the clients of the lock write its key, as net/locker.go:12 demands; a client may take the answer of any read of the key, which covers its own.
- Rings.AllAgree: one token, no timeout and no token dropped by the rate limit; failed nodes, the bully elector and the dummy elector are not modelled.
- The simulator, partitions, the monitor, random delays and the plotting scripts.

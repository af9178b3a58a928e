# Task service: a Dafny model and its proofs

The repository is a Go service for teams and their tasks: MySQL holds the rows, Redis caches list pages,
and a rate limiter stands in front. This project models its core logic and proves what that logic keeps,
mostly over whole runs.

How the pieces fit together:

- `Text`, `Domain`, `TaskPatch` and `TaskLog` are the rules without storage: trimming and decimals,
  validation and authorization, patches with their recorded changes, and a task's history as a log that
  can be replayed.
- `Database` is the relational state as a value, with one function for each SQL statement or transaction.
  It holds the invariant `Sound` (keys, one owner per team, team closure, complete logs) and the relation
  `Evolves` between an earlier and a later state. `Operations` has the decisions the service takes between
  its database calls, and `Execution.Exec` the whole effect of one undisturbed request.
- `Promises` writes down, field by field and without any function that computes an answer, what the service
  owes its clients: what is stored and answered for what was sent. The main results are stated in its terms.
- `Verdicts` says for each request on a sound database exactly when it goes through, what it then does, and
  which error it gets otherwise. So a guard that refuses too much fails there just as one that lets too much
  through.
- `Storage.Store`, `TaskCache.PageCache` and `Service.TaskService` are the code in its own form: classes
  whose methods update tables, keyspace and local copies step by step. Each method is proved to have the
  effect and the answer that the functions above describe.
- `Protocol` interleaves any number of requests. Each SQL statement outside a transaction, each whole
  transaction and each Redis command is one step. The state keeps the trace of all database states, so
  that a stale snapshot can be compared with the row that is overwritten. `ProtocolSafety` has the
  inductive invariant, and `ProtocolTheorems` says what follows for every state of every run.
- `Requests` says what follows for every request: it ties the record and the answer of a finished request
  to the operation that the client sent and to the states that were current from the moment it was sent.
  No update is lost, the change that was asked for is the change that was made, and a right that was lost
  before a request started is of no use to it.
- `SoloRuns` shows that a request nobody interrupts does in the protocol exactly what `Coherence.Serve` says
  in one go, whichever of its Redis commands take effect. So the two views of a request agree, cache
  included; with every Redis command failing, what is left is `Execution.Exec`.
- `CacheStaleness` says exactly which writes a cached page can miss under interleaving. `StaleRuns` gives
  a run for each of the two ways in which that happens: freshness without conditions is false of the code,
  because `Set` reads the generation again after the query (internal/cache/task.go:74). A variant that is
  not the code, in which `Set` stores under the generation that `Get` has read, has only the first of the
  two. `Coherence` proves that requests served one after the other are always answered as without a cache.
- `Isolation` (outsiders cannot tell), `Paging` (walks over a list), `Statistics` (the team report) and
  `RateLimiter` stand on the same state or on their own.

Requests in `Protocol` are validated when they start, which reads no shared state. Two clocks are
parameters of every write: `clock` is the application's reading (it stamps `closed_at`) and `now` the
database's. A history entry carries the application clock of its write as a model variable, so that a
closing time can be traced to its write; the trace, the `Note` of a finished request, the `Origin` of a
cached page and the set of flushed writes are model variables as well. The limiter's rate, burst and idle
time are parameters; `ServerBound` instantiates the values the server passes.

The parameter `redisOk` of a step, and the record `Calls` of a sequential request, say which Redis calls
take effect. A failing call is only logged by the code, so it changes the path and nothing else.

The last database state a request may rest on is counted from its start: `Requests.StartedAt` names the
event that started it, and `Requests.PositionAt` the trace position that was current then.

The row with which the database answers the report query is a parameter of `TeamStats`:
`Statistics.AnswerOf` says which rows it may answer with, and `Statistics.AnswerExists` that there always
is one.

## Model

| member | source | states |
|---|---|---|
| Requests.NoLostUpdate | internal/service/task.go:62-97 | in every interleaving, an update that is answered with a task replaced exactly the row it had loaded since its start, at the version the patch names: description, status and assignee are those sent, the title the one sent without blank ends, and every field not sent is the row's; closing time, version, and one entry with exactly the fields that differ, their values before and after, are as they must be, and nothing else changed; or every field of the row answered, which was stored at some moment since the start, is as sent already |
| Requests.CreatedAsAsked | internal/service/task.go:25-55 | in every interleaving, a creation that is answered with a task stored, after its start, a new row with the team, description, assignee and status sent, todo if none was, the title sent without blank ends, the actor as creator and version 1, with its first entry, by a member and for a member |
| Requests.AnsweredAsAsked | internal/service/task.go:25-125 | every answer of every run comes with a true record of what its request did, the record is one of the very operation that was started, and rests on nothing read before the start but a cached page; a page is never answered without one |
| ProtocolTheorems.ConflictExact | internal/store/task.go:71-90 | the update transaction succeeds if and only if the row is still the loaded one; otherwise the answer is a conflict and the version has moved past the loaded one |
| Requests.AuthorizedHistory | internal/domain/task_rules.go:43-61 | behind every history entry of every run stands a request started before, whose write appended it: a creation as sent by its author, or an update as sent whose author, the actor of that request, was the creator, owner or admin in a state between the request's load and its commit, or the assignee of the exact row replaced changing only the status |
| Requests.WriterEntitled | internal/service/task.go:62-71 | every write was made by a request whose actor could make it in some state between the start of the request and the write |
| Requests.NoRightNoWrite | internal/service/teams.go:57-63 | a request whose actor is entitled in no state from its start on writes nothing, so an editor, inviter or owner demoted before it started is refused |
| ProtocolTheorems.EntryOrigin | internal/store/task.go:92-95 | for every entry of the history there is a step of the run that appended it, and the entry is unchanged since |
| ProtocolTheorems.HistoryReplay | internal/store/task.go:50-53 | in every reachable state, folding a task's entries rebuilds its content, each From is what the earlier entries left, and the version counts the entries |
| ProtocolTheorems.ClosingTime | internal/domain/task.go:91-101 | closed_at is set exactly for terminal statuses, to the clock of the write that began the current unbroken closed run, though computed from a snapshot |
| ProtocolTheorems.StoredTasksPresentable | internal/domain/task_rules.go:19-41 | every stored title is trimmed, non-empty and at most 255 characters, every description at most 10000, every status known, through creations and patches |
| ProtocolTheorems.OneOwner | internal/service/teams.go:113-136 | under any interleaving of team requests a user is owner if and only if they created the team |
| Requests.EnrolmentAuthorized | internal/service/teams.go:40-140 | under any interleaving, who added a member was owner or admin of the team, and who changed a role was its owner, in some state between the start of the request and its write; the user is the one named by id or else by address and was no member yet, the role is the one sent, a plain member's if none was, and nothing else changed |
| Requests.FoundedAsAsked | internal/service/teams.go:17-30 | under any interleaving, a founded team has the name sent without blank ends, of 1 to 255 characters, and the actor as its owner |
| Requests.MembersChangeOnlySo | internal/service/teams.go:113-136 | when memberships differ from one state of a run to the next, the step is the write of a started request and does what was sent: a team with its creator as owner, an invitation, or a role change |
| ProtocolTheorems.TeamClosure | internal/service/task.go:164-190 | creators, assignees and history authors belong to the task's team in every state, although membership is read outside the writing transaction |
| ProtocolSafety.RunKeeps | internal/service/task.go:25-98 | every run keeps the inductive invariant: sound states that evolve from one another, for each waiting request what it may still rely on, a true record of every write, and some request behind every step that changes more than users |
| ProtocolSafety.MatchingVersion | internal/store/task.go:75 | a row whose version equals the snapshot's is the snapshot |
| ProtocolSafety.SwapAppends | internal/service/task.go:83-89 | an update planned on the current row goes through, keeps every state property and is recorded with the row it was planned on |
| SoloRuns.SoloRequest | internal/service/task.go:25-125 | whichever of its Redis commands take effect, a request that takes its steps without interference ends within six of them with the database, the keyspace and the answer of the served request |
| SoloRuns.SoloWithoutRedis | internal/service/task.go:25-125 | with every Redis command failing, they are those of the sequential meaning, and the keyspace stays as it was |
| SoloRuns.SoloCoherent | internal/cache/task.go:30-103 | started on a coherent cache, it has the uncached effect and answer, and the cache stays coherent unless it wrote a task and its Invalidate failed |
| Requests.ServedPagesExact | internal/service/task.go:100-125 | every page ever served holds, on some database state the run passed through, stored tasks of the team, status and assignee sent, the task at place j with exactly offset + j such tasks of larger id, as many as the limit allows or as remain; and the state is one since the start of the request unless it is a cached page that misses a write |
| CacheStaleness.MissedWritesExact | internal/cache/task.go:38-79 | a cached page misses exactly the team's writes that were pending when Get read the generation or flushed before Set read it |
| CacheStaleness.HitFresh | internal/cache/task.go:38-43 | a hit that misses no write is the answer on a state that was current between the two reads of Get |
| CacheStaleness.VariantMissesPendingOnly | internal/cache/task.go:60-82 | of a variant that is not the code, in which Set stores under the generation that Get read: a hit misses exactly the writes pending at its own generation read, and is fresh if there are none |
| CacheStaleness.RunKeepsCache | internal/cache/task.go:30-103 | invariant of every run: under a generation that has not moved, every flushed write a page lacks is one that Set already found flushed |
| StaleRuns.StaleHitsReachable | internal/cache/task.go:74-79 | both exceptions are real: for each there is a run with a hit that was the right answer at no moment of its two reads |
| StaleRuns.StaleByPendingWrite | internal/service/task.go:83-96 | a hit stale only because a committed write has not run Invalidate |
| StaleRuns.StaleByLateFill | internal/cache/task.go:60-82 | a hit stale although no write is pending, because Invalidate ran between the fill's query and its generation read |
| Coherence.SequentialCoherence | internal/service/task.go:100-125 | when requests do not overlap and every Invalidate takes effect, every answer of every run equals the uncached one, whichever other Redis calls fail and whenever pages expire |
| Coherence.ServeCoherent | internal/cache/task.go:84-95 | one request through a coherent cache does and answers what it would without a cache, and keeps the cache coherent unless it wrote a task and its Invalidate failed |
| Coherence.InvalidateCoherent | internal/cache/task.go:92 | after a write to one team, moving its generation makes every page under the current generations exact again |
| Coherence.WritesOneTeam | internal/service/task.go:53 | only a request that answers with a task changes task rows, and only rows of that task's team |
| Redis.ListKeyInjective | internal/cache/task.go:109-122 | no two list requests that validation lets through, and no two generations, share a key |
| Redis.KeysDisjoint | internal/cache/task.go:105-122 | a list key is never a generation key |
| Redis.GenerationKeyInjective | internal/cache/task.go:105-107 | teams do not share generation counters |
| Redis.IncrementTidy | internal/cache/task.go:92-102 | INCR moves one team's generation by one and disturbs no page and no other generation |
| Redis.BuildListKey | internal/cache/task.go:109-122 | the string builder writes the seven parts with their separators, absent filters as empty parts |
| TaskCache.PageCache.Get | internal/cache/task.go:30-58 | a hit is the page under the generation just read; any failing call is a miss |
| TaskCache.PageCache.Set | internal/cache/task.go:60-82 | the page goes under the generation read at that moment, or nothing changes |
| TaskCache.PageCache.Invalidate | internal/cache/task.go:84-95 | the team's counter moves on, or nothing changes |
| Isolation.OutsiderCannotTell | internal/service/task.go:164-177 | any request of a user outside a team, whatever it addresses, has the same answer on the database without that team, its members, tasks and history, and commutes with removing them |
| Isolation.OutsidersCannotTell | internal/service/teams.go:158-167 | whole runs of requests by outsiders get the same answers with and without the team, and leave the two databases related by its removal |
| Isolation.WithoutExact | internal/service/teams.go:158-167 | what is removed with a team in the two results above: the team, its members, its tasks and their history, and nothing else |
| Isolation.SameTask | internal/service/task.go:164-177 | a foreign task is reported as a missing one is |
| Listings.ListingExact | internal/store/task.go:109-145 | the ordered query holds exactly the rows of the team, status and assignee asked for, each once, by strictly descending id |
| Listings.PageExact | internal/store/task.go:109-145 | the query for a normalized request answers the page that was asked for, by rank of ids |
| Paging.WalkComplete | internal/store/task.go:122-124 | walking a fixed table by offset += limit until a short page terminates and returns every row of the team, status and assignee asked for exactly once, in descending order |
| Paging.NothingSkipped | internal/store/task.go:122-124 | a walk over a team's tasks whose pages are read at successive moments of any run skips no task that was there at the start |
| Paging.PositionGrows | internal/store/task.go:123 | while the system runs, a task only moves towards the end of its team's listing |
| Statistics.StatusTotals | internal/store/stats.go:20-45 | in every sound state each status that occurs has its number of tasks, the numbers add up to the team's tasks, and the tasks with a closing time are as many as are counted done or cancelled |
| ProtocolTheorems.ReportInRuns | internal/store/stats.go:15-89 | in every reachable state, whatever the query may answer there is turned into the right report: those counts and that top list |
| Statistics.ReportsOnScope | internal/store/stats.go:15-20 | what the query may answer depends on the team's rows and the users only |
| Statistics.TopAssignees | internal/store/stats.go:25-34 | whatever order the aggregate delivers, the sorted list has at most three entries with exact counts and names, nobody twice, most first and names ascending in code point order among equals, and whoever is left out of three has closed no more than any of them |
| Statistics.SortedProperties | internal/store/stats.go:73-78 | the sort gives an ordered permutation and keeps entries of equal count and name in delivery order |
| Statistics.OrderOfDelivery | internal/store/stats.go:73-78 | two deliveries sort alike if and only if entries that tie come in the same order |
| Statistics.SortInPlace | internal/store/stats.go:73-78 | the in-place swapping sort computes that order on the array |
| Statistics.Report.constructor | internal/store/stats.go:49-89 | the report carries the row's figures and the sorted top list |
| RateLimiter.EvictionUnobservable | internal/httpapi/ratelimit.go:34-64 | for every run of requests and collector ticks over a non-decreasing clock, the answers equal those of a limiter that never deletes a bucket |
| RateLimiter.EvictionExact | internal/httpapi/ratelimit.go:18-64 | deletions are invisible in all runs if and only if a bucket refills within the idle time |
| RateLimiter.EvictionVisible | internal/httpapi/ratelimit.go:55-62 | when a bucket does not refill within the idle time, some run gets other answers because of a deletion |
| RateLimiter.AnswerExact | internal/httpapi/ratelimit.go:34-45 | the exact law of every orderly run, deletions included: a request is denied if and only if the burst is less than one, or, for some earlier request of its address, what was granted to the address from that one on, plus one, exceeds burst + rps * the time since then |
| RateLimiter.ServerAnswer | internal/httpapi/server.go:20 | the law for 20 per second and burst 40 |
| RateLimiter.RateBound | internal/httpapi/ratelimit.go:34-45 | in any window of d seconds of any run an address gets at most burst + rps * d requests through, deletions included |
| RateLimiter.ServerBound | internal/httpapi/server.go:20 | for 20 per second, burst 40 and ten minutes: deletions are invisible, and at most 40 + 20 d requests pass |
| RateLimiter.SweepLevels | internal/httpapi/ratelimit.go:58-62 | a bucket idle for longer than the limit was full, so deleting it changes no level |
| RateLimiter.RequestLevels | internal/httpapi/ratelimit.go:38-44 | a request takes one token if its address has one and touches no other address |
| RateLimiter.IpRateLimiter.Allow | internal/httpapi/ratelimit.go:34-45 | makes the bucket on demand, notes the time, and grants the request if the burst is at least one and an existing bucket holds a token with what has flowed in at rps per second |
| RateLimiter.IpRateLimiter.Collect | internal/httpapi/ratelimit.go:56-63 | removes exactly the buckets idle for longer than the limit, in whatever order they are visited |
| RateLimiter.Bucket.Allow | internal/httpapi/ratelimit.go:44 | takes a token if one is there, counting rps per second since the last one was taken; a denied request takes nothing |
| TaskPatch.PatchAlgebra | internal/domain/task_patch.go:54-97 | applying the recorded changes gives every field that is set its value and leaves the others, and can be undone; nothing is recorded exactly when nothing would change, each record is a real change, and a patch has no second effect |
| TaskPatch.ApplyDifference | internal/domain/task_patch.go:83-97 | applying a difference reaches the second task, applying it reversed leads back |
| TaskPatch.Diff | internal/domain/task_patch.go:54-81 | the field-by-field collection records exactly the fields that are set to another value than the task has, with the old value and the one sent |
| TaskPatch.Apply | internal/domain/task_patch.go:83-97 | the recorded fields of the local copy, and no others, get the recorded values |
| TaskPatch.ValidateExact | internal/domain/task_patch.go:20-52 | a decoded patch is accepted exactly when it leaves every storable task storable and names a positive assignee and version |
| TaskLog.LogUpdate | internal/domain/task_patch.go:54-97 | an update that replaces a logged row and appends its difference leaves a logged row |
| TaskLog.LogCreation | internal/domain/task.go:103-113 | the first entry of a created task logs it completely |
| TaskLog.ClosingRunUnique | internal/domain/task.go:91-101 | the current closed run has one beginning, so the stamp is determined |
| Domain.ValidateNewTaskExact | internal/domain/task_rules.go:30-41 | a creation passes validation exactly when its trimmed and defaulted form may be stored |
| Domain.AuthorizeTaskUpdateExact | internal/domain/task_rules.go:43-61 | the guard passes exactly the empty change and the changes the actor may make |
| Domain.RequireFields | internal/domain/task_rules.go:63-70 | finds a changed field outside the allowed ones if and only if there is one, in any visiting order |
| Domain.CreationChanges | internal/domain/task.go:103-113 | records every field from nothing to its value, the assignee only if there is one |
| Domain.NormalizeLimit | internal/service/task.go:192-201 | 20 for a limit of 0 or less, 100 for more than 100, every other limit unchanged |
| Domain.NormalizeOffset | internal/service/task.go:203-208 | 0 for a negative offset, every other offset unchanged |
| Text.TrimMeaning | internal/domain/task_rules.go:20 | trimming cuts a blank prefix and a blank suffix and leaves no blank end |
| Text.TrimExact | internal/domain/task_rules.go:20 | there is one way to cut the blank ends off a text, and it is the one computed |
| Text.SpacesListed | internal/domain/task_rules.go:20 | white space is the list of the Unicode standard's White_Space code points |
| Text.TrimFixedPoint | internal/domain/task_patch.go:58 | trimming is idempotent and fixes exactly the trimmed texts |
| Text.DecimalInjective | internal/cache/task.go:106 | integers with the same decimal text are equal |
| Database.SwapPatchKeeps | internal/store/task.go:65-107 | an update computed from the row it replaces succeeds, keeps the invariant, and leads to a state the earlier one evolves to |
| Database.InsertTaskKeeps | internal/store/task.go:17-59 | a creation by and for members of an existing team succeeds, keeps the invariant, and leads to a state the earlier one evolves to |
| Database.InsertTeamKeeps | internal/store/team.go:10-46 | creating a team keeps the invariant, with its author as the one owner |
| Database.InsertMemberKeeps | internal/store/team.go:48-54 | adding a member with an assignable role keeps the invariant, the one owner included |
| Database.SetRoleKeeps | internal/store/team.go:56-72 | giving an assignable role to a member who is not the owner keeps the invariant, the one owner included |
| Operations.PlannedUpdate | internal/service/task.go:66-76 | an update that is not refused is one the actor may make, at the version the patch named |
| Verdicts.UpdateVerdict | internal/service/task.go:57-98 | an update goes through if and only if its patch is well formed, the task exists and its actor is a member of the team, the version is current if named, its actor may make the change, and a newly named assignee is a member; each failing check has its own error, and an update that changes nothing is answered with the task |
| Verdicts.CreationVerdict | internal/service/task.go:25-55 | a creation goes through if and only if it is well formed, its actor is a member of the team, and its assignee too if there is one; each failing check has its own error |
| Verdicts.ListVerdict | internal/service/task.go:100-125 | a list request is answered, with the page asked for, if and only if it names a team and a known status or none and comes from a member |
| Verdicts.HistoryVerdict | internal/service/task.go:127-136 | the history is answered, whole and newest first, if and only if the actor is a member of the task's team |
| Verdicts.FoundingVerdict | internal/service/teams.go:17-30 | a team is founded if and only if its name has 1 to 255 characters without blank ends and its author is known |
| Verdicts.InviteVerdict | internal/service/teams.go:40-111 | an invitation goes through if and only if it is well formed, its actor is owner or admin, the role is not an owner's, and the user is found and no member yet; each failing check has its own error |
| Verdicts.RoleChangeVerdict | internal/service/teams.go:113-140 | a role change goes through if and only if the role is admin or member, its actor is the owner, and it concerns another member; each failing check has its own error |
| Verdicts.TeamsVerdict | internal/service/teams.go:32-38 | everybody gets all their teams with their roles, by ascending id |
| Verdicts.StatsVerdict | internal/service/teams.go:142-156 | the report is for the owner and the admins, and on all the team's rows |
| Execution.ExecKeeps | internal/service/task.go:25-98 | every request keeps the invariant, and an undisturbed update never loses a race |
| Execution.HistoryIsLogReversed | internal/store/task.go:147-178 | the history answer is the task's log backwards |
| Storage.Store.CreateTask | internal/store/task.go:17-59 | row, first entry and counters change together, or an unknown id leaves the tables as they were |
| Storage.Store.UpdateTask | internal/store/task.go:65-107 | the row changes only at the expected version and together with its entry; a failure rolls back |
| Storage.Store.ListTasks | internal/store/task.go:109-145 | the loop returns the rows asked for by rank of ids; a negative limit or offset is an error |
| Storage.Store.TaskHistory | internal/store/task.go:147-178 | collects the task's entries by descending id |
| Storage.Store.InsertHistory | internal/store/task.go:190-200 | appends one entry if its author exists |
| Storage.BuildWhere | internal/store/task.go:110-120 | the collected conditions hold for exactly the rows of the team, the status if one is asked for, and the assignee if one is asked for |
| Storage.Store.CreateTeam | internal/store/team.go:10-46 | team and owner are inserted together, or not at all |
| Storage.Store.AddMember | internal/store/team.go:48-54 | inserts one member; a duplicate and an unknown id are told apart |
| Storage.Store.UpdateMemberRole | internal/store/team.go:56-72 | no affected row is an error only if there is no such member |
| Storage.Store.TeamsForUser | internal/store/team.go:88-113 | the user's teams with their roles by ascending id |
| Storage.Store.UserByEmail | internal/store/user.go:32-40 | the user with the address, or not found |
| Storage.Store.TeamStats | internal/store/stats.go:49-89 | the report made of the query's row is the right one for the state |
| Service.TaskService.CreateTask | internal/service/task.go:25-55 | database, cache and answer after the call are those of the served request |
| Service.ServedCreation | internal/service/task.go:25-55 | a served creation that answers with a task has stored the task that was sent |
| Service.TaskService.UpdateTask | internal/service/task.go:57-98 | after an update, refused at any check or carried out, database, cache and answer are those of the served request |
| Service.ServedUpdate | internal/service/task.go:57-98 | a served update that answers with a task has stored the row with the patch as sent, or found it stored |
| Service.TaskService.ListTasks | internal/service/task.go:100-125 | on a hit, a miss or a refusal, cache and answer are those of the served request, and the database is untouched |
| Service.ServedList | internal/service/task.go:100-125 | a list request served through a coherent cache or none answers the page that was asked for |
| Service.TaskService.TaskHistory | internal/service/task.go:127-136 | entries for members only: all of the task's, newest first |
| Service.TaskService.Authorize | internal/domain/task_rules.go:43-61 | the branches with their field loops decide like the pure guard |
| Service.TaskService.CreateTeam | internal/service/teams.go:17-30 | database and answer of a team's creation are those of the sequential meaning: the team as sent, with its owner |
| Service.TaskService.InviteMember | internal/service/teams.go:40-85 | database and answer of an invitation, by user id or by email, are those of the sequential meaning: by an owner or admin, the user named, the role sent or else a plain member's |
| Service.TaskService.Invitee | internal/service/teams.go:87-111 | the invited user by id or by address, or the error of the one or the other |
| Service.TaskService.TeamStats | internal/service/teams.go:142-156 | owners and admins get the right report on the rows that the sequential meaning names, all others the error |
| Operations.ResolvesExactly | internal/service/teams.go:87-111 | an invitation resolves to a user if and only if the user has the id, or else the address, that it names; nobody else has it |
| Service.TaskService.ChangeMemberRole | internal/service/teams.go:113-140 | database and answer of a role change are those of the sequential meaning: by the owner, the role sent, another member |

## Left out

- Service.TaskService.InviteMember: lower-casing and the grammar of email addresses (internal/domain/user.go:22-31) are not modelled; what they make of an email is the parameter address of a request. Email and name of the invitee in the answer are left out.
- Comments, registration, login and users' own data: they would only add easy members. A user appears in the model when registered.
- HTTP routing, decoding, status codes, logging and the texts of error messages (which list, for instance, the rejected field).
- JSON encoding of pages and history: values are kept typed, and a page that does not decode is a miss.
- MySQL and Redis inside: a transaction, a statement and a command are atomic steps. Collations, rounding of times, the 32-bit version column, connection failures, gaps in automatic ids after a rollback and ids given out in another order than commits are outside the model.
- A Redis restart, and sharing one keyspace with other programs.
- Failures of Invalidate in the sequential coherence theorem: it is claimed only for runs in which Invalidate takes effect. Under interleaving a failed Invalidate leaves its write pending for good.
- Which of several closers with equal counts the query keeps: the database orders ties by its collation, so any choice is allowed.
- The value of the average closing time and the comment count: the report passes them on.
- Reads of history, team lists and reports are not interleaved in Protocol: they change nothing. Exec, Isolation and the classes cover them.
- golang.org/x/time/rate is not part of this model: its bucket is assumed to refill continuously in exact arithmetic, with one clock reading per request.
- The ticker's loop and its cancellation: each tick is one call of Collect.
- Paging.NothingSkipped: without a status or assignee filter, and on the database queries; pages taken from a cache may be older than the page before.

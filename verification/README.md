# Dafny model of irC and of the 320sh shell

irC is a chat server and its client, written in C (`hw6/`); 320sh is a command shell (`hw4/`).
This project models the parts of both in which correctness is an argument over many steps, and
proves those arguments.

* **The login server as a concurrent machine** (`LoginServer.dfy`). One accept/select thread and any
  number of login threads share the user records, the account list, the login queue with its
  semaphore, the mutex, the open descriptors and what has been written to each. A step is the code
  between two points at which another thread can act. `LoginSafety.dfy` holds the invariant,
  `LoginSteps.dfy` and `LoginHistory.dfy` its proof step by step, `LoginRuns.dfy` and
  `LoginTheorems.dfy` the results for whole runs, and `LoginCommands.dfy` what the commands of a
  session do and to whom. `AtomicAccounts.dfy` is the reference: the account table as if each locked
  region were one indivisible operation.
* **The same data in memory.** `LoginQueue.dfy` is the doubly linked queue, `Accounts.dfy` the
  singly linked account list, each refining a sequence.
* **Framing, messages and the login dialogue.** `Text.dfy` and `Framing.dfy` are the tokeniser and
  the byte-at-a-time message scanner, `Wire.dfy` the server's messages, `LoginClient.dfy` the client's
  two login dialogues. `Handshake.dfy` puts one client and the whole server together over
  byte streams; `HandshakeFrames.dfy`, `HandshakeSteps.dfy`, `HandshakeTheorems.dfy`,
  `HandshakeProgress.dfy` and `HandshakeReasons.dfy` prove that the two sides agree, what exactly is said,
  that neither waits in vain, and that every outcome has its reason.
* **The audit log.** `Audit.dfy` and `AuditList.dfy` are the insertion sort with its blank last node and the
  queries built on it, `AuditLog.dfy` the line format as written and as parsed, `LogFile.dfy` the log file
  under interleaved writers and a reader.
* **The shell.** `Shell.dfy` and `ShellParser.dfy` are the one-pass pipeline parser, `JobTable.dfy` the job list
  and the numbering of jobs.

`Wrappers.dfy` and `Sequences.dfy` hold what the modules share. `dafny verify dfyconfig.toml` checks everything.

## What the code does not do

Some properties one would expect do not hold of the code. For each there is a lemma with the exact
condition under which they do, and where that is not plain from the condition one with the failing inputs.

* `handleClientCrash` takes an account offline and then, without the mutex, closes the descriptor
  it finds in the record. If the same account has logged in again in between, it closes the new
  session's descriptor. `LoginDisturbed.AccountLost` is a run in which the account itself is lost that
  way: the descriptor is handed out again, its new connection is refused, and the removal by
  descriptor that follows a refusal takes the account. `LoginRuns.CrashCloseExact` says when the
  step is harmless: exactly when the descriptor in the record is still -1. A step is called
  undisturbed if it is not such a close, or a harmless one; the theorems about runs are about those
  whose steps all are (`LoginServer.QuietRun`).
* Sorting by ascending time treats a record without time as a barrier: `Audit.SortsExactly` and
  `Audit.QueriesRight` give the exact condition on the log, `Audit.BlankTimeBlocks` the failing logs.
* A log line is not read back if its time or its name holds a comma, or if any of its fields holds a
  line feed; `AuditLog.LineRoundTrip` and `AuditLog.LogRoundTrip` are exact. The text of a MSG is logged as it
  came, so a line feed in it reaches the log; `AuditLog.LineFeedCrashes` gives the logs on which
  the reader then follows a null pointer.
* A LISTU reply longer than 1022 bytes is cut short (`Wire.UtsilReadBack`), and a chat line that makes too
  long a MSG is split (`Framing.ChatInputFrames`).

Some consequences of the code that a reader may not expect are stated as well. A client that vanishes
inside a locked region leaves the mutex locked for good (`LoginTheorems.MutexLost`), and any client that
vanishes during its login costs the pool the thread that served it (`LoginTheorems.PoolLosses`). The
descriptor of a refused or vanished connection is never closed (`HandshakeTheorems.LeakedForGood`). In
the shell, `a | > f` redirects `a` (`Shell.GroupedGap`), and an operator at the end of a line is an
argument (`Shell.TrailingOperator`).

## Model

| member | source | states |
|---|---|---|
| LoginRuns.StepKeepsInv | hw6/server.c:1170-1722 | every undisturbed step of every thread keeps the whole invariant: list, sessions, descriptors, queue, counts, order, mutex, outputs and history |
| LoginRuns.CrashCloseExact | hw6/server.c:233-251 | closing after a crash keeps the invariant if and only if the account has not been connected again since it was taken offline |
| LoginDisturbed.AccountLost | hw6/server.c:233-261 | for any account and its right password a complete run exists from a server that has the account to one that does not |
| LoginTheorems.Ownership | hw6/server.c:495-574 | in every state of an undisturbed run account names differ, connected means having a descriptor, no two accounts and no queued or unfinished connection share one, and the lookup by descriptor finds its account |
| LoginTheorems.LogoutFindsUser | hw6/server.c:1562-1575 | the lookup by descriptor at a BYE finds the account the command came from, never null |
| LoginTheorems.Linearizable | hw6/server.c:1211-1447 | every undisturbed interleaving is a run of the atomic account table: the recorded operations were legal one after the other, yield the accounts in memory, and stand in the order of the mutex acquisitions, one for each locked region |
| LoginTheorems.AccountsKept | hw6/server.c:612-646 | over every undisturbed run the account list only grows at its end, and no name, stored password or salt of an account ever changes |
| LoginTheorems.RecordsGrow | hw6/server.c:1211-1458 | no step takes anything from the account list or rewrites an outcome: the removals by descriptor on login paths find nothing |
| LoginTheorems.RegisteredCanLogIn | hw6/server.c:741-767 | whoever registered is not refused the same password in any later login of an undisturbed run |
| LoginTheorems.OnlyRegisteredPassword | hw6/server.c:1109-1127 | nobody gets into a registered account with a password that does not hash, with the registered salt, like the registered one |
| LoginTheorems.QueueBalance | hw6/server.c:307-360 | queue length is semaphore plus producer before its post plus consumers before their pop; a consumer past the semaphore finds a connection; connections are served in order of arrival, none twice |
| LoginTheorems.PoolLosses | hw6/server.c:199-215 | a thread of the pool is lost if and only if a client it served has vanished; all others go back to the queue |
| LoginTheorems.OneClientEach | hw6/server.c:1471-1478 | without a pool no thread ever turns to the queue: each serves the client it was made for |
| LoginTheorems.MotdBeforeUoff | hw6/server.c:699-714 | on no connection is a UOFF written before its MOTD |
| LoginTheorems.OutputsClean | hw6/server.c:1358-1367 | over whole runs, every message the server makes up holds the terminator once, at its end; only relayed MSG messages pass as they came |
| LoginTheorems.MutexLost | hw6/server.c:200-214 | a login thread that reads the end of its input while it has the mutex owns it in every later state |
| LoginCommands.ReadableServes | hw6/server.c:1707-1714 | a readable descriptor is served for the account connected on it, and ignored if there is none |
| LoginCommands.CommandAnswered | hw6/server.c:1480-1606 | from the moment a session's descriptor is found readable, the next command is that session's: TIME, LISTU and BYE are answered with EMIT, the names of the connected accounts, each once and in list order, and BYE, on its descriptor and no other; any other command writes nothing yet |
| LoginCommands.RelayDelivered | hw6/server.c:1577-1603 | a MSG reaches, as it was read, the connections of the accounts named by its second and third token as they stand when it is relayed, and no other; if one of them was no account at the lookup or is not connected then, the sender alone is told ERR 01 |
| LoginCommands.UoffReaches | hw6/server.c:699-714 | each UOFF is written exactly once to every descriptor somebody is connected on, and to no other |
| LoginCommands.LeaveIsServed | hw6/server.c:1559-1577 | from a BYE, or the end of input, of a session until the accept/select thread turns to something else, its steps take just that account offline, tell its name to everybody connected and, after a BYE, close its descriptor and no other |
| LoginCommands.MutexProtects | hw6/server.c:299-360 | queue, list, mutex and existing records change only by a thread that holds the mutex, or takes it while it is free |
| AtomicAccounts.LoginProved | hw6/server.c:1109-1127 | in any legal history a login to a registered name is with a password that hashes like the registered one |
| LoginSteps.OwnerUnique | hw6/server.c:546-574 | a connected account is the only one on its descriptor |
| AtomicAccounts.CredentialsPermanent | hw6/server.c:741-767 | in the atomic table no later operation changes or removes an account's password and salt |
| AtomicAccounts.SessionsDistinct | hw6/server.c:717-739 | any sequence of legal operations leaves no two accounts with the same session descriptor |
| AtomicAccounts.RegisteredPasswordHolds | hw6/server.c:1109-1127 | after a registration no legal history holds a refusal of that password |
| LoginSteps.ReadPasswordAccepted | hw6/server.c:741-767 | a password read from NEWPASS and stored with the salt drawn for it is accepted: the two always fit the buffer |
| Accounts.PasswordDecision | hw6/server.c:741-767 | against a stored password just those attempts are right that fit the buffer with its salt and, salted, hash alike; a password that breaks the rule is not stored |
| Accounts.AccountList.AddUserList | hw6/server.c:495-513 | the node goes to the end of the list and nothing else changes |
| Accounts.AccountList.GetUser | hw6/server.c:515-544 | returns the first node of that name, or null exactly if there is none |
| Accounts.AccountList.GetUserByFD | hw6/server.c:546-574 | returns the first node with that descriptor, or null exactly if there is none |
| Accounts.AccountList.RemoveUserListByFD | hw6/server.c:612-646 | unlinks and returns the first node with that descriptor; the nodes before and after it stay in order, and every record as it is; null and no change exactly if there is none |
| Accounts.AccountList.Broadcast | hw6/server.c:699-714 | writes to the descriptors of the connected accounts, each once, in list order |
| Accounts.AccountList.ListNames | hw6/server.c:1524-1557 | the listed names are those of the connected accounts in list order |
| Accounts.ConnectedNamesExact | hw6/server.c:1524-1557 | what LISTU lists holds the name of the i-th account, if connected, at the place that counts the connected ones before it, and nothing else |
| Accounts.ConnectedFdsExact | hw6/server.c:699-714 | the same for the descriptors a broadcast is written to |
| LoginQueue.Queue.Add | hw6/server.c:307-327 | enqueues behind everything already waiting, on an empty or refilled queue as well |
| LoginQueue.Queue.Pop | hw6/server.c:329-360 | dequeues what has waited longest and keeps the links intact down to the empty queue; null exactly if nothing waits |
| LoginQueue.Queue.WalksMirror | hw6/server.c:299-360 | walking next from the head is walking prev from the tail backwards, and both meet every node |
| HandshakeTheorems.Agreement | hw6/client.c:1305-1489 | whatever all other clients do, a client that has left its login dialogue is in its session if and only if the server has an account connected on its descriptor under the name it gave; otherwise it has read ERR then BYE and nobody is connected there |
| HandshakeTheorems.DialogueExact | hw6/server.c:1170-1458 | all that is ever written to a client, but UOFF and MSG of other sessions, is a beginning of EIFLOW, HINEW name, SSAPWEN, HI, MOTD for a new user or EIFLOW, AUTH name, SSAP, HI name, MOTD for an old one, or a dialogue that ends in ERR and BYE; in its session it has been told all of it, but for the at most two messages a thread is about to write |
| HandshakeReasons.VerdictJustified | hw6/server.c:1211-1453 | whether a client is let in or sent away, and with whatever code, there was a reason: for ERR 100 that its name or password is not one token or does not fit, otherwise that at some moment of its dialogue the atomic account table justified just that for its name, its password and its kind of login |
| HandshakeReasons.WrongMessageExact | hw6/server.c:1449-1453 | a client is told ERR 100 if and only if its name is not one token that fits the buffer, or its password is not and its name was not refused first |
| HandshakeReasons.LoginSucceeds | hw6/server.c:1329-1447 | an old user whose name and password are those of an account when it connects ends in its session, or with ERR 00 because the account was in use at some moment of the dialogue |
| HandshakeReasons.ReloginSucceeds | hw6/server.c:1329-1447 | the same for the password the name was registered with |
| HandshakeReasons.RegistrationSucceeds | hw6/server.c:1211-1327 | a new user with one-word name and password that fit and keep the password rule ends in its session, or with ERR 00 because the name was taken at some moment of the dialogue |
| HandshakeReasons.PasswordHonoured | hw6/server.c:1109-1127 | no client that types the password its name was registered with is sent away with ERR 02 |
| HandshakeReasons.WrongPasswordKeptOut | hw6/server.c:1109-1127 | an old user whose password, salted, does not hash to what is stored for its name when it connects never gets into a session |
| HandshakeProgress.NeverStuck | hw6/server.c:1170-1458 | in no state of an undisturbed run do both sides wait for each other: until the dialogue is over the client can move, or the server can, or its mutex or all its login threads are taken by other connections, and then it is said which of these can move or waits for its own client or has exited with the mutex |
| HandshakeProgress.QueueOnTheMove | hw6/server.c:307-360 | with the mutex free and one login thread free, the semaphore is about to be posted or a free thread can take a step towards the first connection in the queue |
| HandshakeTheorems.LeakedForGood | hw6/server.c:1456-1458 | from the end of a refused login, and from the disconnect of a client that vanished during login or session, its descriptor is open in every later state |
| HandshakeTheorems.RefusedLeaks | hw6/server.c:1456-1458 | once no login thread serves a client that was sent away, the server never closes its descriptor |
| HandshakeSteps.StepTalks | hw6/client.c:1305-1489 | every step of client, login threads and accept/select thread keeps client position, unread bytes and server output matched |
| HandshakeFrames.ThreadUntouched | hw6/server.c:1170-1458 | a login thread that serves other connections leaves a dialogue's descriptor, records and output alone, but for broadcasts in a session |
| LoginClient.HearsExactly | hw6/client.c:1491-1508 | the client takes a message for a verb if and only if it is the verb the server wrote |
| LoginClient.ClientTexts | hw6/client.c:1317-1344 | the three messages of a login, character by character, for both kinds of user |
| LoginClient.LateRefusal | hw6/client.c:1362-1392 | in place of HI, an ERR that BYE follows is answered with BYE and ends the login with these two messages; anything else is taken for the session |
| LoginClient.ServerReads | hw6/server.c:1206-1329 | the server accepts a login message exactly when it has the expected verb, its field is one token and it fits the buffer; then it has read the whole message and that token |
| Framing.NextFrameExact | hw6/server.c:1788-1824 | a terminated message is read whole, whatever follows it, exactly when it fits the buffer |
| Framing.NextFrameIs | hw6/server.c:1788-1824 | a message ends at the first place where the stream ends, 1022 bytes are read, or the last four are the terminator, and is everything up to there |
| Framing.FramesRoundTrip | hw6/server.c:1788-1824 | repeated reading of concatenated messages returns exactly these messages in order, then reads what follows as if it stood alone |
| Framing.PartialFrame | hw6/server.c:1788-1824 | input that ends early is returned as it stands |
| Framing.ReadAllKeepsBytes | hw6/server.c:1788-1824 | reading until the end neither loses nor invents a byte and returns nothing empty before it |
| Framing.NextFrameEndsOnce | hw6/server.c:1788-1824 | what is read holds the terminator at most once, at its end, and fits the buffer |
| Framing.ReadInput | hw6/server.c:1788-1824 | the byte loop leaves exactly the next message and a NUL in the buffer, and the rest of the stream unread |
| Framing.Socket.ReadByte | hw6/server.c:1804-1806 | one byte moves from the stream to the buffer, or nothing changes at the end of input |
| Framing.ChatInputFrames | hw6/client.c:983-1004 | a line typed in a chat window reaches the server as one MSG message and one bare terminator exactly when the message fits the buffer; the single token of the terminator is no verb |
| Text.Tokenize | hw6/server.c:2105-2123 | the loop returns the tokens of the text |
| Text.TokensSplit | hw6/server.c:2105-2123 | a blank separates: what stands before and after it is tokenised apart |
| Text.TerminatorIs | hw6/server.c:1814-1817 | the four comparisons of the scanner are with the terminator |
| Text.TokensOfSpaced | hw6/client.c:1835-1853 | tokenising pieces joined by blanks gives the tokens of each piece in order, then the closing word |
| Text.InnerTokenUnterminated | hw6/server.c:1206-1240 | no token but the last of a scanned message can hold the terminator |
| Wire.CarriedWordClean | hw6/server.c:1206-1240 | every name taken from a login message is a word without blank and without terminator |
| Wire.MessageEndsOnce | hw6/server.c:1129-1168 | every message built from clean names holds the terminator exactly once, at its end |
| Wire.PlainTexts | hw6/server.c:1129-1143 | the text of each message without a field, character by character |
| Wire.FieldTexts | hw6/server.c:1129-1168 | the text of each message with a field, character by character |
| Wire.ErrorTexts | hw6/server.c:1145-1168 | the tokens of the four ERR messages |
| Wire.UtsilReadBack | hw6/client.c:1867-1879 | a LISTU reply is read whole exactly when it fits the client's buffer, and its tokens are then the connected names in order, a line break after each |
| Wire.MessagesReadBack | hw6/client.c:1608-1675 | the byte stream of any fitting messages is cut back into exactly these messages |
| Audit.SortingEndsBlank | hw6/parser.c:138-157 | a sort over any log gives the counted records, arranged, and the blank node last |
| Audit.ArrangedPermutes | hw6/parser.c:273-327 | the arranged records are a permutation of the log's records |
| Audit.InsertBeforeBlank | hw6/parser.c:293-327 | stopping at the last node is right because that node is the blank one |
| Audit.SortsExactly | hw6/parser.c:273-357 | the result is in order, by name, cmd or info in the order of a dictionary, in both directions and always; by time if and only if no later time follows a record without time (ascending) or the log is chronological (descending) |
| Audit.StrCmpIsBelow | hw6/parser.c:348-353 | the comparison is negative exactly when one text is a proper beginning of the other or has the lesser character where they first differ |
| Audit.SortingFinds | hw6/parser.c:164-221 | a query returns the blank node last and before it the named matching records, each as often as the log holds it, and nothing else |
| Audit.QueriesMean | hw6/parser.c:223-272 | a column filter asks for the text somewhere in that column's field, a keyword in any field, a time range for a time between the two |
| Audit.SelectExact | hw6/parser.c:164-221 | the matching records in the order of the log, each at the place that counts those before it |
| Audit.BlankTimeBlocks | hw6/parser.c:330-346 | in any log, a record with a later time that follows one without time ends up before it |
| Audit.TiesReversed | hw6/parser.c:293-327 | records with the same key come out in reverse log order, for every column, direction and log |
| Audit.NewestFirst | hw6/parser.c:330-346 | sorting by descending time is exactly reversing the log |
| Audit.QueriesRight | hw6/parser.c:164-221 | every filter gives an ordered list that is the matching part of the sorted log, in the same order, if and only if the log is orderly |
| Audit.SelectArranged | hw6/parser.c:164-200 | filtering then sorting is sorting then filtering |
| Audit.TimeRangeIsSlice | hw6/parser.c:206-237 | the result of a time range query is a contiguous stretch of the log sorted by time |
| AuditList.Walk | hw6/parser.c:293-310 | the walk stops at the first node not to be passed, at the last node in any case |
| AuditList.InsertSorted | hw6/parser.c:273-328 | a copy is linked in at its place: next and prev stay mutually inverse, the head has no prev, and the other records keep their order; blank names change nothing |
| AuditList.Log.InsertIntoAudit | hw6/parser.c:98-114 | appends to the log |
| AuditList.Log.SortBy | hw6/parser.c:138-157 | returns a well-formed doubly linked list of fresh nodes with exactly the named records of the log and then the blank node, in order whenever the log allows it, and leaves the log alone |
| AuditList.Log.FilterBy | hw6/parser.c:164-183 | likewise for the records that match in a column |
| AuditList.Log.SearchByKeyword | hw6/parser.c:185-204 | likewise for the records that match in any column |
| AuditList.Log.FilterByTimeRange | hw6/parser.c:206-221 | likewise for the records between two times |
| AuditLog.LineRoundTrip | hw6/parser.c:59-96 | the line of any event is parsed back to its time, name, verb and info exactly when no field holds a line feed and time and name no comma; info may hold any number of commas |
| AuditLog.LineFields | hw6/client.c:1103-1116 | a line is time, name, verb and info with a comma and a blank between them and a line feed at the end |
| AuditLog.LoginRecord | hw6/client.c:907-925 | what a LOGIN line says of a success and of a failure, the message cut at its first line feed |
| AuditLog.SessionRecord | hw6/client.c:927-981 | what LOGOUT, ERR and CMD lines say, for each outcome |
| AuditLog.MessageRecord | hw6/client.c:875-905 | what the lines of a received and of a sent MSG say |
| AuditLog.LogRoundTrip | hw6/parser.c:16-45 | reading the log of any events returns their records in order exactly when no event holds a line feed and no time and no name a comma; an unfinished last line does not matter |
| AuditLog.LineFeedCrashes | hw6/client.c:875-905 | a logged MSG whose text has a line feed with no comma after it makes the reader of the log fail |
| AuditLog.ParseMessage | hw6/parser.c:59-96 | appends exactly the parsed record, on any line on which the source does not fail |
| AuditLog.FillAudit | hw6/parser.c:16-45 | the byte loop builds the list of the records of all complete lines |
| AuditLog.TrimNewLine | hw6/client.c:1749-1758 | in place, the string is cut at its first line feed |
| LogFile.StepKeepsInv | hw6/client.c:1103-1116 | every action of a writer, its stdio buffer or the auditor keeps file, buffers and lock consistent |
| LogFile.WholeLines | hw6/client.c:1103-1116 | whenever nobody holds the file lock, the file is the whole lines of all events in lock order |
| LogFile.AuditorSeesRecords | hw6/parser.c:26-41 | the auditor only ever sees whole lines, and parses the records of all events before it, in lock order, exactly when none of them holds a line feed or a comma in time or name |
| LogFile.LockReleased | hw6/client.c:1103-1116 | whoever has the lock can always finish by its own actions alone; then the file is whole, and an auditor has read all of it |
| Shell.PipelineRoundTrip | hw4/320sh.c:1360-1491 | printing any stages, empty ones included, and parsing the line gives one process for each group of stages, in order: its arguments are the words, and in either direction file and descriptor are those of the last redirection, or none and -1 |
| Shell.GroupedAll | hw4/320sh.c:1453-1470 | with words in every stage but possibly the first, each stage is a process |
| Shell.GroupedGap | hw4/320sh.c:1453-1470 | a stage without words makes no process: its redirections go to the process before it |
| Shell.MeaningDescribes | hw4/320sh.c:1383-1414 | a stage's process has the stage's words, and in either direction the file and number of its last redirection |
| Shell.AtoiDecimal | hw4/320sh.c:1682-1723 | the number before an operator is read as decimal |
| Shell.AtoiAround | hw4/320sh.c:1682-1723 | white space before it is skipped, a sign heeded, and what follows its digits ignored |
| Shell.OperatorRead | hw4/320sh.c:1682-1723 | a redirection token yields its descriptor number, 0 without one, and is not taken for the other direction |
| Shell.RedirFed | hw4/320sh.c:1383-1414 | an operator and the token after it set file and descriptor of the current command, or, if that has no words, of the process before it; a bare output operator means -1, a bare input operator 0 |
| Shell.TrailingOperator | hw4/320sh.c:1416-1427 | an operator after any pipeline becomes an argument, of the last stage or, if that has redirections, of a process of its own |
| Shell.TrailingArgument | hw4/320sh.c:1416-1427 | the operator is the last argument of the process it ends up in |
| ShellParser.ParseIntoProcesses | hw4/320sh.c:1360-1491 | the loop builds a linked chain of new processes; field by field they are those the tokens mean |
| ShellParser.AppendProcess | hw4/320sh.c:1437-1472 | a process with these words as its arguments, no file and -1 twice is linked in last, unless it has no words and is not the first |
| JobTable.NumbersRise | hw4/320sh.c:1848-1872 | over every run of additions and removals job numbers are positive and rise from head to end, so none is used twice |
| JobTable.Jobs.GreatestJid | hw4/320sh.c:1848-1866 | the loop, which sometimes turns without advancing, ends with the greatest number in use |
| JobTable.Jobs.AddJobToList | hw4/320sh.c:1784-1808 | appends the job with a number one above the greatest, 1 in an empty list, and leaves the others and their numbers alone |
| JobTable.Jobs.CheckAndRemoveFinalProcess | hw4/320sh.c:1894-1918 | when its last process ends, exactly this job is unlinked: the jobs before it stay where they are, those after it move up by one, and every one keeps its number; a job not in the list changes nothing |

## Left out

- LoginTheorems.Linearizable: like every theorem on runs, for runs without the disturbed close of `handleClientCrash`; `LoginRuns.CrashCloseExact` is the exact condition on the step and `LoginDisturbed.AccountLost` a run that breaks it.
- LoginTheorems.Ownership: for the same runs.
- LoginTheorems.AccountsKept: for the same runs; in others accounts can be lost.
- HandshakeProgress.NeverStuck: says that a move is possible, not that the scheduler makes it. Login threads exit for good when their clients vanish, so a pool can run out of them, and a mutex that was exited with is never released; a connection then waits forever.
- HandshakeTheorems.Agreement: for names and passwords without the terminator; the client reads whole messages, which are the server's bytes as long as each fits the buffer (`Wire.MessagesReadBack`), and the server's relayed MSG messages count as whole too. What the client does once it is in its session, and a client that vanishes during its dialogue, are not followed.
- Framing.Socket.ReadByte: end of input and data only; a failing `read`, whose -1 the loop takes for a byte, is not modelled.
- Sockets, `select`, `fork` and `exec`, signals, terminals, the accounts database, verbose printing: input events or nothing.
- The salted hash, the eight characters of the salt, the password rule and time parsing are parameters; nothing is assumed of them, but that hashing never fails.
- The relay of a MSG reads two records without the mutex; here its two reads and two writes are one step, and its names are looked up in one earlier step.
- A received message of blanks only, on which the tokeniser follows a null pointer, and NUL bytes within messages.
- Limits of the fixed token, field, line and argument arrays: 100 tokens of 99 characters, log fields of 49, a thousand words per command.
- The reads before the start of the buffer in the first three turns of `readInput`: the terminator test starts with the fourth byte.
- The buffers in which the audit events are put together piece by piece: an event's text is a function of its fields.
- `peekLoginQueue`, `clearUserList` and the server's console commands: unused, or run at shutdown only.
- The `/log` test event, whose line has too few commas to be parsed, and the chat process's log lines, which are written without the file lock.
- `parseMessage` on lines with fewer than three commas, or with two adjacent ones, reads through a null pointer or a negative length; `AuditLog.ParseLine` yields None there.
- A plain shell word that contains a redirection character, an empty command line, and number overflow in `atoi`.
- Pipes, waiting and process groups in `executeJob`, shell history, quoting, and the background flag.
- `hw5`, the earlier server without the lock, and `hw6/util.c`.

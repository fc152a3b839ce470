# srun: the command supervisor, modelled and proved

srund forks one supervisor process for every connection. The supervisor reads a request, clones a command,
collects its two output streams, limits its time, keeps the client alive with pings, and answers. This project
models that supervisor, its streams, the client that talks to it, any number of supervisors sharing the tmpfs
registry of running commands, and the configuration overlay, and proves what holds in every run of them.

## How it is built

Code that works by changing variables is a class whose methods follow the code statement by statement; each
method is proved against a function on values, and the properties are proved about the functions and about
every run built from them.

| files | what they hold |
|---|---|
| `Types`, `Kernel` | messages and constants; descriptors (lowest free number first), the epoll set, pipes, file names |
| `Streams`, `StreamInvariant`, `Collector` | one output stream: functions, what stays true of it, and the class `Output` |
| `Supervisor`, `Effects` | manager.cpp as a state machine: every handler a function of the state and of what the system chooses; and what single handlers and turns do, said without those functions |
| `ChildInvariant`, `Wiring`, `History`, `OneRequest` | the invariants, proved handler by handler |
| `Guarantees`, `WriteEnds`, `Drain`, `Overwritten` | theorems about runs: safety, who can write to a pipe, termination and the arrival of the answer, and one run the code gets wrong |
| `Management` | the class `Manager`: every handler of manager.cpp, and whole runs, proved equal to `Supervisor` |
| `Calls`, `Conversation`, `Silence` | the client class `Srunc`, client and supervisor together over the two directions of a connection, and a run in which a client is given up |
| `Fleet` | any number of supervisors over one registry |
| `Settings`, `Configuration` | the configuration overlay and the class `Config` |

A run is a sequence of actions in any order: the command writes, lets go of a pipe, or ends; the client writes,
reads, or closes; the timer expires; SIGTERM arrives; another supervisor moves; and the supervisor takes one step
of its loop. epoll_wait may return any non-empty choice of at most 20 ready descriptors in any order, may be
interrupted, and times out only when nothing is ready. Reads may cut a stream anywhere. Every system call of
`handle_request` that the code checks (pipe, clone, the cgroup files, the registry file, opening a redirect
file, creating, setting and watching the timer, and watching either stream) may fail, except the write
to a connection that is open.

Theorems about whatever the client sends: `RunChild`, `SignalsAndExit`, and the `Fleet` module. Theorems about
a connection that has carried at most one request so far, which is all that `Srunc` ever sends: `RunOne` and
the rest of `Guarantees`. The `sticky` field of a state marks the repaired supervisor, which does not let a reap
overwrite a time-out; with `sticky` false the state machine is the code as it is.

## Where the code departs from its intent

The model follows the code; these are stated or proved, not repaired, unless a repair is named.

- A time-out state is overwritten by the reap that follows it (manager.cpp:180, 217-222). `ReplyState` says
  exactly what a reply carries, `NaiveTimeoutIff` when the naive reading holds, `TimeoutCanBeLost` gives a run
  in which it does not, and `StickyLaw` treats the repair.
- The 32 MB cap of a redirect file asks for an offset that is -1 and large (output.cpp:119). `CopyFile` is proved
  to copy everything it reads.
- A redirect file is not always the whole stream: a call of receive that reads n > 0 bytes ends the stream without
  having seen its end exactly when the 32-bit counter turns over, that is when n modulo 2^32 is 0 or at least 2^31
  (output.cpp:103-131). `FileEndsIff` is the exact condition at the call, `FileEndsEarly` a failing input,
  `FileCutShort` shows how any run with a FILE stream can come to it, and `FileCopied` that nothing else can end
  such a stream early in any run.
- The environment loop never increments its counter (config.cpp:181-194). `EnvLoopEndsIff` proves that it ends
  exactly on groups without env1; `Envs`, used everywhere else, has the increment put in.
- A SYN from the client is answered by that SYN and not by the prepared ACK (manager.cpp:278-281). `Answer` does
  the same.
- A request overwrites the previous one before the guard that allows one command only (manager.cpp:286, 401), and
  LIST clears the backend flag (manager.cpp:292). Both are modelled; `RunChild` covers such clients too.
- The command can lose a stream to the two calls of `dup` (output.cpp:66-77, manager.cpp:487-488): a pipe whose
  write end is on its own target already is closed, and one of the error stream that sits on descriptor 1 is
  overwritten when the output stream has no pipe. `DupsStandIff` is the exact condition on the streams,
  `CommandHoldsIff` the one on the supervisor's table (enough of the descriptors 0, 1 and 2 open before `load`),
  and `DupCloses` and `DupOverwrites` are tables from which `load` produces either failure.
- A client that has read a ping but not yet written its acknowledgement can be given up for silence
  (manager.cpp:160-167, srunc.cpp:97-102): `SynTimeoutIff` says exactly when, and `GivenUpWhileHolding` is a run in
  which it happens and costs the client its command.

## Model

| member | source | states |
|---|---|---|
| Streams.CollectedText | src/output.cpp:98-132 | However the reads cut a stream, the text kept is a prefix of it, the whole of it up to 8 MB, at most 1023 bytes over the cap, at least the cap if anything was lost; and the int counter of one call never overflows in MSG mode |
| Streams.CollectAppend | src/output.cpp:104-113 | Collecting in two wakeups gives what one wakeup with all the reads gives, unless the first one cut the stream |
| Streams.CollectBound | src/output.cpp:103-113 | From any legal text, one call neither keeps more than the cap plus 1023 bytes nor counts more than 2^23 + 2047 |
| Streams.LongStreamsDiffer | src/output.cpp:107-112 | For every stream over the cap, two ways of cutting it leave different texts |
| Streams.ChunkingIndependentIff | src/output.cpp:98-113 | The text is independent of the sizes of the reads exactly for streams of at most 2^23 bytes |
| StreamInvariant.ReceiveSound | src/output.cpp:98-132 | A delivered event loses no byte (text or file, plus what is still in the pipe, is the stream), touches no other pipe, gives up exactly the stream's own descriptors when it ends, and always uses up bytes or the end of file |
| StreamInvariant.FileEndsIff | src/output.cpp:103-131 | A ready FILE stream is ended by a call exactly if the call reads nothing, and then its end is there and the file is the stream, or reads a number of bytes at which the 32-bit counter is zero or negative |
| StreamInvariant.FileEndsEarly | src/output.cpp:103-131 | 2^31 pending bytes are such a number: the stream is closed while its writer still holds the pipe |
| StreamInvariant.LoadFailsIff | src/output.cpp:48-64 | load fails exactly if a file to redirect to is missing or a pipe that is needed cannot be made, and then nothing was opened |
| StreamInvariant.LoadBoth | src/output.cpp:48-64 | Opening both streams gives each the pipe its mode calls for, with four new descriptors none of which is shared or was in use |
| StreamInvariant.InheritKeeps | src/manager.cpp:434-436 | clone leaves the parent's two streams as loaded and the command holding both pipes |
| StreamInvariant.BindBoth | src/output.cpp:79-96 | After bind of both streams no write end is left in the supervisor, both read ends and nothing else are added to the epoll set, and each stream starts sound |
| StreamInvariant.DupsStandIff | src/manager.cpp:487-488 | Over both calls of dup: each pipe ends at its target descriptor and nowhere else exactly if no write end was on its own target before and the error stream's was not on 1 while the output stream has no pipe; and then the command has no other end of a pipe (dup is src/output.cpp:66-77) |
| StreamInvariant.DupCloses | src/output.cpp:66-77 | With descriptors 0, 1 and 2 free, load puts a pipe on descriptor 1, and after dup the command has no write end at all |
| StreamInvariant.DupOverwrites | src/output.cpp:66-77 | With 0 and 1 free, 2 in use, no pipe for output and one for errors: after both dups the command has no write end at all |
| StreamInvariant.DupNull | src/output.cpp:66-77 | Without a pipe the target becomes /dev/null, except that it is closed in the end exactly if it was the lowest free descriptor; nothing else changes |
| WriteEnds.CommandHoldsIff | src/manager.cpp:421-488 | In every reached state about to run any request: the command has each of its pipes at 1 and 2 and nowhere else exactly if 0 or 1 was open (with a pipe for output), or two of 0, 1 and 2 were (with a pipe for errors only); and then it has no read end, and the pipes it can write to are all the pipes there are, counted as held from clone on |
| WriteEnds.EndOfFileIff | src/output.cpp:79-96 | In every run, an open stream is readable exactly if bytes are waiting or the command and all it started have let go of that stream's pipe since the run began |
| Collector.Output.Load | src/output.cpp:48-64 | load as a function of mode, path and free descriptors, with both errors |
| Collector.Output.Dup | src/output.cpp:66-77 | The descriptor table of the command after dup2 and the two closes |
| Collector.Output.Bind | src/output.cpp:79-96 | bind with its redirect file, the errors of open and epoll_ctl and what each leaves, and the immediate end of a stream without a pipe |
| Collector.Output.ReadText | src/output.cpp:104-113 | The MSG loop keeps exactly the text Collect says, and its counter is the bytes read modulo 2^32, signed |
| Collector.Output.CopyFile | src/output.cpp:114-124 | The FILE loop copies every byte whatever lseek returns |
| Collector.Output.Receive | src/output.cpp:98-132 | receive: the new text, the bytes taken from the pipe, and the closing of both descriptors at the end |
| ChildInvariant.RunChild | src/manager.cpp:80-109 | In every run, with any client: clonepid is positive exactly while a command runs, the only un-reaped child is that command, its registry entry exists exactly then, and every signal of the supervisor is well aimed (also 208-235) |
| ChildInvariant.WaitChildListed | src/manager.cpp:208-235 | wait_child keeps command, status and registry entry in step and sends no signal |
| ChildInvariant.HandleRequestGood | src/manager.cpp:399-482 | clonepid, status, registry entry and signals stay in step whether a request is started, refused, or fails at any point, and only a command that was registered is left without an exception |
| ChildInvariant.DestroyChild | src/manager.cpp:102-114 | manager_destroy leaves no command behind that was not sent SIGTERM |
| Wiring.TableReceive | src/output.cpp:126-131 | A stream event keeps the interest set exact and every other watched descriptor as it was |
| Wiring.StartCommandPlumbing | src/manager.cpp:421-482 | A started command's descriptors, streams, timer and interest set are those its request asks for; nothing older changes |
| Wiring.HandleEventPlumbing | src/manager.cpp:169-187 | Handling one ready event keeps the wiring and leaves every other ready descriptor watched and ready; no handler writes to a closed connection |
| History.LastWriterLaw | src/manager.cpp:217-222 | The state in a result is TIMEOUT exactly when the timer event came after the reap, otherwise NORMAL exactly for a command that exited, with whatever code, and ABNORMAL for any other end; the value returned is the exit code (also 176-180) |
| History.StickyLaw | src/manager.cpp:217-222 | Repaired supervisor: the same, with TIMEOUT exactly when the timer fired before the reply (also 138-145, 176-180) |
| History.LatestTimeout | src/manager.cpp:176-180 | The latest verdict is TIMEOUT exactly when some firing has no reap after it |
| OneRequest.RunOne | src/manager.cpp:116-189 | All one-request invariants hold in every run: answers, history, wiring, streams, timer, keepalive switch and batches |
| OneRequest.WaitChildOne | src/manager.cpp:208-235 | A reap keeps those invariants and adds itself to the history once |
| OneRequest.LoopTopOne | src/manager.cpp:131-155 | So does the top of the loop, whether it replies, exits or goes on |
| OneRequest.DispatchOne | src/manager.cpp:169-187 | So does any event of any batch, including one that throws |
| Guarantees.SignalsAndExit | src/manager.cpp:80-152 | With any client: SIGTERM goes only to the un-reaped child or, for STOP, to a registered pid; at most one child; a normal exit leaves no child and no entry |
| Guarantees.ExactInterest | src/manager.cpp:116-187 | In the loop epoll watches exactly the live ones of connection, timer and the two read ends, all distinct and open; no write end; a redirect file exactly for a FILE stream that flows (also 260-264, 364-369) |
| Guarantees.NoStaleDispatch | src/manager.cpp:169-187 | Every event left in a batch is open, watched, still ready and of the handler it matches, whatever the earlier handlers did |
| Guarantees.OneCompleteAnswer | src/manager.cpp:134-146 | At most one answer; a foreground result goes out after the reap and the end of both streams, and its MSG texts are complete up to the cap (also 75-78) |
| Guarantees.TextKept | src/output.cpp:104-113 | In every run, a MSG stream that flows has lost nothing, and a finished one is kept whole up to the cap and ended because every writer was gone, or was cut at the cap |
| Guarantees.FileCopied | src/output.cpp:114-131 | In every run, the file is what was read from the pipe, whole exactly if nothing is left in the pipe; and a finished FILE stream saw its end unless the call that finished it turned the counter over |
| Guarantees.FileCutShort | src/output.cpp:114-131 | From any reached state with a FILE stream flowing, of output or of errors, and a writer, a write that brings the unread bytes to 2^31 and one event end the stream with the writer still there |
| Guarantees.TimeLimitKept | src/manager.cpp:340-370 | A live command with a time limit has its timer armed and watched, with the request's limit or else 600 seconds in the foreground and 7200 in the background, or was sent SIGTERM; the timer is armed and fires at most once (also 80-85, 176-180) |
| Guarantees.ReplyState | src/manager.cpp:217-222 | In every run, state and return value of a result: TIMEOUT by the last writer as the code is, and by any firing if repaired; else NORMAL or ABNORMAL by whether the command exited; and its exit code (also 138-145, 176-180) |
| Guarantees.NaiveTimeoutIff | src/manager.cpp:176-180 | TIMEOUT is reported iff the timer fired, exactly in the runs where it did not fire before the reap (also 217-222) |
| Overwritten.TimeoutCanBeLost | src/manager.cpp:176-222 | There is a reachable state in which the timer fired on the command and the only answer sent says ABNORMAL (a run of ten steps) |
| Guarantees.NothingOnClosedConnection | src/manager.cpp:131-167 | No run ends because something was sent on a closed connection (also 260-269) |
| Guarantees.BackendIsolated | src/manager.cpp:157-167 | While a background command runs, no ping, silence or hang-up ends the loop or signals it; signals come from timer and shutdown only (also 260-269, 406-407, 474-481) |
| Guarantees.HangupStops | src/manager.cpp:260-269 | A foreground client that hangs up before its result has the live command signalled in that step, once, and nothing else |
| Effects.CommandFound | src/manager.cpp:372-396 | An absolute name is accepted as it stands iff it is a file and no directory; a relative one iff a directory of find_paths has it, and then the path in the first such directory replaces the name and all other arguments stay; no name, no command |
| Effects.StartsIff | src/manager.cpp:421-482 | A command is started exactly if no system call its request needs fails and its redirect files exist; and then its pid, process, entry, modes and redirect files are those of the request, and a background one is answered at once |
| Effects.ExecuteAnswered | src/manager.cpp:285-290 | A first EXE message in any run: without a command to be found, one BADARGS and nothing else; otherwise exactly that start, with the configured request and the arguments of find_command, or an exception |
| Effects.ExecuteRefused | src/manager.cpp:401-404 | While a command runs, an EXE message only replaces the request kept |
| Effects.KeepaliveAnswered | src/manager.cpp:278-284 | A SYN is answered by itself, an ACK closes the round, and nothing else changes |
| Effects.HangupAnswered | src/manager.cpp:260-269 | A hang-up turns keepalive off, unwatches and closes the connection, and signals the command exactly if it is alive, in the foreground and unanswered |
| Effects.DeadIsReaped | src/manager.cpp:208-235 | wait_child takes an ended command: process and entry go, its end, state and return value are kept, nobody is signalled |
| Effects.LivingIsKept | src/manager.cpp:208-235 | Without an ended command wait_child changes nothing |
| Effects.TurnReaps | src/manager.cpp:130-131 | Every turn of the loop reaps an ended command first |
| Effects.ShutdownSignals | src/manager.cpp:154-155 | A turn with a live command always goes on to epoll_wait, and sends it one SIGTERM exactly on shutdown; without a live command it signals nobody |
| Effects.DestroyEnds | src/manager.cpp:102-114 | manager_destroy signals a live command and waits, and without one closes connection, epoll set and timer at once and nothing else |
| Effects.WakeEnds | src/manager.cpp:107-113 | After its sleep it reaps a command that has ended, with its entry, keeps one that has not, and closes the same three descriptors |
| Effects.SilencePings | src/manager.cpp:157-167 | What each way epoll_wait can return does: start over, take the batch, ping, or throw |
| Effects.BatchInOrder | src/manager.cpp:169-187 | The events of a batch are handled one by one in their order, then the loop starts over; an exception ends in manager_destroy |
| Effects.StreamEvents | src/manager.cpp:172-186 | In every run, a watched descriptor other than the connection is read by the handler of the stream, or the timer, it belongs to |
| Drain.RunWaits | src/manager.cpp:134-157 | In every run with any client, the supervisor waits for events with a finished command only if the client is connected and the answer has gone out, and without a command only if the client is connected |
| Drain.EventDrains | src/manager.cpp:169-187 | With the command reaped and its writers gone, or none started, every event leaves strictly fewer bytes, ends of file, messages and descriptors |
| Drain.TopDrains | src/manager.cpp:131-152 | From there the top of the loop exits exactly when both streams are over and the connection is closed or shutdown was asked, or when no command was started and the connection is closed; and it sends the result exactly when both streams are over and none was sent |
| Drain.DrainTerminates | src/manager.cpp:130-189 | From every reached state with the client closed and the command reaped and its writers gone, or none started, the loop makes at most Rank + 1 further moves and can only leave by a normal exit |
| Drain.DrainBounded | src/manager.cpp:130-189 | The same from every such state for the number of events, when other supervisors, signals, interruptions and the timer interleave in any way |
| Drain.DrainProgress | src/manager.cpp:157-187 | From every such state, and from every reached state that still owes its client a result, the loop can move |
| Drain.AnswerArrives | src/manager.cpp:130-189 | From every reached state with a foreground command reaped, its writers gone and its client waiting, the result is sent within Rank moves of the loop however it goes; until then the loop can move and cannot take the client's silence for its end |
| Drain.AnswerBounded | src/manager.cpp:130-189 | The same for the number of events, when other supervisors, the timer, interruptions and the reader of the connection interleave in any way |
| Management.Manager.constructor | src/manager.cpp:116-126 | The statics and the first part of manager_start give an initial state of the machine |
| Management.Manager.SendTerm | src/manager.cpp:84 | A signal records its target and changes nothing else |
| Management.Manager.StopChild | src/manager.cpp:80-85 | stop_child signals only a running command |
| Management.Manager.ClearClonepid | src/manager.cpp:87-100 | The entry of the command goes and clonepid is 0 |
| Management.Manager.ReapCommand | src/manager.cpp:217-233 | Status, state, return value and registry after the reap of the command |
| Management.Manager.WaitChild | src/manager.cpp:208-235 | The waitpid loop, for any order in which children are reported |
| Management.ReapOneMore | src/manager.cpp:212-234 | One more reaped child takes the state after a set of reaps to the state after the larger set |
| Management.Manager.Destroy | src/manager.cpp:102-107 | manager_destroy up to its sleep |
| Management.Manager.Wake | src/manager.cpp:107-113 | manager_destroy after its sleep |
| Management.Manager.SendMessage | src/manager.cpp:237-250 | What goes out, the flag it sets, and the error on a closed connection |
| Management.Manager.FindCommand | src/manager.cpp:372-396 | The first directory that has the command decides; an absolute name stands for itself; directories and empty names are refused |
| Management.Manager.SetTimeout | src/manager.cpp:340-370 | No timer for a negative limit, 600 or 7200 seconds for none, and what the errors of timerfd_create, timerfd_settime and epoll_ctl leave |
| Management.Manager.Spawn | src/manager.cpp:434-468 | The child, its cgroup and its registry entry, with the state each failure leaves |
| Management.Manager.HandleRequest | src/manager.cpp:399-482 | handle_request with its guard, its BADARGS reply and its start |
| Management.Manager.StartCommand | src/manager.cpp:421-482 | Streams, child, bind, timer and immediate reply, in that order, stopping at the first failure |
| Management.Manager.CloseConnection | src/manager.cpp:260-269 | A hang-up: keepalive off, descriptor unwatched and closed, a foreground command without an answer stopped |
| Management.Manager.RecvMessage | src/manager.cpp:252-338 | One read of the connection: hang-up, or one message and its answer |
| Management.Manager.Answer | src/manager.cpp:277-337 | The switch over the five methods |
| Management.Manager.ReadRegistry | src/manager.cpp:293-308 | The directory loop of LIST yields the entries in the order the directory gives them |
| Management.Manager.StopAll | src/manager.cpp:318-331 | The loop of STOP signals the listed pids it names, in order |
| Management.Manager.LoopTop | src/manager.cpp:131-155 | One turn from the top of the loop to epoll_wait |
| Management.Manager.EpollReturns | src/manager.cpp:157-167 | The keepalive after a time-out of epoll_wait |
| Management.Manager.TimerFires | src/manager.cpp:176-180 | Signal, unwatch, close, state |
| Management.Manager.HandleEvent | src/manager.cpp:170-186 | The chain of comparisons that picks a handler |
| Management.Manager.Dispatch | src/manager.cpp:169-187 | One turn of the event loop, with the exception path of srund.cpp |
| Management.Manager.Start | src/manager.cpp:116-189 | The object, driven by any schedule the system allows, is in the state the machine says |
| Calls.CallSucceedsIff | src/srunc.cpp:93-109 | A call succeeds exactly with the first message that is not a ping, if every ping before it could be answered, and answers each of those once |
| Calls.CallFailsIff | src/srunc.cpp:93-114 | It fails exactly if instead the first such arrival is the end of file or a ping whose acknowledgement cannot be sent, and goes on exactly while all were answerable pings |
| Calls.Srunc.Exec | src/srunc.cpp:77-115 | The poll loop computes that outcome, writes the request and then one acknowledgement for each ping it answers, and closes the socket exactly on success |
| Calls.Srunc.Run | src/srunc.cpp:126-143 | run: the redirect files are created first, one that cannot be created ends the client before anything is sent; otherwise EXE goes out with the caller's request, and result and response are those of the call |
| Calls.Srunc.List | src/srunc.cpp:117-124 | list: LIST goes out; result and run list of the call |
| Calls.Srunc.Stop | src/srunc.cpp:145-154 | stop: STOP goes out naming exactly the pids, in order; result of the call |
| Conversation.TalkHolds | src/srunc.cpp:93-109 | Client and supervisor together keep the supervisor's invariants, the shapes of both queues, delivery, and one keepalive round at a time, with reading a message and acting on it two separate steps of the client |
| Conversation.SuccessIsTheAnswer | src/srunc.cpp:93-109 | At most one answer per connection, and an exec that returns true holds exactly that one, of the kind its request calls for |
| Conversation.RunDelivered | src/srunc.cpp:126-143 | A foreground run that succeeds with anything but BADARGS was reaped, and its MSG texts are what the command wrote |
| Conversation.QueueShapes | src/manager.cpp:160-167 | At most two messages are ever under way in a direction, and which pairs these can be (also 282-284) |
| Conversation.SynTimeoutIff | src/manager.cpp:160-167 | Whenever epoll_wait returns, "syn timeout" is thrown exactly if a whole period passed with nothing received while a ping was unread, or read by the client (src/srunc.cpp:97) and not yet acknowledged (src/srunc.cpp:102); the client is then still in its call (also 282-284) |
| Silence.GivenUpWhileHolding | src/manager.cpp:160-167 | A run of a client and its supervisor in which the client has read the ping (src/srunc.cpp:97), the period passes, "syn timeout" is thrown, and the running command gets SIGTERM |
| Fleet.StepKeeps | src/manager.cpp:434-468 | Any step of a supervisor touches only its own child, its own or ownerless entries, and signals in its own name (also 87-100, 208-235) |
| Fleet.GuaranteeIsRely | src/manager.cpp:87-100 | What one supervisor guarantees is what every other one relies on |
| Fleet.InterleaveConsistent | src/manager.cpp:116-189 | All supervisors keep their invariants in every interleaving of any number of them |
| Fleet.RegistryExact | src/manager.cpp:434-468 | Every registry entry belongs to one supervisor that runs that pid (or could not reap it when it died, after SIGTERM), and every running command has its entry with the client's request (also 87-100, 208-235) |
| Fleet.PidsDistinct | src/manager.cpp:434-468 | No two live supervisors run a command under one pid |
| Fleet.ListExact | src/manager.cpp:291-316 | LIST is answered with each entry exactly once and nothing else, in whatever order the directory is read, and clears the backend flag |
| Fleet.StopAnswered | src/manager.cpp:317-334 | A STOP message signals exactly the pids it names that have an entry, in order, is answered by one STOP, and changes nothing else |
| Settings.EnumerationIndependent | src/config.cpp:41-58 | The order in which the directory lists its files has no effect |
| Settings.BuildHolds | src/config.cpp:29-58 | The map holds exactly the files that parse, in increasing path order |
| Settings.LookupWinner | src/config.cpp:197-210 | A group is found iff some file has it, and the least path that has it supplies it |
| Settings.MainFileFirst | src/config.cpp:29-58 | The main file comes before every drop-in |
| Settings.OnlyGivenKeysChange | src/config.cpp:69-195 | A setting becomes the group's if the group gives a usable value and stays the request's if not; arguments and model never change |
| Settings.EnvRun | src/config.cpp:181-194 | Repaired loop: exactly the longest gap-free run env1, env2, ... in order |
| Settings.EnvLoopEndsIff | src/config.cpp:181-194 | The loop as written ends exactly on groups without env1, and there agrees with the repaired one |
| Settings.LoadApplies | src/config.cpp:197-210 | Loading applies the group that wins by path, all of it and nothing else: every setting, and the longest run of env keys after the request's own; without a model, or with one no file has, the request stays as it is |
| Settings.SecondLoad | src/config.cpp:197-210 | Loading twice changes nothing but the environment, and nothing at all exactly when there is no env1 |
| Settings.DigitsValue | src/config.cpp:184 | The keys env1, env2, ... are distinct: the digits of a number determine it |
| Configuration.Config.constructor | src/config.cpp:29-58 | The object holds the sorted map of all files that parse |
| Configuration.MakeConfig | src/config.cpp:29-58 | Construction fails exactly when the main file is missing |
| Configuration.Config.LoadRequest | src/config.cpp:197-210 | The request is filled from the first file in path order that has its group; the result tells whether there is one |
| Configuration.Config.Fill | src/config.cpp:69-195 | fillRequest key by key, with the repaired loop |

## Left out

- Each read is one whole message: both sides drain the socket and parse once (src/manager.cpp:257-273, src/srunc.cpp:59-64), so two messages that arrive together merge; `QueueShapes` shows that only the request with an acknowledgement behind it, and one ping beside one answer, can ever be affected.
- Protobuf encoding, including that proto3 does not write the method EXE, which is 0, and a message that does not parse.
- Overflow of the signed counter of receive is undefined in C++; it is taken to wrap around, as on the systems srun runs on.
- Bytes a command tries to write to a stream the supervisor has already closed count as written and lost; the SIGPIPE it gets is not modelled.
- Errors of epoll_create1, of the first epoll_ctl and of epoll_wait other than an interruption (src/manager.cpp:120-126, 157-158).
- Short writes, SIGPIPE, EPIPE and a full socket buffer: a write to an open connection is taken to succeed.
- Several requests on one connection: `RunChild`, `SignalsAndExit` and `Fleet` cover them, the one-request theorems do not; the code resets none of its statics for a second command.
- Reaping and unlinking are one step (src/manager.cpp:212 comes before 95), and each registry operation is atomic; flock does not provide that, because all supervisors share the open file description of src/srund.cpp:129.
- A child that ends between src/manager.cpp:131 and 157 may not wake epoll_wait when its time-out is -1; progress is stated from the moment the child is reaped.
- Reuse of a pid that init has already reaped, and a STOP whose target dies between the check and the kill.
- A registry file that cannot be written leaves no entry, and LIST meets no unreadable one.
- Registry theorems start from a freshly mounted, empty tmpfs (src/srund.cpp:128).
- cgroup files, namespaces, user and group ids, nice, chroot, execv and errno: only success or failure is kept.
- The redirect file is the bytes written through the stream's descriptor; truncation and other writers of the same file are not modelled.
- The destructors of Output, and Output objects of a second command on one connection.
- In the client: socket and connect errors, unlink of the redirect files (src/srunc.cpp:46-52), and a poll that fails.
- glib's parser: a key file is a map from groups to the values its getters return, and a key without a usable value is absent.
- Config::loadRequest for a named file (src/config.cpp:212-231): the same fillRequest without the search.
- srunctl, the accept loop of srund, daemon start, mounting, logging, the Loki scope guards: plumbing.

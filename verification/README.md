# Verification of krun-api

A Dafny model of the parts of krun-api that are hard to get right, with proofs: the in-band resize
protocol between `krun-exec` and the guest's `vminit`, the exec session around it, the life of a
machine under concurrent calls, the exit notification of a VM, the image cache, and the small
conversions at the edges (tar paths, C strings, environment variables).

`dafny verify dfyconfig.toml` checks everything.

## What is modelled

**The exec stream.** `Stream` says what a byte stream means (`Demux`: split at the leftmost
occurrence of the magic, again and again) without following the code; `Pattern` is the theory of the
"flush and restart at zero" matcher. `Demultiplexer` is the guest's loop as it is written: a 32 KiB
buffer, a match counter, the flush, the bulk copy, the inner read loop for split dimensions and the
flush at the end, over a source that splits the stream anywhere, may return nothing for a while, and
may report its error together with its last bytes. `Sender` is the host's loop and the message format,
`RoundTrip` relates the two, also for a connection that breaks at any byte, `Handshake` is the first
line of a session and `Session` the composition: `RunSession` runs the client's side and then the guest's
on what was sent.

**Machines.** `Lifecycle` is a transition system of the manager: any number of machines and of
goroutines in Start (which turns into the monitor), Stop and Delete. A step is one access to shared
state; the critical sections that write both maps take two steps, with the mutex held in between.
`LifecycleSafety` proves what callers gain from three rules, `LifecycleLimits` that none of them can be
dropped. `Manager` has the methods in the form of the code, on maps as fields, with everything the other
goroutines may do happening between their accesses; `Valid()` ties the fields to the transition system,
so each method is shown to take only its steps. `ExitChannel` is the VM's exit channel, `Shutdown` the
time that Stop takes, `Clones` the root directories that creating and deleting machines leaves on disk.

**The rest.** `ImageCache` has the interleavings of `Ensure` with its flights, and `Ensure` in the form of
the code among any other calls; `TarPath` places tar entries lexically; `CStrings` and `Env` are the conversions.

## Where the code falls short of what it promises

Each of these is a theorem: an exact condition, or a concrete run.

- Data is not escaped, so the stream is not transparent: `RoundTrip.RoundTripExact` gives the exact condition.
- Bytes that arrive in one read with the handshake line bypass the demultiplexer:
  `Stream.DemuxAfterRaw` and `Session.TerminalExact` say when that matters.
- Arguments are joined with blanks and split again, so their boundaries and spacing are lost, all after
  a newline goes to the terminal as if typed, and blank arguments give a login shell:
  `Handshake.CommandReceived` says what arrives, `Session.ArgvExact` when nothing is lost.
- A source that reports its error together with the last dimension bytes loses that resize:
  `Demultiplexer.DeliveredExactly`.
- A connection that breaks inside a message's magic leaves up to three bytes nobody typed:
  `RoundTrip.CutExact`.
- Without rules for callers a machine can be Running with no entry in the maps, a Stop can take the
  "no VM" branch with a VM alive, and a machine can have two live processes: the four witnesses in
  `LifecycleLimits` that break one rule each.
- With all rules kept, a Start that fails after spawning leaves a killed child that nobody ever waits
  for, next to which the machine can be started again: `LifecycleLimits.AbortedChildRemains` and
  `LifecycleLimits.AbortedStays`.
- `WaitTimeout` returning false does not mean that the child lives (`ExitChannel.TimeOutMayBeLate`), and on
  a VM whose start failed it returns true although a spawned child was never reaped
  (`ExitChannel.Handle.WaitTimeout`).
- `Ensure` can return a directory that is being filled, or one that nobody made:
  `ImageCache.HitWhileFilling` and `ImageCache.JoinedOtherName`. It does not when calls for one image do
  not overlap: `ImageCache.ReturnedIsComplete`.
- The tar guard drops entries below "/" and ".": `TarPath.GuardNeverSkips`.
- An empty string ends a C string array early: `CStrings.ArrayExact`.
- The comment on `Manager.Delete` speaks of a stopped machine; the code also takes one that was
  never started, and so does the model.

## Model

| member | source | states |
|---|---|---|
| Pattern.Leftmost | cmd/vminit/resize.go:40-42 | the first position of the pattern, none before it; the reference for every search below |
| Pattern.FlushIsSafe | cmd/vminit/resize.go:90-95 | flushing a failed partial match never gives away the beginning of an occurrence |
| Pattern.RestartFindsLeftmost | cmd/vminit/resize.go:54-96 | the one-counter matcher, from any counter value, stops where the first occurrence is |
| Pattern.RestartMissesBorder | cmd/vminit/resize.go:90-95 | for a pattern with a bad border, a concrete input on which the matcher misses an occurrence |
| Pattern.RestartCorrectIffBorderSafe | cmd/vminit/resize.go:54-96 | restart at zero is leftmost search on all inputs if and only if every border of every prefix waits for the same next element |
| Stream.MagicIsBorderSafe | cmd/vminit/resize.go:15-16 | 01 80 01 80 is such a pattern, its border 01 80 notwithstanding |
| Stream.ByteConservation | cmd/vminit/resize.go:43-117 | stream length = data bytes + 8 per resize + dropped tail |
| Stream.DroppedTail | cmd/vminit/resize.go:76-84 | the dropped tail is empty, or the magic with at most three more bytes |
| Stream.DemuxMessage | cmd/vminit/resize.go:58-89 | a message at the front is one resize, then the rest |
| Stream.WireFormat | cmd/vminit/resize.go:87-89 | byte by byte: 01 80 01 80 and columns and rows, high byte first, mean that resize |
| Stream.DemuxAfterRaw | cmd/vminit/main.go:316-331 | passing a prefix on unexamined changes nothing if and only if no magic starts inside it |
| Demultiplexer.LoneErrorLosesNothing | cmd/vminit/resize.go:50-50 | when the error comes alone, what is delivered is the meaning of the stream |
| Demultiplexer.DeliveredExactly | cmd/vminit/resize.go:78-84 | the meaning is delivered unless the error came with exactly the bytes that complete a message |
| Demultiplexer.DeliveredConserves | cmd/vminit/resize.go:43-117 | bytes in = bytes shown + 8 per applied resize + lost, the loss being 0 or 4 to 8 bytes, at most 7 when the error comes alone |
| Demultiplexer.FillDims | cmd/vminit/resize.go:76-85 | the nested read loop: the four bytes and what remains are the stream, however it is split; terminates with a source that makes progress |
| Demultiplexer.ReadDims | cmd/vminit/resize.go:66-85 | dimensions in the buffer, split over reads, or cut off |
| Demultiplexer.PlainRun | cmd/vminit/resize.go:97-105 | the bulk copy stops at the next byte that can start a magic |
| Demultiplexer.EndOfStream | cmd/vminit/resize.go:109-115 | a partial match at the end is data after all |
| Demultiplexer.CutInDims | cmd/vminit/resize.go:76-84 | a source that fails inside the dimensions: the message is dropped and everything before it is out |
| Demultiplexer.CopyChunk | cmd/vminit/resize.go:51-108 | after one read, all that was read is accounted for except the partial match, whatever follows |
| Demultiplexer.CopyWithResize | cmd/vminit/resize.go:43-117 | for every stream and every way to split it, the terminal sees exactly the delivered meaning of the whole stream |
| Sender.MessageBytes | cmd/krun-exec/main.go:177-180 | the eight bytes of a message, one by one |
| Sender.ToU16 | cmd/krun-exec/main.go:179-180 | the low sixteen bits: a size that fits stays as it is, another differs by a multiple of 65536 |
| Sender.Conn.Write | cmd/krun-exec/main.go:162-162 | a connection takes all bytes, or a prefix of them and fails |
| Sender.SendResize | cmd/krun-exec/main.go:172-183 | sends those bytes for the size cut to 16 bits, nothing when the size cannot be read |
| Sender.CopyStdinWithResize | cmd/krun-exec/main.go:142-170 | what is sent is the encoding of the turns' transcript, cut where the connection breaks |
| Sender.TranscriptOne | cmd/krun-exec/main.go:147-162 | a turn sends its window change, with its size, and then its input; a failed size query sends nothing |
| Sender.TranscriptConcat | cmd/krun-exec/main.go:146-169 | turns without a failure, timed-out reads among them, send one after the other and do not end the copying |
| Sender.TranscriptStops | cmd/krun-exec/main.go:149-168 | a failed read or size query ends it: nothing of later turns is sent |
| Sender.AllIsSent | cmd/krun-exec/main.go:142-170 | without a failure, all input and the sizes of all window changes are sent, in order |
| RoundTrip.MagicAtData | cmd/krun-exec/main.go:139-183 | the encoded stream has a magic at a data byte if and only if the data spells it, or spells its first half right before a resize |
| RoundTrip.RoundTripExact | cmd/krun-exec/main.go:142-183 | decoding the encoding gives the same data and resizes in order if and only if no data contains the magic and none before a resize ends in 01 80 |
| RoundTrip.CutMessageExact | cmd/vminit/resize.go:76-84 | a stream cut off inside the dimensions of its last message means the events before it if and only if they and the message are unambiguous |
| RoundTrip.CutExact | cmd/krun-exec/main.go:162-164 | after a break at any byte the guest has the events sent in full and at most three stray bytes if and only if what was sent is unambiguous |
| RoundTrip.CutStream | cmd/krun-exec/main.go:162-164 | an unambiguous stream can be cut anywhere |
| RoundTrip.CutInside | cmd/krun-exec/main.go:162-164 | cut inside an event, it brings the events before and, of a message with less than four bytes sent, these bytes as data |
| Handshake.ParsedAreWords | cmd/vminit/resize.go:21-38 | user and arguments of any parsed line are non-empty and without white space |
| Handshake.FieldsAround | cmd/vminit/resize.go:22-22 | white space separates: both sides are split independently |
| Handshake.FieldsTrim | cmd/vminit/resize.go:22-22 | trimming before splitting changes nothing |
| Handshake.FieldsOfJoin | cmd/krun-exec/main.go:101-104 | joined words are split into the same words |
| Handshake.FieldsNormal | cmd/vminit/main.go:302-304 | Fields(Join(Fields(s))) == Fields(s): what `su -c` is given loses only spacing |
| Handshake.Decimal | cmd/krun-exec/main.go:101-101 | printed numbers are digits that denote the number |
| Handshake.DecimalNotation | cmd/krun-exec/main.go:101-101 | and denoting is decimal, the most significant digit first |
| Handshake.NoLeadingZero | cmd/krun-exec/main.go:101-101 | no number but 0 is printed with a leading zero |
| Handshake.PrintedLine | cmd/krun-exec/main.go:101-104 | the printed line, part by part |
| Handshake.SizeExact | cmd/vminit/resize.go:29-34 | a size is read exactly when it is a decimal number below 65536, with its value |
| Handshake.ParsedByFields | cmd/vminit/resize.go:21-38 | what any line means by its fields: none, one or two give 80x24 and no command, an unreadable size is 80 or 24 |
| Handshake.FirstLineExact | cmd/vminit/main.go:287-287 | everything up to and including the first newline |
| Handshake.FieldsOfFirstLine | cmd/krun-exec/main.go:101-107 | the first line of a printed handshake is split into user, size and the words of the arguments' first line, whatever the arguments |
| Handshake.CommandReceived | cmd/vminit/resize.go:21-38 | for any arguments at all the guest gets user and size, and as command the words of their first line |
| Handshake.SpacingExact | cmd/vminit/main.go:302-304 | splitting and joining gives a string back if and only if its only white space is single blanks between words |
| Handshake.HandshakeExact | cmd/krun-exec/main.go:101-107 | the printed line, read up to its first newline and parsed, gives the same user, size and arguments if and only if all are words and the size fits 16 bits |
| Session.ReadLine | cmd/vminit/main.go:285-291 | the line up to the first newline, what was buffered beyond it, and the rest make up the stream; failure only without a newline or after a hundred empty reads |
| Session.HandleExecSession | cmd/vminit/main.go:282-331 | the process started, argument by argument, and the terminal: buffered bytes unexamined, then the meaning of the rest |
| Session.LineUnique | cmd/vminit/main.go:287-287 | however it is buffered, the handshake line is the same |
| Session.WholeExact | cmd/vminit/main.go:314-331 | of a whole stream the terminal gets the client's events if and only if only data was buffered with the line and the rest is unambiguous |
| Session.SessionExact | cmd/vminit/main.go:314-331 | the same for a connection that breaks at any byte |
| Session.TerminalExact | cmd/vminit/main.go:314-331 | the same when the error may come with the last bytes: the terminal gets what was sent if and only if it is readable and no resize was completed by the failing read |
| Session.AnyBufferingExact | cmd/vminit/main.go:314-331 | known before sending: the terminal is right for every buffering of up to n bytes if and only if what is sent is unambiguous and begins with n bytes of data |
| Session.LaunchExact | cmd/vminit/main.go:292-306 | for any arguments, `su -s /bin/sh -` is started for the client's user, with `-c` and the words of the arguments' first line, on a terminal of the client's size, however the line is buffered |
| Session.ArgvExact | cmd/vminit/main.go:302-305 | the shell is given the arguments as the client joined them if and only if they are not blank and single-spaced |
| Session.RunSession | cmd/vminit/main.go:282-331 | client and guest together, from any arguments and turns to command line and terminal log, for every break, split and late error; no process only after a hundred empty reads |
| Lifecycle.MindedStep | machine/manager.go:196-214 | the goroutine of a run stays until its monitor has cleaned up or Start has given up |
| Lifecycle.MapsStep | machine/manager.go:188-213 | every step keeps the maps equal but for the machine that the mutex holder is between two accesses for |
| Lifecycle.PairedStep | machine/manager.go:188-191 | every step keeps that, and each entry from a run of Start of that machine whose goroutine is there |
| Lifecycle.NoLeaksStep | machine/manager.go:182-214 | every step keeps: an open network has a goroutine, and a process not reaped has one if and only if it is not a child that a failed start killed |
| Lifecycle.InvStep | machine/manager.go:111-315 | every step of any goroutine keeps all invariants |
| Lifecycle.PairedAlways | machine/manager.go:111-315 | in every reachable state, whatever the callers do: outside critical sections the maps are the same, and nothing leaks but the killed children of failed starts |
| LifecycleSafety.AloneStep | machine/manager.go:111-124 | with the discipline, every step keeps a goroutine that is in Start the only one of its machine |
| LifecycleSafety.OrderlyStep | machine/manager.go:111-315 | with the discipline, every step keeps the positions, states and maps consistent |
| LifecycleSafety.CalmStep | machine/manager.go:111-315 | with the discipline, every step keeps that no child of a machine that shows Stopped or Created runs |
| LifecycleSafety.DisciplinedRunsAreSafe | machine/manager.go:111-315 | over all disciplined runs: Running implies both maps have the latest run; of two unreaped children of a machine, one was killed by a failed start; the "no VM" branch is unreachable; Stopped or Created implies that no child runs |
| LifecycleLimits.MonitorsDoneNeeded | machine/manager.go:208-213 | only the rule about monitors is broken, and there is no Stop: a restart leaves a machine Running, alive and unlisted |
| LifecycleLimits.StopWaitsNeeded | machine/manager.go:228-236 | only the rule that Stop begins with no Start active is broken: a Stop takes the "no VM" branch with the VM alive |
| LifecycleLimits.StartWaitsNeeded | machine/manager.go:257-271 | only the rule that Start is admitted with no Stop active is broken: a Stop past its deadline unlists the new run |
| LifecycleLimits.TwoLiveProcesses | machine/manager.go:261-271 | a run through the forced path with two unreaped children of one machine, neither from a failed start |
| LifecycleLimits.AbortedChildRemains | krun/vm.go:131-134 | with all rules kept, a failed start leaves a killed child minded by nobody, and the machine gets a second child |
| LifecycleLimits.AbortedStays | krun/vm.go:131-133 | no step of any goroutine reaps such a child or brings it back; that it does not go by itself is how the model reads that nothing waits for it |
| Manager.HistoryStep | machine/manager.go:111-334 | a step taken by a method extends a run of the transition system that has kept its invariant |
| Manager.ForeignExactly | machine/manager.go:111-334 | between a goroutine's accesses the others may take every step that is not its own |
| Manager.Manager.Create | machine/manager.go:66-83 | the machine is registered in state Created |
| Manager.Manager.Delete | machine/manager.go:290-308 | succeeds exactly for known machines that are Stopped or Created, and forgets just that one |
| Manager.Manager.AdmitStart | machine/manager.go:112-124 | admission exactly for known machines that are Created or Stopped; the state is set before the mutex is given back |
| Manager.Manager.Spawn | machine/manager.go:182-186 | on failure the network is closed, a spawned child killed and the machine back at Stopped |
| Manager.Manager.BringUp | machine/manager.go:134-186 | succeeds exactly when network and VM do; otherwise back to Stopped with the network closed |
| Manager.Manager.ListRun | machine/manager.go:188-191 | two writes under the mutex, after which both maps have the run |
| Manager.Manager.UnlistRun | machine/manager.go:210-213 | two deletions under the mutex, after which neither map has the machine |
| Manager.Manager.Publish | machine/manager.go:188-194 | both maps had the run at a moment before the machine shows Running |
| Manager.Manager.Start | machine/manager.go:111-217 | success leaves the run's monitor, after both maps had the run; refusal means not startable at some moment since the call, or a failed network or VM and state Stopped |
| Manager.Manager.Monitor | machine/manager.go:197-214 | ends only after it has shown Stopped, with the child reaped, the network closed and the machine unlisted |
| Manager.Manager.ReadForStop | machine/manager.go:221-230 | takes both map entries at one moment |
| Manager.Manager.CheckRunning | machine/manager.go:232-234 | goes on exactly when the state then is Running |
| Manager.Manager.BeginStopping | machine/manager.go:236-246 | Stopping is shown, and then the network read from the map is closed, before the VM is stopped |
| Manager.Manager.StopProcess | machine/manager.go:249-253 | a child that is up is killed unless its exit was seen, and no other process is touched |
| Manager.Manager.AwaitStopped | machine/manager.go:256-275 | returns only after Stopped was seen or, past the deadline, set |
| Manager.Manager.Stop | machine/manager.go:220-285 | success means Stopping and then Stopped were seen since the call, with no child running at that moment where callers keep the rules; refusal that the machine was unknown or not running since the call |
| Manager.Manager.StopAll | machine/manager.go:318-334 | every machine known at the call has been seen not running since |
| ExitChannel.ConsistentStep | krun/vm.go:136-143 | the exit error is in one place: with the reaper, in the channel, or with the one call that returned it |
| ExitChannel.Broadcast | krun/vm.go:194-214 | at most one call gets the error, exactly one if the child failed and any receive completed; exited implies reaped; none blocks after the close |
| ExitChannel.TimeOutMayBeLate | krun/vm.go:208-213 | a time-out with the child already reaped |
| ExitChannel.ReaperFinishes | krun/vm.go:138-143 | after the child is reaped nothing can keep the reaper from closing the channel |
| ExitChannel.Handle.Start | krun/vm.go:94-146 | success is exactly a child that was spawned and configured, with a reaper that has announced nothing yet; failure leaves nothing to wait for, even with a spawned child |
| ExitChannel.Handle.Wait | krun/vm.go:195-200 | on a started VM it returns only after the child was reaped, with the child's error, which no other call got; it never blocks once the channel is closed |
| ExitChannel.Handle.WaitTimeout | krun/vm.go:204-214 | the same when it reports an exit of a started VM; otherwise the timer has fired |
| Shutdown.Stopper.CloseNetwork | network/network.go:101-110 | waits for the network at most three seconds, and again only for what is left |
| Shutdown.Stopper.StopVm | krun/vm.go:152-192 | exactly when it returns, for every guest and child: at most 10 + 10 + 5 seconds, and no kill only if the guest agreed and the child has exited |
| Shutdown.Stopper.AwaitStopped | machine/manager.go:256-275 | returns at the first look that shows Stopped, or forces it after 10 seconds without one, plus one Close; at most 100 ticks |
| Shutdown.Stopper.Stop | machine/manager.go:236-284 | closes the network, then stops the VM, then waits for Stopped, with the time of each for every world; Stopped is shown within 41 seconds, which the worst world makes it take |
| Clones.HandsOver | machine/manager.go:54-84 | every step moves at most one clone from one holder to another |
| Clones.ConservedStep | machine/manager.go:290-315 | every step keeps: each clone made has exactly one holder, and is on disk until it is removed |
| Clones.BlameExactly | machine/manager.go:290-315 | a clone is kept exactly by a deletion that does not remove roots, stuck exactly when removal fails, gone exactly when a deletion that asked for it removes it |
| Clones.ClonesConserved | machine/manager.go:54-84 | over all runs of Create and Delete nothing else is removed and nothing twice; between calls the disk holds what was there and the clones of registered machines, kept roots and failed removals |
| Clones.Store.Create | machine/manager.go:54-84 | registers the machine, with a clone of its own when there is a base; nothing changes when cloning fails |
| Clones.Store.Delete | machine/manager.go:290-315 | forgets the machine and removes its root only when asked to and it is a clone |
| ImageCache.LeaderFindsComplete | internal/api/image_cache.go:63-68 | the second look, inside the flight, never finds a half-filled directory |
| ImageCache.InvStep | internal/api/image_cache.go:51-103 | every step keeps: one filler per directory, half-filled directories attended, results sound |
| ImageCache.FilledOnce | internal/api/image_cache.go:58-98 | over all interleavings: fillings of a directory never overlap, and none begins after one has succeeded |
| ImageCache.HitExact | internal/api/image_cache.go:58-61 | a call that finds its directory returns it, and it is complete if and only if no call is filling it |
| ImageCache.CompleteExact | internal/api/image_cache.go:51-103 | in every reachable state a directory is complete if and only if it exists and no call is filling it |
| ImageCache.IncompleteInTwoWays | internal/api/image_cache.go:58-103 | an incomplete directory was seen while being filled, or comes from a flight for another name |
| ImageCache.OrderlyStep | internal/api/image_cache.go:51-103 | if calls for one image do not overlap, every step keeps: nobody joins a flight, and what was returned is complete |
| ImageCache.ReturnedIsComplete | internal/api/image_cache.go:51-103 | over every interleaving in which calls for one image do not overlap, with failures anywhere, every directory returned without an error is complete |
| ImageCache.HitWhileFilling | internal/api/image_cache.go:58-61 | the rule is needed: a directory returned while being filled, then gone |
| ImageCache.JoinedOtherName | internal/api/image_cache.go:63-103 | and for one digest under two names: a returned directory that does not exist |
| ImageCache.Cache.FillUp | internal/api/image_cache.go:78-97 | extraction, init and resolv.conf, one after the other; any of them failing fails the flight and leaves no directory |
| ImageCache.Cache.Lead | internal/api/image_cache.go:63-98 | a flight fails exactly when its directory is not there and a step fails, and then leaves none |
| ImageCache.DirKept | internal/api/image_cache.go:58-98 | when calls for one image do not overlap, nobody else makes or removes an unfinished call's directory |
| ImageCache.Cache.Ensure | internal/api/image_cache.go:51-103 | one call among any others takes only steps of the system; when calls for one image do not overlap, it returns the directory, with image, init and resolv.conf, if it was there or no step fails, and otherwise an error and no directory |
| TarPath.RootedIsPlain | internal/api/image_cache.go:117-117 | cleaning below the root leaves no "..", "." or empty component |
| TarPath.TargetStack | internal/api/image_cache.go:117-117 | the target's components are the directory's followed by the name's |
| TarPath.CleanSkips | internal/api/image_cache.go:117-117 | cleaning drops empty components and "." |
| TarPath.CleanCancels | internal/api/image_cache.go:117-117 | and ".." together with the component before it |
| TarPath.CleanStops | internal/api/image_cache.go:117-117 | and ".." at the root |
| TarPath.CleanKeeps | internal/api/image_cache.go:117-117 | and leaves what remains as it is |
| TarPath.TargetBelow | internal/api/image_cache.go:117-141 | the target of an entry or of a hard link is the directory, or it and plain components below |
| TarPath.TargetIs | internal/api/image_cache.go:117-141 | it is the directory, or its cleaned name appended to the directory |
| TarPath.GuardNeverSkips | internal/api/image_cache.go:118-121 | for a clean directory the guard lets every name pass if and only if it is neither "/" nor "." |
| TarPath.Extract | internal/api/image_cache.go:106-145 | the loop does what the entries that pass the guard ask for, in order, up to the first faulty file, and fails exactly on a faulty file or a broken stream |
| TarPath.ExtractExact | internal/api/image_cache.go:106-145 | entry by entry, in order and up to the first faulty file: a directory made, a file written, a symbolic link made at the entry's place, a hard link from the named place to the entry's |
| TarPath.ExtractKeepsAll | internal/api/image_cache.go:106-145 | below a proper directory nothing is done outside it, even on failure, and it fails exactly on a faulty file |
| CStrings.Lib.CString | krun/lib.go:974-984 | NULL for the empty string, else a new terminated buffer; earlier buffers stay as they are |
| CStrings.Lib.CStringArray | krun/lib.go:986-996 | one pointer per string and a NULL; NULL for no strings |
| CStrings.ArrayExact | krun/lib.go:986-996 | reading the array back gives the strings if and only if none is empty or contains a NUL |
| CStrings.LaterReads | krun/lib.go:974-984 | strings handed out later do not change what an array reads as |
| Env.EnvSlice | machine/machine.go:74-83 | the slice lists the map: one entry KEY=VALUE per key, in whatever order the map is traversed |
| Env.EnvMap | internal/cli/image.go:43-50 | the loop gives the map of the entries |
| Env.Value | internal/cli/image.go:46-46 | an entry is its key, "=" and its value; without "=" it is all key |
| Env.MapOfLast | internal/cli/image.go:43-50 | the map has exactly the entries' keys, each with its last value |
| Env.ListThenMap | internal/cli/image.go:43-50 | a listing gives back its map, in every order, if and only if no key contains "=" |
| Env.MapThenList | machine/machine.go:74-83 | from a slice to a map and back: one entry per distinct key, with its last value, and the same map again |

## Left out

- Shutdown.Stopper.Stop: timers fire on time and steps other than waits take no time.
- Shutdown.Stopper.StopVm: the two-second dial limit is not separate from the ten seconds of the call.
- Manager.Manager.Stop: the wait is a number of looks, not a time; the time is in Shutdown. A call that finds the mutex taken when it needs it ends there with `Waiting`.
- Manager.Manager.Create: the clone and the rest of the configuration are in Clones.
- Manager.Manager.StopAll: the list of running machines is collected without keeping others from changing the maps, which the read lock does; that allows more runs, not fewer.
- Manager.Manager.Start: the race between setting the exec socket path and reading it.
- ImageCache.FilledOnce: twelve hex digits are taken to identify a digest, removing a directory is taken to succeed, and the reference is taken not to move between its two resolutions.
- TarPath.Extract: parents of targets, contents, modes, and where symbolic links on disk lead; failures that the code ignores.
- Session.HandleExecSession: the copy from the terminal back to the connection, and the end of the process; what they do to the other direction is that the source fails earlier.
- Session.ReadLine: decoding bytes to characters is a parameter of its caller.
- Session.RunSession: the guest reads after the client has written; the handshake itself is sent whole, and encoding it to bytes is a parameter (its first line and what follows it).
- Demultiplexer.CopyWithResize: writes to the terminal and size changes succeed.
- CStrings.Lib.CStringArray: the pointer array itself is not kept by the library, only the buffers; no strings and an absent list both give NULL.
- HTTP handlers, router, middleware, command-line clients, flags and `parseTarget`: plumbing with no hard property.
- The other functions of krun/lib.go and cmd/krun-vmm: one-line wrappers; libkrun is not part of this model.
- Generated protobuf and connect code.
- The virtual network apart from the time that closing it takes.
- Guest setup, mounts, signals, zombie reaping, raw terminal mode and vsock descriptors.
- Registry access, and what is inside an image.
- MAC addresses, `ExecPath`, `ExecArgs`, `imageName` and `shortSHA`: easy members.
- Logging, JSON and timestamps.

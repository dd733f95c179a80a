# Verified model of the chtho TCP library

chtho is a reactor-style network library: event loops that poll descriptors and run queued
callbacks, TCP connections handed between loops, a timer queue, two pollers, byte buffers, an
incremental HTTP parser, a bounded thread pool and a double-buffered asynchronous logger.
This project models the stateful cores of the library in Dafny and proves what they keep over
every run.

Each component is one file. Where several threads or loops meet, the file has three layers:

1. a state machine: `State`, `Step`, `Enabled` and `Apply`, one step per critical section, system
   call or stretch of code no other thread can see halfway, with system results, the scheduler's
   choices and the user's callbacks as parameters of the steps;
2. an invariant kept by every step, and from it theorems about every run from the initial state,
   that is, about every interleaving;
3. a class with the fields and methods of the source, whose methods change the fields step by step
   and are proved to do exactly what the state machine says, with the source's assertions proved
   at the places where the source has them.

`Asserted` in a state machine collects the assertions of the source along a step, null and
dangling pointers included; a run can only go on where they hold, and the `AssertionsHold`
lemmas say that they hold wherever a run can get.

| file | component |
|---|---|
| Common.dfy | notions several components share |
| Buffer.dfy | the compacting, growing byte buffer |
| Decimal.dfy | integer printing with truncated division and a mirrored digit table |
| HttpRequest.dfy, HttpContext.dfy, HttpResponse.dfy | request line and headers, the incremental parser, the response printer and its round trip |
| EventLoop.dfy | task queue and eventfd wakeup |
| ThreadPool.dfy | bounded pool with two condition variables |
| AsyncLogging.dfy | fixed buffers and the double-buffering logger |
| TimerQueue.dfy | timestamps, the two timer indexes, cancellation, the kernel timer |
| Pollers.dfy | poll and epoll registries |
| TcpConnection.dfy | one connection: state, outgoing byte stream, event dispatch |
| TcpServer.dfy | the life of connections across the main loop and the I/O loops |

## What the proofs found

- A task queued by the loop's own thread before `loop()` is not announced on the eventfd
  (chtho/net/EventLoop.cpp:186). `EventLoops.StuckExactly` says, before the call, exactly when the loop
  then sleeps on queued work, `EventLoops.StuckArises` that nothing else makes it, and
  `EventLoops.EarlyPushSticks` when a push does; the poll timeout ends the sleep.
- `loop()` clears `quit_` (chtho/net/EventLoop.cpp:81), so a quit issued before it is lost: the owner
  of an EventLoopThread that quits right after starting it (chtho/net/EventLoopThread.cpp:25-54) can
  then join a thread that does not end. `EventLoops.QuitHeededExactly` says which quits are heeded,
  `EventLoops.EarlyQuitIsLost` what becomes of the others.
- Cancelling a timer whose `addTimerInLoop` has not run yet is lost: it is in no index
  (chtho/net/TimerQueue.cpp:180-191). `TimerQueues.CancelTakesEffect` gives the exact condition under
  which a cancellation works, `TimerQueues.CancelBeforeInsertIsLost` what happens otherwise, and
  `TimerQueues.CanceledTooEarlyCanFire` that such a timer can still fire.
- `callingExpiredTimers_` is never initialised (chtho/net/TimerQueue.cpp:28-37); all results hold for
  either starting value.
- A `sendInLoop` that reaches the loop after `shutdownWrite` still writes, and if the kernel takes only
  part of it, the rest is written later and followed by a second shutdown
  (chtho/net/TcpConnection.cpp:98-119, 215-276). `TcpConnections.WritesAfterShutdownExactly`,
  `ShutsAgainExactly` and `WaitsAgainExactly` say which steps do this, `SilentExactly`,
  `ShutdownsCounted`, `OneShutdown` and `LateSendShutsAgain` what it means for runs; runs through
  `send()` in the loop are free of it.
- connDestroyed in state Disconnecting removes a channel that still asks for events
  (chtho/net/TcpConnection.cpp:200-207): `TcpConnections.DestroyAssertsExactly`.
- HUP without IN, reported together with PRI or RDHUP, makes one pass close and then read; if the
  read returns 0 the assertion in `handleClose` fails (chtho/net/Channel.cpp:59-69).
  `TcpConnections.PassAssertsExactly` is the exact condition.
- Two updates to no events in a row put a descriptor back into the epoll set with an empty event
  mask (chtho/net/poller/EPoll.cpp:106-127, `Pollers.EpollNoneToggles`); the interest map is unharmed.
- Poll keeps the index of a removed channel and stores a new channel's descriptor plainly even when
  it asks for no events; EPoll does neither, and does not see whose descriptor it is given.
  `Pollers.PollersPartExactly` says for every operation in every state whether the two part.
- Buffer growth never compacts first, yet stays within kPre + max(initSz, M, 2M - 2), where M bounds
  readable plus requested bytes, or within kPre + kInit if that is more and `shrink` is used; the bound
  is attained.

## Model

| member | source | states |
|---|---|---|
| Buffers.Ensured | chtho/net/Buffer.h:140-144 | making room keeps the readable bytes, leaves at least the requested room and never shrinks the vector |
| Buffers.StepBounded | chtho/net/Buffer.h:35-52 | one operation that asks for at most m readable plus requested bytes keeps the vector within the bound, and an emptied buffer has its indices back at kPre |
| Buffers.RunBounded | chtho/net/Buffer.h:35-52 | any run of such operations keeps any sufficient bound |
| Buffers.CapacityBounded | chtho/net/Buffer.h:35-52 | over every run from a new buffer the vector size never exceeds kPre + max(initSz, m, 2m - 2), or kInit if that is more and shrink is used |
| Buffers.CapacityBoundAttained | chtho/net/Buffer.h:122-127 | the capacity bound is reached by a concrete run for every m of at least 2 |
| Buffers.FindCRLF | chtho/net/Buffer.h:208-212 | the result is the first place where CR LF stands, or the length when there is none |
| Buffers.Buffer.constructor | chtho/net/Buffer.h:56-64 | no readable bytes, initSz writable bytes, kPre prependable bytes |
| Buffers.Buffer.Resize | chtho/net/Buffer.h:37-40 | growing at the end keeps the readable bytes |
| Buffers.Buffer.Compact | chtho/net/Buffer.h:41-51 | the overlapping move to kPre keeps the readable bytes, and the assertion kPre < readerIdx_ holds |
| Buffers.Buffer.EnsureWritable | chtho/net/Buffer.h:140-144 | afterwards the room is there and the readable bytes are the same |
| Buffers.Buffer.AppendBytes | chtho/net/Buffer.h:122-127 | the bytes are added at the end of the readable bytes, with the layout the capacity bound is about |
| Buffers.Buffer.AppendText | chtho/net/Buffer.h:119-127 | the text is added at the end of the readable bytes |
| Buffers.Buffer.Fill | chtho/net/Buffer.h:146-153 | copying to the write pointer extends the readable bytes and moves nothing |
| Buffers.Buffer.PrependBytes | chtho/net/Buffer.h:111-117 | the bytes are added in front of the readable bytes |
| Buffers.Buffer.RetrieveAll | chtho/net/Buffer.h:155-155 | nothing is readable any more and the indices are back at kPre |
| Buffers.Buffer.RetrieveBytes | chtho/net/Buffer.h:156-163 | exactly the first len bytes are dropped |
| Buffers.Buffer.RetrieveAsString | chtho/net/Buffer.h:165-176 | the first len bytes are returned and dropped |
| Buffers.Buffer.ShrinkTo | chtho/net/Buffer.h:181-194 | the readable bytes move unchanged into a new vector with at least the reserve writable |
| Buffers.Buffer.ReadFrom | chtho/net/Buffer.cpp:16-42 | a scatter read over the writable space and the stack buffer appends exactly the bytes received, in order; a failed read changes nothing |
| Buffers.Buffer.TakeOverflow | chtho/net/Buffer.cpp:36-40 | when more comes than fits, both parts together are appended in order |
| Buffers.Buffer.FindCrlf | chtho/net/Buffer.h:208-212 | searches exactly the readable bytes |
| Decimals.TruncDiv10 | chtho/logging/LogStream.h:119-119 | division as in C++: the quotient of the absolute values with the sign of the value, so truncated toward zero |
| Decimals.TruncMod10 | chtho/logging/LogStream.h:118-118 | the remainder as in C++: it takes the sign of the value and recombines with the quotient |
| Decimals.MirroredDigit | chtho/logging/LogStream.cpp:10-11 | the table around its middle gives the digit of the absolute value for every remainder from -9 to 9 |
| Decimals.DigitsRead | chtho/logging/LogStream.h:111-127 | the digits of a natural number are plain and read back to it |
| Decimals.PlainUnique | chtho/logging/LogStream.h:111-127 | plain digit text is the digits of the number it reads to |
| Decimals.DecimalReadsBack | chtho/logging/LogStream.h:111-127 | the text of every integer is canonical (optional minus, no leading zeros) and reads back to the same integer |
| Decimals.DecimalUnique | chtho/logging/LogStream.h:111-127 | every canonical text is the printed form of the integer it reads to, so printing and reading are inverse both ways |
| Decimals.LowFirstStep | chtho/logging/LogStream.h:116-121 | one turn of the do-while loop yields the low digit of the absolute value, whatever the sign, and the quotient shrinks |
| Decimals.LowFirstBackwards | chtho/logging/LogStream.h:125-125 | the digits in loop order, reversed, are the digits of the number |
| Decimals.BackwardsLaws | chtho/logging/LogStream.h:125-125 | reversal exchanges the parts of a text and is its own inverse |
| Decimals.ReverseText | chtho/logging/LogStream.h:125-125 | in-place reversal of the first n characters by two ends closing in, the rest untouched |
| Decimals.WriteLowFirst | chtho/logging/LogStream.h:116-121 | the loop terminates and leaves the digits low first for every integer, the most negative included |
| Decimals.Terminate | chtho/logging/LogStream.h:122-124 | sign and terminator go behind the digits and nothing past the terminator changes |
| Decimals.Convert | chtho/logging/LogStream.h:111-127 | for every integer the buffer holds its canonical decimal text and a terminator, the length is returned, and nothing past the terminator changes |
| HttpRequests.FindChar | chtho/net/http/HTTPContext.cpp:62-63 | first position of the character, or the length |
| HttpRequests.TrimSplit | chtho/net/http/HTTPRequest.h:55-60 | trimming removes blanks at both ends and nothing else, and leaves none there |
| HttpRequests.TrimAfterSpace | chtho/net/http/HTTPRequest.h:55-60 | a value printed after one space is trimmed back to itself if and only if it has no blanks at its ends |
| HttpRequests.TargetSplit | chtho/net/http/HTTPContext.cpp:68-77 | path and query together are the target, cut before the first question mark; without one the query stays as it was |
| HttpRequests.RequestLineParses | chtho/net/http/HTTPContext.cpp:60-88 | parsing method SP target SP version gives these parts back |
| HttpRequests.AcceptedIsRequestLine | chtho/net/http/HTTPContext.cpp:60-88 | an accepted line splits into a known method, a target without spaces and a known version |
| HttpRequests.RequestLineAccepted | chtho/net/http/HTTPContext.cpp:60-88 | a line is accepted if and only if it is a known method, a space, any text without a space (the empty one included), a space and a known version |
| HttpRequests.NamesRead | chtho/net/http/HTTPRequest.h:33-43 | a text is read as a method if and only if it is that method's name |
| HttpRequests.VersionsRead | chtho/net/http/HTTPContext.cpp:80-86 | a text is read as a version if and only if it is that version's text |
| HttpRequests.AcceptedIsRead | chtho/net/http/HTTPContext.cpp:60-88 | an accepted line consists of the name of the method stored, the target stored as path and query, and the text of the version stored; headers and receive time are left alone |
| HttpRequests.WrittenIsAccepted | chtho/net/http/HTTPContext.cpp:60-88 | every method, target without spaces and version, written out, is accepted and read back |
| HttpRequests.HttpRequest.constructor | chtho/net/http/HTTPRequest.h:31-31 | invalid method, unknown version, everything else empty |
| HttpRequests.HttpRequest.SetMethod | chtho/net/http/HTTPRequest.h:33-43 | the method is set, to Invalid for unknown names, and the result says whether it is known |
| HttpRequests.HttpRequest.AddHeader | chtho/net/http/HTTPRequest.h:52-62 | the two trimming loops store the trimmed text behind the colon under the text before it, replacing an earlier value |
| HttpRequests.HttpRequest.ProcessRequestLine | chtho/net/http/HTTPContext.cpp:60-88 | the pointer-walking code sets the fields, and keeps the partial updates of a failed line, as specified |
| HttpContexts.LineDecides | chtho/net/http/HTTPContext.cpp:24-53 | a first line is rejected if and only if it is no request line, and otherwise read for the method, target and version it says; a later one ends the headers if and only if it has no colon, and otherwise sets exactly one header, its trimmed value under the text before the first colon |
| HttpContexts.ParseTakesLines | chtho/net/http/HTTPContext.cpp:19-56 | the loop over bytes takes exactly the complete lines, in order, until one stops it, and leaves the rest unread |
| HttpContexts.SplitLines | chtho/net/Buffer.h:208-212 | every input is complete lines and a tail without a line end, so the result above covers every input |
| HttpContexts.NotStopped | chtho/net/http/HTTPContext.cpp:19-56 | a parse that does not stop has used up every complete line |
| HttpContexts.ParseLineAppend | chtho/net/http/HTTPContext.cpp:26-52 | what a complete line does is independent of the bytes behind it |
| HttpContexts.ParseAppend | chtho/net/http/HTTPContext.cpp:19-56 | parsing a then b in one piece is parsing a, and unless that stopped, parsing what it left followed by b |
| HttpContexts.ParseTimeless | chtho/net/http/HTTPContext.cpp:32-32 | the receive time influences nothing but itself |
| HttpContexts.FeedIsParse | chtho/net/http/HTTPContext.cpp:19-56 | feeding chunks behind an incomplete line equals parsing it all at once |
| HttpContexts.ChunkInvariance | chtho/net/http/HTTPContext.cpp:19-56 | any split of the input, a CR LF split included, gives the same verdict, state, request fields and unread bytes as the whole |
| HttpContexts.HttpContext.constructor | chtho/net/http/HTTPContext.h:27-27 | starts in ExpReq with an empty request |
| HttpContexts.HttpContext.ProcessLine | chtho/net/http/HTTPContext.cpp:29-49 | the loop body's two branches change state and request as specified; a colon-less line ends the headers |
| HttpContexts.HttpContext.TakeOne | chtho/net/http/HTTPContext.cpp:29-50 | a processed line and its CR LF are consumed, a rejected one is left in the buffer |
| HttpContexts.HttpContext.ParseOne | chtho/net/http/HTTPContext.cpp:22-54 | a turn that goes on shortens the readable bytes and leaves the outcome of the rest of the parse as it was |
| HttpContexts.HttpContext.Parse | chtho/net/http/HTTPContext.cpp:19-56 | the loop terminates and its result, state, request and unread bytes are those of ParseAll, hence chunk-invariant |
| HttpResponses.HeaderTextCrlfFree | chtho/net/http/HTTPResponse.cpp:28-34 | a printed header line contains a line end exactly when its key or value does |
| HttpResponses.ColonLineParsed | chtho/net/http/HTTPContext.cpp:40-50 | a line with a colon is stored and the loop goes on behind it |
| HttpResponses.HeaderLineParsed | chtho/net/http/HTTPContext.cpp:40-50 | a printed header line is stored under its key and consumed exactly |
| HttpResponses.EmptyLineEnds | chtho/net/http/HTTPContext.cpp:45-50 | the empty line ends the headers and leaves exactly the body |
| HttpResponses.BlockParsed | chtho/net/http/HTTPResponse.cpp:28-36 | the header loop on a printed block of any printable headers ends in Done with all of them stored in order and the body unread |
| HttpResponses.GeneratedPrintable | chtho/net/http/HTTPResponse.cpp:21-27 | the headers the printer generates itself always survive |
| HttpResponses.PrintedHeadersParse | chtho/net/http/HTTPResponse.cpp:21-36 | printer and parser undo each other: generated headers overridden by the response's own, exactly the body unread |
| HttpResponses.StoredAppend | chtho/net/http/HTTPRequest.h:61-61 | storing two lists of headers one after the other is storing their concatenation, the later overriding |
| HttpResponses.ParsedClean | chtho/net/http/HTTPContext.cpp:38-53 | whatever the input, no stored key or value contains a line end |
| HttpResponses.SurvivesIffPrintable | chtho/net/http/HTTPResponse.cpp:28-34 | a header comes back unchanged, with the body, if and only if its key has no colon, neither part a line end and the value no blanks at its ends |
| HttpResponses.LoneHeaderStored | chtho/net/http/HTTPContext.cpp:40-52 | a header with no line end is stored under the text before its first colon, whatever its key |
| HttpResponses.StatusLineReads | chtho/net/http/HTTPResponse.cpp:16-20 | the printed status line is one line and reads back to version, status and message |
| HttpResponses.GeneratedMeans | chtho/net/http/HTTPResponse.cpp:21-27 | unless the response has such headers itself, the receiver of a printed response reads the length of its body, or that the connection closes |
| HttpResponses.HttpResponse.constructor | chtho/net/http/HTTPResponse.h:34-37 | an empty response with status 0 |
| HttpResponses.HttpResponse.AppendStatusLine | chtho/net/http/HTTPResponse.cpp:16-20 | appends the status line and nothing else |
| HttpResponses.HttpResponse.AppendGenerated | chtho/net/http/HTTPResponse.cpp:21-27 | appends Connection: close, or the body length and Keep-Alive |
| HttpResponses.HttpResponse.AppendHeader | chtho/net/http/HTTPResponse.cpp:30-33 | appends one header line |
| HttpResponses.HttpResponse.AppendNext | chtho/net/http/HTTPResponse.cpp:28-34 | one turn of the loop appends the next header line to those before it |
| HttpResponses.HttpResponse.AppendOwn | chtho/net/http/HTTPResponse.cpp:28-34 | appends all of the response's headers in map order |
| HttpResponses.HttpResponse.AppendToBuf | chtho/net/http/HTTPResponse.cpp:14-37 | what is appended is the status line and the block whose parse is proved to give the headers and body back |
| EventLoops.StepKeepsInv | chtho/net/EventLoop.cpp:76-127 | every step of the loop or of another thread keeps order, conservation and the wakeup condition |
| EventLoops.RunKeepsInv | chtho/net/EventLoop.cpp:76-197 | so does every interleaving |
| EventLoops.RunHistories | chtho/net/EventLoop.cpp:115-127 | over every run exactly the tasks named by its pushes are queued, and exactly the oldest tasks of the batch are executed |
| EventLoops.TasksConserved | chtho/net/EventLoop.cpp:115-185 | in every interleaving executed tasks, the rest of the swapped batch and pendingCBs_ are together exactly the tasks that all threads pushed, in order |
| EventLoops.NoLostWakeup | chtho/net/EventLoop.cpp:180-197 | without pushes by the loop's own thread outside loop(), the loop is never in poll with work queued, the eventfd at zero and nobody about to write it |
| EventLoops.NoLostQuit | chtho/net/EventLoop.cpp:104-113 | a quit flag that is set while the loop polls has its wakeup written or under way |
| EventLoops.StuckExactly | chtho/net/EventLoop.cpp:76-86 | told before the call, in every run: loop() goes to sleep on queued work if and only if something is queued, the eventfd is at zero and nobody is about to write it; all that is queued was then queued early by the loop's own thread |
| EventLoops.StuckArises | chtho/net/EventLoop.cpp:83-86 | of all steps of all runs only the first test of a loop() call, under that condition, puts the loop to sleep on queued work |
| EventLoops.EarlyPushSticks | chtho/net/EventLoop.cpp:186-187 | whatever ran before, a task queued by the loop's own thread outside loop() puts the next call to sleep if and only if no wakeup is there or coming |
| EventLoops.QuitHeededExactly | chtho/net/EventLoop.cpp:80-83 | the next test of the loop after a quit ends it if and only if the quit was issued inside loop(); one issued before is cleared |
| EventLoops.EarlyQuitIsLost | chtho/net/EventLoop.cpp:81-81 | a quit by another thread outside loop(), from any such state, leaves the loop polling with the flag down and nothing to wake it after one turn |
| EventLoops.BatchRuns | chtho/net/EventLoop.cpp:83-126 | running the swapped batch executes all of it in order, and then the quit flag decides whether the loop goes on |
| EventLoops.WakeupRunsAll | chtho/net/EventLoop.cpp:83-99 | one turn of the loop after a wakeup drains the eventfd, executes every queued task in order and ends the loop if and only if it was told to quit |
| EventLoops.FinishedMeansExecuted | chtho/net/EventLoop.cpp:115-127 | in every interleaving, once a batch is finished all of it has been executed in order, and once nothing is queued either, so has everything queued before and since |
| EventLoops.WakeupsCounted | chtho/net/EventLoop.cpp:135-197 | between reads the eventfd goes up by exactly the wakeups written, as far as its largest value, and a read leaves zero |
| EventLoops.EventLoop.constructor | chtho/net/EventLoop.cpp:36-59 | starts idle with nothing queued and the eventfd at zero |
| EventLoops.EventLoop.PushOther | chtho/net/EventLoop.cpp:180-185 | another thread's critical section of queueInLoop keeps the invariant, the wakeup pending |
| EventLoops.EventLoop.PushOwn | chtho/net/EventLoop.cpp:180-187 | the loop thread's push owes a wakeup exactly while pending functions are being called |
| EventLoops.EventLoop.WakeupOther | chtho/net/EventLoop.cpp:190-197 | raises the eventfd and settles the thread's owed wakeup |
| EventLoops.EventLoop.WakeupOwn | chtho/net/EventLoop.cpp:190-197 | raises the eventfd from the loop's own thread |
| EventLoops.EventLoop.QuitOther | chtho/net/EventLoop.cpp:104-112 | sets the flag and owes a wakeup |
| EventLoops.EventLoop.QuitOwn | chtho/net/EventLoop.cpp:104-112 | sets the flag without a wakeup |
| EventLoops.EventLoop.EnterLoop | chtho/net/EventLoop.cpp:76-81 | loop() begins by clearing the quit flag, so the flag is down whatever it was |
| EventLoops.EventLoop.TestFirst | chtho/net/EventLoop.cpp:83-83 | the first test leaves loop() if a quit came after the clearing, else the first poll begins |
| EventLoops.EventLoop.ReturnFromPoll | chtho/net/EventLoop.cpp:85-90 | poll reports the eventfd only when it is up |
| EventLoops.EventLoop.HandleRead | chtho/net/EventLoop.cpp:135-142 | reading the eventfd sets it to zero |
| EventLoops.EventLoop.SwapPending | chtho/net/EventLoop.cpp:115-123 | the batch is all that was queued, and the queue is empty |
| EventLoops.EventLoop.RunNext | chtho/net/EventLoop.cpp:124-125 | the oldest task of the batch is run |
| EventLoops.EventLoop.FinishPending | chtho/net/EventLoop.cpp:126-126 | leaves the loop exactly when quit_ is set, else polls again |
| ThreadPools.RunKeepsCounted | chtho/threads/ThreadPool.cpp:126-152 | a pass of run keeps the counting that rules out lost wakeups |
| ThreadPools.TakeKeepsCounted | chtho/threads/ThreadPool.cpp:108-124 | a pass of take keeps it |
| ThreadPools.StepKeepsInv | chtho/threads/ThreadPool.cpp:48-152 | every critical section, spurious wakeups included, keeps the invariant |
| ThreadPools.RunKeepsInv | chtho/threads/ThreadPool.cpp:48-152 | every interleaving keeps the invariant and the limit |
| ThreadPools.NoLostWakeup | chtho/threads/ThreadPool.cpp:108-152 | a producer waiting unsignalled means queued plus signalled producers reach the limit; a worker waiting unsignalled means every queued task has a signalled worker |
| ThreadPools.NeverAllAsleep | chtho/threads/ThreadPool.cpp:108-152 | if both kinds of threads wait, some thread has been signalled |
| ThreadPools.RunHistories | chtho/threads/ThreadPool.cpp:108-152 | over every run a producer's task is accepted exactly when the pool runs and is not full, and a worker takes exactly the front of the queue |
| ThreadPools.BoundedFifo | chtho/threads/ThreadPool.h:47-51 | a positive limit is never exceeded, and in every run the tasks accepted are the tasks taken followed by the queue |
| ThreadPools.WorkerWaitsExactly | chtho/threads/ThreadPool.cpp:112-113 | a worker waits if and only if the pool runs and has no task |
| ThreadPools.OneWokenPerTask | chtho/threads/ThreadPool.cpp:115-148 | each task accepted wakes exactly one waiting worker and each task taken from a bounded pool exactly one waiting producer |
| ThreadPools.StopStops | chtho/threads/ThreadPool.cpp:50-62 | after stop the pool is not running, everybody who waited has been signalled, and the tasks are untouched |
| ThreadPools.StoppedDrains | chtho/threads/ThreadPool.cpp:48-65 | from a stopped pool no thread waits unsignalled, none starts to, and nothing more is accepted |
| ThreadPools.StoppedForGood | chtho/threads/ThreadPool.cpp:48-152 | in every run, whatever came before a stop, after it nobody waits unsignalled, no task is accepted, and those accepted before leave in order |
| ThreadPools.StoppedThreadLeaves | chtho/threads/ThreadPool.cpp:112-145 | after stop a woken thread that re-enters run or take does not wait again |
| ThreadPools.ThreadPool.constructor | chtho/threads/ThreadPool.cpp:28-31 | a running pool with its limit and nothing queued |
| ThreadPools.ProducerWaitsExactly | chtho/threads/ThreadPool.cpp:143-147 | a producer is made to wait, with its task in hand, if and only if the pool runs and holds exactly its positive limit of tasks, and its task is accepted if and only if the pool runs and does not |
| ThreadPools.ThreadPool.Full | chtho/threads/ThreadPool.h:47-51 | on every pool in order, full means that the queue holds exactly its positive limit, for it never passes it |
| ThreadPools.ThreadPool.RunPass | chtho/threads/ThreadPool.cpp:132-151 | one pass of run keeps the invariant and says whether the producer waits |
| ThreadPools.ThreadPool.TryRun | chtho/threads/ThreadPool.cpp:143-148 | what the pass does to the fields, with its assertion that the queue is not full when a task goes in |
| ThreadPools.ThreadPool.TakePass | chtho/threads/ThreadPool.cpp:110-123 | one pass of take keeps the invariant; it waits or returns the oldest task, or none after stop |
| ThreadPools.ThreadPool.TryTake | chtho/threads/ThreadPool.cpp:112-123 | what the pass does to the fields |
| ThreadPools.ThreadPool.StopPool | chtho/threads/ThreadPool.cpp:50-62 | clears the flag and signals everyone |
| FixedBuffers.FixedBuffer.constructor | chtho/logging/FixedBuffer.h:26-26 | an empty buffer of the full size |
| FixedBuffers.FixedBuffer.Avail | chtho/logging/FixedBuffer.h:33-33 | the size minus the bytes of all lines held |
| FixedBuffers.FixedBuffer.Reset | chtho/logging/FixedBuffer.h:36-36 | holds no lines afterwards |
| FixedBuffers.FixedBuffer.AppendLine | chtho/logging/FixedBuffer.h:38-45 | copies the whole line, or nothing when there is not strictly more room than that, so a line is never split |
| AsyncLoggings.StepKeepsPointers | chtho/logging/AsyncLogging.cpp:30-128 | curBuf_ is never null, a null nxtBuf_ means bufs_ is not empty, a non-null one is empty, and every assertion of the step holds |
| AsyncLoggings.AppendConserves | chtho/logging/AsyncLogging.cpp:30-48 | an append adds its line at the end of all lines held, or drops it whole if it can fit no buffer |
| AsyncLoggings.SwapConserves | chtho/logging/AsyncLogging.cpp:75-89 | the exchange moves all lines into the batch, in order |
| AsyncLoggings.DropConserves | chtho/logging/AsyncLogging.cpp:93-101 | exactly the buffers past the second of a batch of more than 25 are dropped, and a notice is filed |
| AsyncLoggings.WriteConserves | chtho/logging/AsyncLogging.cpp:103-104 | each write files the next buffer of the batch |
| AsyncLoggings.RecycleConserves | chtho/logging/AsyncLogging.cpp:106-127 | recycling loses no line: the batch has been filed in full |
| AsyncLoggings.StepKeepsInv | chtho/logging/AsyncLogging.cpp:30-128 | every step of appenders and writer keeps pointers and lines in order |
| AsyncLoggings.RunKeepsInv | chtho/logging/AsyncLogging.cpp:30-128 | so does every interleaving |
| AsyncLoggings.AssertionsHold | chtho/logging/AsyncLogging.cpp:65-124 | in every interleaving no assertion fails and no null buffer is used |
| AsyncLoggings.SparesAtTop | chtho/logging/AsyncLogging.cpp:65-67 | both spare buffers are there and empty at the top of every turn of the writer |
| AsyncLoggings.RunAppends | chtho/logging/AsyncLogging.cpp:30-48 | over every run the lines that count are exactly those of its appends that fit a buffer at all |
| AsyncLoggings.LinesConserved | chtho/logging/AsyncLogging.cpp:30-128 | in every interleaving finished batches, current batch, bufs_ and curBuf_ hold exactly the lines appended in the run, in order, and the file holds of each batch all, or a notice and the first two buffers of more than 25 |
| AsyncLoggings.TurnFiles | chtho/logging/AsyncLogging.cpp:63-128 | a turn of the writer files all that was buffered as one batch and leaves empty buffers |
| AsyncLoggings.BuffersCounted | chtho/logging/AsyncLogging.cpp:30-126 | each buffer has one owner: an append makes a new one exactly when it finds no room and no next buffer, the exchange and the writes neither make nor lose one, and a turn ends with two spares |
| AsyncLoggings.LinesInFiled | chtho/logging/AsyncLogging.cpp:103-104 | batches of at most 25 buffers are filed with all their lines in order |
| AsyncLoggings.NothingDropped | chtho/logging/AsyncLogging.cpp:30-128 | without an oversized batch, between turns the lines in the file followed by those buffered are exactly the lines appended in the run |
| AsyncLoggings.AsyncLogging.constructor | chtho/logging/AsyncLogging.cpp:22-61 | four empty buffers, nothing queued |
| AsyncLoggings.AsyncLogging.AppendLine | chtho/logging/AsyncLogging.cpp:30-48 | append keeps the invariant and does what the step says |
| AsyncLoggings.AsyncLogging.PutLine | chtho/logging/AsyncLogging.cpp:33-45 | the moves of curBuf_, nxtBuf_ and bufs_ in append |
| AsyncLoggings.AsyncLogging.SwapBuffers | chtho/logging/AsyncLogging.cpp:75-89 | the critical section keeps the invariant |
| AsyncLoggings.AsyncLogging.Exchange | chtho/logging/AsyncLogging.cpp:65-89 | the exchange of buffers, with the three assertions at the top of the loop |
| AsyncLoggings.AsyncLogging.DropExcess | chtho/logging/AsyncLogging.cpp:91-101 | the drop of all but the first two buffers of more than 25 keeps the invariant |
| AsyncLoggings.AsyncLogging.KeepFew | chtho/logging/AsyncLogging.cpp:91-101 | the drop rule as a change of the fields, with the assertion before it |
| AsyncLoggings.AsyncLogging.WriteNext | chtho/logging/AsyncLogging.cpp:103-104 | filing the next buffer keeps the invariant |
| AsyncLoggings.AsyncLogging.FileNext | chtho/logging/AsyncLogging.cpp:103-104 | the next buffer of the batch goes to the file, as a change of the fields |
| AsyncLoggings.AsyncLogging.Refill | chtho/logging/AsyncLogging.cpp:110-116 | a missing spare is taken from the batch and emptied |
| AsyncLoggings.AsyncLogging.RefillSpares | chtho/logging/AsyncLogging.cpp:106-126 | both spares are there and empty, the batch is cleared; its two assertions hold |
| AsyncLoggings.AsyncLogging.RecycleBuffers | chtho/logging/AsyncLogging.cpp:106-126 | the end of a turn keeps the invariant |
| AsyncLoggings.AsyncLogging.FinishTurn | chtho/logging/AsyncLogging.cpp:106-126 | the end of a turn as a change of the fields |
| Timestamps.Plus | chtho/time/Timestamp.h:49-53 | adding seconds truncates to microseconds toward zero |
| Timestamps.SetTimeArms | chtho/time/Timestamp.h:54-59 | because of the floor a set kernel timer is always armed, due at the requested time or 100 microseconds from now |
| TimerQueues.CountDue | chtho/net/TimerQueue.cpp:66-67 | the search with the largest pointer cuts exactly behind the last due entry |
| TimerQueues.InsertSortedSpec | chtho/net/TimerQueue.cpp:195-206 | insertion keeps the set ordered, adds exactly the entry, and the entry is first when earlier than the old first |
| TimerQueues.EraseSpec | chtho/net/TimerQueue.cpp:183-183 | erasure keeps the set ordered and removes exactly the entry |
| TimerQueues.DueSplit | chtho/net/TimerQueue.cpp:66-71 | the prefix holds exactly the entries due, the rest exactly the others, both in order |
| TimerQueues.ResetAllKeeps | chtho/net/TimerQueue.cpp:137-149 | resetting a whole batch leaves both indexes describing the same timers and every id owned once |
| TimerQueues.ResetAllFirst | chtho/net/TimerQueue.cpp:150-153 | with a valid clock, an invalid first entry after reset was there, and first, before |
| TimerQueues.SizesMatch | chtho/net/TimerQueue.cpp:178-178 | two indexes over the same timers have the same size |
| TimerQueues.StepAsserted | chtho/net/TimerQueue.cpp:59-193 | every assertion of a step holds and every timer it touches is allocated |
| TimerQueues.StepPlaces | chtho/net/TimerQueue.cpp:59-206 | every step keeps each timer in exactly one place |
| TimerQueues.StepAlarms | chtho/net/TimerQueue.cpp:119-154 | every step keeps the first timer covered by the kernel timer |
| TimerQueues.StepKeepsInv | chtho/net/TimerQueue.cpp:59-206 | every step keeps the invariant |
| TimerQueues.RunKeepsInv | chtho/net/TimerQueue.cpp:59-206 | every run keeps it, whatever callbacks add or cancel during a dispatch |
| TimerQueues.AssertionsHold | chtho/net/TimerQueue.cpp:59-193 | in every run no assertion fails and no deleted timer is used or deleted again |
| TimerQueues.IndexesAgree | chtho/net/TimerQueue.cpp:59-206 | in every run timers_ is exactly the entries of activeTimers_; a timer is active, in dispatch or waiting and only one of these; an id is allocated or deleted, not both |
| TimerQueues.DispatchesExactlyDue | chtho/net/TimerQueue.cpp:59-81 | a dispatch takes exactly the timers due, in order, and leaves the others |
| TimerQueues.NoTimerForgotten | chtho/net/TimerQueue.cpp:119-154 | in every run, whenever timers_ is not empty and no dispatch runs, the kernel timer has fired unread or is due by the earliest expiry or 100 microseconds after it was set |
| TimerQueues.ResetFate | chtho/net/TimerQueue.cpp:137-149 | each timer of the batch is restarted or deleted by its own key alone |
| TimerQueues.RestartedExactlyUnlessCanceled | chtho/net/TimerQueue.cpp:134-149 | a dispatched timer goes on if and only if it repeats and its own key was not canceled during the dispatch: the same timer, in both indexes, due its interval after the dispatch began to the microsecond; else it is deleted |
| TimerQueues.CreateKeepsRequest | chtho/net/Timer.h:29-35 | a new timer has the expiry and interval asked for and the next sequence number, waits to be inserted, and changes no other timer |
| TimerQueues.TimersChangeExactly | chtho/net/TimerQueue.cpp:59-206 | only creation, cancellation and the end of a dispatch change or delete timers |
| TimerQueues.AddInserts | chtho/net/TimerQueue.cpp:164-206 | an insertion takes its timer from the waiting ones into both indexes as it is, and adds nothing else |
| TimerQueues.AlarmExactly | chtho/net/TimerQueue.cpp:119-169 | the kernel timer is set exactly by an insertion at the front and by the end of a dispatch that leaves a valid first timer, for that timer's time or 100 microseconds from now; reading clears it |
| TimerQueues.DispatchExactly | chtho/net/TimerQueue.cpp:99-116 | a dispatch begins now with no cancellation noted and ends with the flag down, runs its timers one by one, and notes a cancellation exactly when its key is not active while the flag is up |
| TimerQueues.NewIdGenuine | chtho/net/Timer.h:29-35 | the TimerID of a new timer names no other timer |
| TimerQueues.StepKeepsDoomed | chtho/net/TimerQueue.cpp:105-149 | a timer that will not be inserted again, canceled or not repeating, stays so, and a firing uses up the one the batch had left |
| TimerQueues.DoomedRun | chtho/net/TimerQueue.cpp:105-149 | from then on it fires at most once, and not at all if the batch has it not ahead |
| TimerQueues.NeverEarly | chtho/net/TimerQueue.cpp:59-114 | in every run, a timer whose callback comes next expired by the time its dispatch began, and so by now |
| TimerQueues.OneShotFiresOnce | chtho/net/TimerQueue.cpp:137-149 | a timer that does not repeat fires at most once in any run, whatever callbacks add or cancel |
| TimerQueues.CreatedOneShot | chtho/net/TimerQueue.cpp:156-162 | in particular from its creation on |
| TimerQueues.CancelTakesEffect | chtho/net/TimerQueue.cpp:175-193 | cancelling a genuine TimerID takes effect if and only if the timer is not still waiting to be inserted |
| TimerQueues.CanceledRunsAtMostOnce | chtho/net/TimerQueue.cpp:175-193 | then the timer runs at most once more in any continuation, and only if it was in the batch being dispatched |
| TimerQueues.CancelBeforeInsertIsLost | chtho/net/TimerQueue.cpp:156-193 | cancelling any timer that still waits to be inserted leaves both indexes as they are, and its insertion goes ahead |
| TimerQueues.ActiveCanFire | chtho/net/TimerQueue.cpp:83-117 | from every state, dispatch included, every active timer has a continuation in which it fires |
| TimerQueues.CanceledTooEarlyCanFire | chtho/net/TimerQueue.cpp:156-193 | so a timer canceled before its insertion fires in some continuation |
| TimerQueues.CancelTouchesOnlyItsTimer | chtho/net/TimerQueue.cpp:175-193 | a cancellation leaves every timer with another id as it is, one at the same address included; a stale id changes neither index |
| TimerQueues.FiredIsDispatched | chtho/net/TimerQueue.cpp:83-117 | when the earliest timer and the kernel timer are due, the next handleRead dispatches it |
| TimerQueues.TimerQueue.constructor | chtho/net/TimerQueue.cpp:28-37 | empty and disarmed, whatever callingExpiredTimers_ starts as |
| TimerQueues.TimerQueue.NewTimer | chtho/net/TimerQueue.cpp:156-162 | creation keeps the invariant and returns a genuine id |
| TimerQueues.TimerQueue.Allocate | chtho/net/Timer.h:29-35 | the new timer takes the next sequence number |
| TimerQueues.TimerQueue.InsertTimer | chtho/net/TimerQueue.cpp:195-206 | both indexes get the timer, and the result says whether it is now earliest |
| TimerQueues.TimerQueue.AddTimerInLoop | chtho/net/TimerQueue.cpp:164-169 | adding a timer keeps the invariant |
| TimerQueues.TimerQueue.InsertAndArm | chtho/net/TimerQueue.cpp:164-169 | inserts, and arms the kernel timer exactly when the timer is earliest |
| TimerQueues.TimerQueue.Remove | chtho/net/TimerQueue.cpp:175-193 | the three branches of cancelling |
| TimerQueues.TimerQueue.RmTimerInLoop | chtho/net/TimerQueue.cpp:175-193 | cancelling any TimerID, stale ones included, keeps the invariant and meets its assertions |
| TimerQueues.TimerQueue.GetExpired | chtho/net/TimerQueue.cpp:59-81 | the due entries leave both indexes and are returned in order |
| TimerQueues.TimerQueue.TakeBatch | chtho/net/TimerQueue.cpp:99-112 | reads the kernel timer, takes the batch and clears the cancellations |
| TimerQueues.TimerQueue.BeginDispatch | chtho/net/TimerQueue.cpp:83-112 | the start of a dispatch keeps the invariant and meets its assertions |
| TimerQueues.TimerQueue.RunNextTimer | chtho/net/TimerQueue.cpp:113-114 | the next timer of the batch is still allocated and is the one that fires |
| TimerQueues.TimerQueue.ResetExpired | chtho/net/TimerQueue.cpp:137-149 | the loop restarts or deletes every timer of the batch |
| TimerQueues.TimerQueue.EndDispatch | chtho/net/TimerQueue.cpp:115-154 | the end of a dispatch keeps the invariant |
| TimerQueues.TimerQueue.FinishDispatch | chtho/net/TimerQueue.cpp:134-154 | the end of a dispatch as a change of the fields, the arming included |
| Pollers.PollUpdateRep | chtho/net/poller/Poll.cpp:169-205 | an allowed update meets the assertions and keeps the dense array in one-to-one correspondence with the registry |
| Pollers.PollRemoveRep | chtho/net/poller/Poll.cpp:207-239 | removal by trading places with the last entry does so too |
| Pollers.PollRemoveAsserted | chtho/net/poller/Poll.cpp:211-219 | the assertions of removal hold, the encoded descriptor among them |
| Pollers.PollRemoveSlot | chtho/net/poller/Poll.cpp:220-238 | every other channel still finds its entry |
| Pollers.PollRemovePlace | chtho/net/poller/Poll.cpp:220-238 | every remaining entry still has its channel |
| Pollers.EpollUpdateRep | chtho/net/poller/EPoll.cpp:100-130 | an allowed update meets the assertions, its kernel call succeeds, and the kernel set follows the registry |
| Pollers.EpollRemoveRep | chtho/net/poller/EPoll.cpp:132-142 | so does removal |
| Pollers.StepRefines | chtho/net/poller/Poll.cpp:169-239 | each operation takes both pollers along the same registry |
| Pollers.HistoryRefines | chtho/net/poller/EPoll.cpp:100-161 | so does every allowed history, with every assertion and kernel call succeeding |
| Pollers.RepWatches | chtho/net/poller/Poll.cpp:193-204 | each poller holds a descriptor with non-empty events if and only if the registry does |
| Pollers.PollersAgree | chtho/net/poller/EPoll.cpp:100-161 | after any history that Poll takes, both pollers watch exactly the descriptors last asked to be watched, for the events last asked for, with no assertion or kernel call failing |
| Pollers.PollAcceptsExactly | chtho/net/poller/Poll.cpp:181-219 | in every state Poll's assertions take an update if and only if the channel is registered, or new with a free descriptor, and a removal if and only if it is registered and its last update was to no events |
| Pollers.EpollAcceptsExactly | chtho/net/poller/EPoll.cpp:100-142 | in every state EPoll takes an update if and only if the channel is registered or the kernel set lacks its descriptor, and a removal if and only if the descriptor is registered |
| Pollers.PollersPartExactly | chtho/net/poller/Poll.cpp:181-219 | EPoll takes all that Poll takes; besides it takes exactly the updates of an unregistered channel, with its descriptor out of the kernel set, that was removed before or whose descriptor is another channel's, and the removals by a registered descriptor that Poll refuses |
| Pollers.IdxBijective | chtho/net/poller/Poll.cpp:207-239 | idx is a bijection from registered channels onto pollfds_ after any allowed history |
| Pollers.EpollNoneToggles | chtho/net/poller/EPoll.cpp:106-127 | an update to no events of a registered channel toggles whether the kernel set holds it |
| Pollers.ReportedFound | chtho/net/poller/Poll.cpp:154-162 | every reported entry is found in the channel map, with its own descriptor |
| Pollers.ActiveExactly | chtho/net/poller/Poll.cpp:150-167 | the active list has one element for each entry with positive revents, in order, each the channel of its descriptor with its own revents |
| Pollers.NoneActive | chtho/net/poller/Poll.cpp:152-152 | once the reported number of entries was found, none is left |
| Pollers.Poll.constructor | chtho/net/poller/Poll.cpp:18-20 | an empty registry |
| Pollers.Poll.UpdateChannel | chtho/net/poller/Poll.cpp:169-205 | follows the registry, its assertions held, for every update they take; a new channel without events is stored plainly |
| Pollers.Poll.Store | chtho/net/poller/Poll.cpp:181-204 | the update as a change of the fields |
| Pollers.Poll.RemoveChannel | chtho/net/poller/Poll.cpp:207-239 | follows the registry, its assertions held |
| Pollers.Poll.FillActiveChannels | chtho/net/poller/Poll.cpp:150-167 | stopping early misses no reported entry: the list is all active channels in array order |
| Pollers.EPoll.constructor | chtho/net/poller/EPoll.cpp:22-30 | an empty registry and kernel set |
| Pollers.EPoll.CallCtl | chtho/net/poller/EPoll.cpp:144-161 | a kernel call that is not refused |
| Pollers.EPoll.UpdateChannel | chtho/net/poller/EPoll.cpp:100-130 | for every update that its assertions and the kernel take: follows the registry for every channel registered or with a free descriptor, removed ones included |
| Pollers.EPoll.StoreUpdate | chtho/net/poller/EPoll.cpp:103-129 | the update as a change of the fields, its kernel call not refused |
| Pollers.EPoll.RemoveChannel | chtho/net/poller/EPoll.cpp:132-142 | for every removal that its assertion takes: follows the registry for every registered channel, whatever events it asks for |
| Pollers.EPoll.DropChannel | chtho/net/poller/EPoll.cpp:135-141 | the removal as a change of the fields, its kernel call not refused |
| TcpConnections.SendKeepsInv | chtho/net/TcpConnection.cpp:215-276 | a send with any short write or error keeps the byte stream whole |
| TcpConnections.WriteKeepsInv | chtho/net/TcpConnection.cpp:98-119 | a writable event with any short write or error keeps it |
| TcpConnections.StepKeepsInv | chtho/net/TcpConnection.cpp:98-276 | every step keeps stream and write interest consistent |
| TcpConnections.RunKeepsInv | chtho/net/TcpConnection.cpp:98-276 | so does every run |
| TcpConnections.StepContributes | chtho/net/TcpConnection.cpp:215-276 | a step adds a whole message to the stream or nothing |
| TcpConnections.RunContributes | chtho/net/TcpConnection.cpp:215-276 | a run adds its accepted messages in order |
| TcpConnections.StreamConserved | chtho/net/TcpConnection.cpp:98-119 | for every run, bytes on the wire and outputBuf_ together are the accepted messages in order, and until disconnection the channel is writing if and only if outputBuf_ is not empty; it reads from establishment on |
| TcpConnections.StepTakes | chtho/net/TcpConnection.cpp:98-231 | the wire only grows, in each step by exactly the bytes the kernel took |
| TcpConnections.WireExactly | chtho/net/TcpConnection.cpp:98-276 | in every run the wire holds exactly as much of the accepted messages, from their beginning, as the kernel took in all, and outputBuf_ the rest |
| TcpConnections.StateMovesExactly | chtho/net/TcpConnection.cpp:122-208 | which steps lead into which state, if and only if |
| TcpConnections.StepShutsOnce | chtho/net/TcpConnection.cpp:147-161 | without late sends no step moves the state back, shuts twice, or writes after a shutdown |
| TcpConnections.RunShutsOnce | chtho/net/TcpConnection.cpp:147-180 | nor does any run |
| TcpConnections.ShutdownIsLast | chtho/net/TcpConnection.cpp:147-180 | in every run whose sends go through send, split anywhere: the state only moves forward, shutdownWrite is issued at most once and with every accepted byte written, and nothing is written or accepted after it |
| TcpConnections.RunKeepsShutdown | chtho/net/TcpConnection.cpp:98-119 | through any run a requested shutdown stays issued or waits for bytes to be written, unless the connection is closed |
| TcpConnections.ShutdownNotForgotten | chtho/net/TcpConnection.cpp:112-113 | after shutdown() on a connected connection, whatever follows, shutdownWrite has been issued once no bytes wait, unless the connection was closed first |
| TcpConnections.WritesAfterShutdownExactly | chtho/net/TcpConnection.cpp:98-231 | after a shutdownWrite a step writes if and only if the connection is still disconnecting and it is a sendInLoop with nothing waiting, or a writable event with bytes waiting, that the kernel takes bytes from |
| TcpConnections.SilentExactly | chtho/net/TcpConnection.cpp:98-276 | over every run after a shutdownWrite the wire stays as it is if and only if no step is of that kind |
| TcpConnections.ShutsAgainExactly | chtho/net/TcpConnection.cpp:98-113 | after a first shutdownWrite a step issues one more if it is a writable event of a still disconnecting connection that writes all the bytes waiting, and else none |
| TcpConnections.ShutdownsCounted | chtho/net/TcpConnection.cpp:98-113 | over every run the further shutdowns are as many as such steps |
| TcpConnections.WaitsAgainExactly | chtho/net/TcpConnection.cpp:254-275 | after a shutdownWrite, with nothing waiting, bytes come to wait if and only if the step is a sendInLoop that the kernel does not take all of |
| TcpConnections.SpoiledExactly | chtho/net/TcpConnection.cpp:215-276 | a step ends the state of at most one shutdown with nothing waiting behind it if and only if it is such a send after the shutdown |
| TcpConnections.OneShutdown | chtho/net/TcpConnection.cpp:98-276 | every run keeps that state throughout if and only if it has no such send after the shutdown; late sends before it do no harm |
| TcpConnections.LateSendShutsAgain | chtho/net/TcpConnection.cpp:98-119 | after every late send that leaves a rest, refused or cut short, and in every continuation, the rest written at once or in pieces means one more shutdownWrite, unless the connection was closed first |
| TcpConnections.RestWritten | chtho/net/TcpConnection.cpp:98-119 | one event that writes such a rest puts every accepted byte on the wire and issues one more shutdownWrite |
| TcpConnections.ShutAtOnce | chtho/net/TcpConnection.cpp:147-161 | a connection shut down with nothing sent is of the kind the results above start from |
| TcpConnections.QueueGrows | chtho/net/TcpConnection.cpp:239-270 | a step only adds to the loop's queue |
| TcpConnections.HighWaterExactly | chtho/net/TcpConnection.cpp:256-271 | a high-water callback is queued if and only if the step takes the output buffer across the mark, with the size reached |
| TcpConnections.CompleteExactly | chtho/net/TcpConnection.cpp:226-241 | a write-complete callback is queued if and only if a step that writes leaves nothing to write, and then every accepted byte is on the wire |
| TcpConnections.ForceCloseQueuesExactly | chtho/net/TcpConnection.cpp:163-171 | a forced close is queued if and only if a live connection is asked to close, once per request |
| TcpConnections.ForceCloseCloses | chtho/net/TcpConnection.cpp:163-180 | whatever came between, the queued task leaves the connection disconnected |
| TcpConnections.PassAssertsExactly | chtho/net/Channel.cpp:55-73 | a pass over a live connection's events meets handleClose's assertion if and only if HUP without IN does not come with PRI or RDHUP and an end-of-file read |
| TcpConnections.TcpConnection.constructor | chtho/net/TcpConnection.cpp:33-67 | connecting, nothing sent |
| TcpConnections.TcpConnection.ConnEstablished | chtho/net/TcpConnection.cpp:182-193 | connected and reading |
| TcpConnections.TcpConnection.DoSendInLoop | chtho/net/TcpConnection.cpp:215-276 | direct write, buffering, callbacks and write interest as specified, for any result of the write |
| TcpConnections.TcpConnection.WriteDirectly | chtho/net/TcpConnection.cpp:226-252 | the direct write puts a prefix on the wire and queues the write-complete callback exactly when it takes all |
| TcpConnections.TcpConnection.BufferRest | chtho/net/TcpConnection.cpp:254-275 | the rest waits behind what waits already, write interest is on, and the high-water callback is queued exactly on crossing the mark |
| TcpConnections.TcpConnection.DoSend | chtho/net/TcpConnection.cpp:294-310 | sends only while connected |
| TcpConnections.TcpConnection.ShutdownInLoop | chtho/net/TcpConnection.cpp:156-161 | shuts the write side unless still writing |
| TcpConnections.TcpConnection.DoHandleWrite | chtho/net/TcpConnection.cpp:98-119 | writes from the buffer and, once it is empty, stops writing and completes a pending shutdown |
| TcpConnections.TcpConnection.DoHandleClose | chtho/net/TcpConnection.cpp:122-138 | disconnected and no events |
| TcpConnections.TcpConnection.Shutdown | chtho/net/TcpConnection.cpp:147-154 | only a connected connection starts to disconnect |
| TcpConnections.TcpConnection.DoForceClose | chtho/net/TcpConnection.cpp:163-171 | a live connection starts to disconnect and queues its closing |
| TcpConnections.TcpConnection.DoForceCloseInLoop | chtho/net/TcpConnection.cpp:173-180 | closes if still live |
| TcpConnections.DestroyAssertsExactly | chtho/net/TcpConnection.cpp:194-208 | connDestroyed leaves a channel without events, as removing it asserts, if and only if the connection is not disconnecting |
| TcpConnections.TcpConnection.ConnDestroyed | chtho/net/TcpConnection.cpp:194-208 | in the states where that holds, the channel has no events when it is removed |
| TcpServers.QueueKeeps | chtho/net/EventLoop.cpp:180-185 | queueing a task on the loop it belongs to disturbs no other connection |
| TcpServers.RemoveKeeps | chtho/net/TcpServer.cpp:155-167 | rmConnInLoop hands a closed connection on to exactly one connDestroyed |
| TcpServers.CloseKeeps | chtho/net/TcpConnection.cpp:122-138 | handleClose hands a live connection on to exactly one removal, at once or queued |
| TcpServers.AcceptKeeps | chtho/net/TcpServer.cpp:108-143 | a new connection has an unused key and exactly one connEstablished, at once or queued |
| TcpServers.EventKeeps | chtho/net/EventLoop.cpp:91-95 | the channel handled next belongs to a live connection of that loop and is among no loop's remaining active channels |
| TcpServers.ForceCloseKeeps | chtho/net/TcpConnection.cpp:163-171 | a forced close is queued on the connection's own loop |
| TcpServers.EstablishKeeps | chtho/net/TcpConnection.cpp:182-193 | a queued connEstablished finds its connection connecting |
| TcpServers.RemoveTaskKeeps | chtho/net/TcpServer.cpp:155-167 | a queued removal finds its connection in the map |
| TcpServers.DestroyKeeps | chtho/net/TcpConnection.cpp:194-208 | a queued connDestroyed finds no events and no dispatch on its loop |
| TcpServers.CloseTaskKeeps | chtho/net/TcpConnection.cpp:173-180 | a queued forced close of a connection closed meanwhile does nothing, else it closes it properly |
| TcpServers.StepKeepsInv | chtho/net/TcpServer.cpp:108-167 | every step of any loop meets its assertions and keeps each connection's stage and its single carrying task in agreement |
| TcpServers.RunKeepsInv | chtho/net/TcpServer.cpp:108-167 | so does every interleaving |
| TcpServers.AssertionsHold | chtho/net/TcpServer.cpp:155-162 | in every interleaving, for any number of I/O loops, connection keys are new, erase finds exactly one entry, states are as asserted, and channels are removed without events outside dispatch |
| TcpServers.ExactlyOnceInOrder | chtho/net/TcpServer.cpp:146-167 | each connection is closed, erased and destroyed at most once and in that order; between closing and destruction exactly one queued task carries it on |
| TcpServers.QuiescentMeansDone | chtho/net/TcpServer.cpp:146-167 | when the queues of the main loop and of its own loop have run dry, a closed connection has been erased and destroyed exactly once, however busy the other loops are |
| TcpServers.StepKeepsClosed | chtho/net/TcpConnection.cpp:122-138 | no step revives a closed connection, puts it back into the map or takes back its destruction |
| TcpServers.ClosedForGood | chtho/net/TcpConnection.cpp:194-208 | in every continuation after handleClose the channel has no events, an erased connection stays out of the map and connDestroyed runs at most once |
| TcpServers.StepKeepsForced | chtho/net/TcpConnection.cpp:163-180 | no step loses a requested forced close of a live connection |
| TcpServers.ForcedCloseHappens | chtho/net/TcpConnection.cpp:163-180 | after forceClose on a live connection, whatever follows, the connection is closed once its loop's queue is empty |
| TcpServers.DestroyedOnlyClosed | chtho/net/EventLoop.cpp:206-214 | connDestroyed runs only after handleClose and erasure, with no events, on its own loop, outside dispatch and with no active channels left |
| TcpServers.StepOnConnection | chtho/net/TcpServer.cpp:108-167 | what every step does to every connection: its state, counts of closing, erasure and destruction, write interest and place in the map change exactly by the events that concern it |
| TcpServers.CloseEventCloses | chtho/net/TcpConnection.cpp:90-138 | a close event leaves the connection disconnected and without events, and on the main loop out of the map with its destruction queued, elsewhere with its removal on the way |
| TcpServers.NewConnAdmits | chtho/net/TcpServer.cpp:108-143 | accepting makes exactly one connection, under a new key, on the loop whose turn it is, established at once or with that queued |
| TcpServers.OthersAdmitNone | chtho/net/TcpServer.cpp:108-143 | no other step makes a connection or takes a turn |
| TcpServers.StepFlow | chtho/net/EventLoop.cpp:115-185 | a step queues on each loop exactly what its event calls for, at the end, and takes only the task it runs, from the front |
| TcpServers.QueuesFifo | chtho/net/EventLoop.cpp:115-185 | in every run every loop runs its tasks in the order in which all loops queued them, and none is lost |
| TcpServers.LoopMovesExactly | chtho/net/EventLoop.cpp:83-126 | poll fills the active channels, each event takes the first, the end of dispatch swaps all that is queued into the batch, and the end of the batch leads back to poll |
| TcpServers.OthersStay | chtho/net/EventLoop.cpp:83-126 | no step moves another loop |
| TcpServers.RunDeals | chtho/net/EventLoopThreadPool.cpp:43-56 | every run keeps the turn of the loops in step with the connection counter |
| TcpServers.RoundRobin | chtho/net/EventLoopThreadPool.cpp:43-56 | in every run the I/O loops take the connections in turn, whatever closes meanwhile, and the main loop has them only when there are no others |
| TcpServers.TcpServer.constructor | chtho/net/TcpServer.cpp:30-46 | no connections, the first id is 1 |
| TcpServers.TcpServer.QueueInLoop | chtho/net/EventLoop.cpp:180-185 | appended at the end of that loop's queue |
| TcpServers.TcpServer.GetNextLoop | chtho/net/EventLoopThreadPool.cpp:43-56 | round robin over the I/O loops, the main loop when there are none; always a loop that exists |
| TcpServers.TcpServer.AcceptConnection | chtho/net/TcpServer.cpp:108-143 | accepting keeps the invariant and meets its assertions |
| TcpServers.TcpServer.RmConnInLoop | chtho/net/TcpServer.cpp:155-167 | erases the connection and queues its destruction on its loop |
| TcpServers.TcpServer.HandleCloseOn | chtho/net/TcpServer.cpp:146-153 | closes and removes at once on the main loop, else through the main loop's queue |
| TcpServers.TcpServer.HandleCloseEvent | chtho/net/TcpConnection.cpp:122-138 | an active channel that closes is live, and the invariant is kept |
| TcpServers.TcpServer.RunNextTask | chtho/net/EventLoop.cpp:124-125 | the next queued task finds what it asserts and keeps the invariant |
| TcpServers.TcpServer.EndOfDispatch | chtho/net/EventLoop.cpp:96-123 | the swap of the queue keeps the invariant |
| TcpServers.TcpServer.RequestForceClose | chtho/net/TcpConnection.cpp:163-171 | a forced close request keeps the invariant |

## Left out

- Sockets, addresses, acceptor, connector and TcpClient: accept, read and write appear only as results chosen by the environment.
- `HTTPServer::onMsg`: it makes a new HTTPContext for every message, so chunk-invariance is a property of the context alone.
- `parse` in state ExpBody or Done: its loop would make no progress there, so the state is a precondition.
- The TcpServer destructor, and connDestroyed in state Disconnecting, which only the destructor can cause: the channel would be removed with events.
- Sends, shutdowns and forced closes from other threads: sendInLoop is modelled from any caller, but the unsynchronised reads and writes of the state are not; shared_ptr counts are not modelled either.
- One connection's bytes (TcpConnection.dfy) and the hand-overs between loops (TcpServer.dfy) are separate models: the server model abstracts a connection to its state, its interest and its tasks.
- Connection names are modelled by their number, unbounded; the source's counter is a 32-bit int.
- Lines still buffered when the logger stops: the source does not promise to write them.
- LogFile, Logger, SourceFile and time zones: the clock, files and formatting; the file of the logger is the sequence of its appends.
- The contents of spare buffers and of the buffers themselves in AsyncLogging: they are values there (lists of lines), moved between pointer fields; FixedBuffer is proved on its array separately.
- Mutexes, condition variables, latches and threads: their semantics are the rules of the steps (one critical section at a time, notify wakes one waiter if there is one, spurious wakeups allowed).
- ThreadPool with no threads, where run executes the task in place, and changing the limit after start; joining threads.
- Calls through a user's callbacks: a callback is whatever steps follow; a task's own effects are steps of the loop thread while it runs.
- The poll timeout: a poll may return at any time, so the 10 second bound on an unannounced task is not stated.
- EPoll's active-event array, whose size does not grow with `reserve`: the interest maps are compared, not one call's active list.
- The cast of events to short in Poll: events are compared as integers.
- Pollers.EPoll.UpdateChannel: for a channel on a descriptor that another channel has registered without events it says what happens to the fields, but not what the registry is then: EPoll forgets the other channel.
- Pollers.EPoll.RemoveChannel: likewise for a removal through another channel's descriptor.
- Buffer's integer readers and writers and the search for a bare line feed: byte order of fixed-width integers, no state beyond append and retrieve.
- Decimals.Convert: room for sign, digits and terminator is a precondition; `operator<<` only compares the room with the size of the value, not with the length of its text.
- Widths of integers in `convert`: it is proved for all integers, which includes every value of every width; overflow of 64-bit timestamps and of size_t is not modelled.
- Clocks: the wall clock never goes back and runs at the rate of the kernel timer's clock.
- Timestamps.Plus: seconds are real numbers, so rounding of the double product is not modelled.
- The vector of Buffer is an array that is replaced when it grows; the stack buffer of readFd is the tail of the data received.
- HttpResponses.HttpResponse.AppendOwn: the order of the header map is any order of its entries; the fixed 32-character buffers of the source are assumed large enough, as they are for status codes and sizes of up to 13 digits.

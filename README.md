# djutils: a verified model of its queue, consumers, decorators, dashboard and helpers

This project models the core of djutils, a collection of Django utilities, in Dafny.

- **Command queues.** There are two of them.
  - The older one in `djutils/queue.py` and `djutils/queue_backends.py`. Its `Invoker` keeps a bounded history of executed messages and can undo the newest one.
  - The newer one in `djutils/queue/`, which has a separate `CommandRegistry`.
  - In both, a command is sent as the text `'<class string>:<pickled data>'` and stored as a row of the `QueueMessage` table. The table is read oldest first for each queue name.
  - The `queue_command` decorators turn a function into a generated command class and enqueue calls to it.
- **Consumers.**
  - The daemon in `djutils/queue/bin/consumer.py` clamps its delay to the maximum and then multiplies it.
  - The `queue_consumer` management command takes a lock file, backs off while the delay is below the maximum, and then wraps back to the default delay. It releases the lock in a `finally` block.
- **View and model decorators** (`djutils/decorators.py`):
  - `throttle` counts requests per client address;
  - `memoize` caches results by call;
  - `cached_for_model` caches results per model instance.
- **Dashboard.**
  - The panel registry (`djutils/dashboard/registry.py`) collects panel data in priority order and stores it pickled, in an idealised table: the source's `PanelData` model lacks the fields it writes (see "Left out").
  - The browser side (`djutils/dashboard/static/js/dashboard.js`) merges data items into nested maps and normalises them for plotting.
- **Helpers:**
  - `get_queryset_position` (`djutils/db/utils.py`);
  - the formset template filters (`djutils/templatetags/djutils_tags.py`);
  - the Akismet spam-filter registry (`djutils/utils/spam.py`);
  - the subdomain and CSRF middleware (`djutils/middleware.py`).

## How the model is built

Objects whose fields the source updates are Dafny classes. Examples: invokers, queues and the message table, the registries, the consumers, the throttle cache, the memo table, comments and requests. Each method's `ensures` states the new state in terms of pure functions, and lemmas prove properties of those functions.

Behaviour that the model turns into values or inputs:

- **Pickle.** The model has its own concrete serializer (`Pickle`) over a `Value` datatype. `Loads(Dumps(v)) == Some(v)` is proved about it.
- **User code.** A user command's `execute`/`undo` and a decorated function's call are recorded as events in a log.
- **Outside inputs.** Each of these is a parameter or a sequence of outcomes:
  - the results of `invoker.dequeue()` seen by the consumers;
  - the clock;
  - the Akismet verdict;
  - `urlsplit(host).netloc`;
  - the cached function.
- **Endless loops.** A consumer's `while True` loop ends, in the model, when the given outcomes run out. The model reports this as an interrupt.

Python details written out:

- `msg.split(':', 1)` with no colon raises ValueError;
- an empty string is falsy, and `a or b` picks `b` for a falsy `a`;
- `del` on a missing key raises KeyError;
- Python 2 `str(cls)` is `<class 'module.Name'>`;
- `os.path.join` discards the directory for an absolute second part;
- `str.rsplit('.', 2)` is modelled exactly.

Where the source and its description differ, the model follows the source:

- The management command does not cap the delay; it wraps back to the default. `ConsumerCommand.ConflictingBackoffRules` shows the two consumers' sleep sequences diverge.

Two defects of the source are modelled as written and again as evidently intended; the rest of the model uses the intended version:

- `CommandRegistry.get_command_for_message` raises NameError, not QueueException, for an unknown class, because `djutils/queue/registry.py` never imports QueueException. See Findings.
- `PanelRegistry._get_data_for_panels` calls `get_panel_data`, which no provider defines: `PanelProvider` declares `get_data`. See Findings.

## Model

| member | source | states |
|---|---|---|
| Pickle.LoadsDumps | djutils/queue.py:64-85 | unpickling what was pickled gives back the same value (the model's serializer stands for cPickle) |
| Pickle.DumpsInjective | djutils/queue.py:64-85 | different values pickle to different strings |
| Pickle.DecodeEncode | djutils/queue.py:64-85 | decoding an encoding followed by any text yields the value and leaves that text |
| Text.IndexOf | djutils/queue.py:79 | the first occurrence of the separator, None iff it is absent |
| Text.LastIndexOf | djutils/middleware.py:20 | the last occurrence of the separator, None iff it is absent |
| Text.SplitOnce | djutils/queue.py:79 | `a, b = s.split(c, 1)`: the text before the first separator and the rest, None where the unpacking raises because there is no separator |
| Text.SplitOnceAtFirst | djutils/queue.py:79 | later separators stay in the second part |
| Text.Split | djutils/templatetags/djutils_tags.py:14 | `s.split(c)`: at least one piece, none containing the separator |
| Text.JoinSplit | djutils/templatetags/djutils_tags.py:14 | joining the pieces of a split at the separator gives back the string |
| Text.SplitJoin | djutils/templatetags/djutils_tags.py:14 | splitting a join of separator-free pieces gives back exactly those pieces |
| Text.SplitTwo | djutils/templatetags/djutils_tags.py:14 | two separator-free pieces around one separator split back into those pieces |
| Text.RSplit2 | djutils/middleware.py:20 | `s.rsplit(c, 2)` gives one to three parts |
| Text.RSplit2Parts | djutils/middleware.py:20 | the parts join back to the string, and only the first may contain the separator |
| Text.RSplit2ThreePartsIff | djutils/middleware.py:20 | three parts exactly when the separator occurs at least twice |
| Text.Basename | djutils/queue/queue.py:19 | `os.path.basename`: the longest slash-free suffix of the path |
| Text.PathJoin | djutils/management/commands/queue_consumer.py:31 | `os.path.join(a, b)`: `b` alone when absolute; otherwise `a` and `b`, with a `/` between them unless `a` is empty or ends in one |
| Text.ParseIntOfIntToString | djutils/decorators.py:18-22 | the decimal text of an integer reads back as that integer, whatever follows it |
| Text.IntToStringInjective | djutils/decorators.py:18-22 | different integers have different decimal texts |
| MessageStore.PendingMembers | djutils/models.py:6-12 | a message is pending on a queue iff a row with that queue name and message exists |
| MessageStore.PendingAppend | djutils/models.py:6-12 | a new row (latest `created`) goes to the end of its own queue only |
| MessageStore.PendingConcat | djutils/models.py:6-12 | the per-queue view of a concatenation is the concatenation of the views |
| MessageStore.PendingNone | djutils/models.py:6-12 | rows of other queues only give an empty queue |
| MessageStore.DeleteOldest | djutils/queue_backends.py:28-36 | deleting the first row of a queue removes exactly the head of that queue and touches no other queue |
| MessageStore.DeleteQueue | djutils/queue_backends.py:38-39 | no row of the flushed queue survives and no rows are added |
| MessageStore.DeleteQueuePending | djutils/queue_backends.py:38-39 | after flushing, the queue is empty and every other queue is unchanged |
| MessageStore.MessageTable.constructor | djutils/models.py:6-12 | a new table is empty |
| QueueBackends.DatabaseQueue.constructor | djutils/queue_backends.py:5-6 | the queue keeps its name and table |
| QueueBackends.DatabaseQueue.Write | djutils/queue_backends.py:25-26 | one row appended; this queue gains `data` at its end; other queues unchanged |
| QueueBackends.DatabaseQueue.Read | djutils/queue_backends.py:28-36 | empty queue: None and the table unchanged; otherwise the oldest message, removed; other queues unchanged |
| QueueBackends.DatabaseQueue.Flush | djutils/queue_backends.py:38-39 | this queue becomes empty; other queues unchanged |
| QueueBackends.DatabaseQueue.Length | djutils/queue_backends.py:41-42 | the number of messages pending on this queue |
| QueueBackends.WriteThenReadInOrder | djutils/models.py:12 | three writes then three reads give the messages back in FIFO order and leave the queue empty |
| DatabaseBackend.DatabaseQueue.constructor | djutils/queue/backends/base.py:2-4 | the queue keeps its name, connection and table |
| DatabaseBackend.DatabaseQueue.Write | djutils/queue/backends/database.py:9-10 | one row appended; this queue gains `data` at its end; other queues unchanged |
| DatabaseBackend.DatabaseQueue.Read | djutils/queue/backends/database.py:12-20 | empty queue: None and the table unchanged; otherwise the oldest message, removed; other queues unchanged |
| DatabaseBackend.DatabaseQueue.Flush | djutils/queue/backends/database.py:22-23 | this queue becomes empty; other queues unchanged |
| DatabaseBackend.DatabaseQueue.Length | djutils/queue/backends/database.py:25-26 | the number of messages pending on this queue |
| Commands.ClassString | djutils/queue/registry.py:16 | the class string of a well-named class contains no colon, so it cannot be confused with the message separator |
| Commands.Registered | djutils/queue/registry.py:15-16 | registering maps the class string to the class, keeps every other key and value, and keeps the registry keyed by class string |
| Commands.MessageFor | djutils/queue/registry.py:24-29 | splitting the message at its first colon gives back the class string and the pickled data |
| Commands.ParseMessage | djutils/queue/registry.py:31-40 | no separator iff no colon; an unknown class error names a colon-free string that is not registered; a success is a registered class |
| Commands.ParseMessageFor | djutils/queue/registry.py:24-40 | round trip: parsing the message built for a command gives the class registered under its class string and equal data; an unregistered class string is the only error |
| Commands.ParseMessageOfRegistered | djutils/queue.py:60-85 | a registered class comes back as itself with its data |
| Commands.LoadFailure | djutils/queue.py:79-85 | of the parse failures, exactly the unknown class raises QueueException |
| Commands.Spread | djutils/queue/decorators.py:16-17 | `*args` accepts tuples, strings and dicts, and spreads them into their items, characters or keys |
| Commands.UnpackCall | djutils/queue/decorators.py:15-17 | `args, kwargs = self.data` then `func(*args, **kwargs)` succeeds exactly for a pair of a spreadable value and a dict; None or an int raises TypeError |
| Commands.UnpackWrapperData | djutils/queue/decorators.py:31-33 | the data the decorator stores unpacks to the original call |
| Commands.ExecuteCommand | djutils/queue/queue.py:73-75 | the base class raises NotImplementedError; a user class executes; a generated class calls its function exactly when the data unpacks |
| Commands.UndoCommand | djutils/queue.py:140-142 | only a class that overrides `undo` succeeds; every other raises NotImplementedError |
| Commands.GeneratedClass | djutils/queue/decorators.py:19-25 | the generated class lives in the function's module under the name `module.name`, so its class string repeats the module |
| Commands.GeneratedRoundTrip | djutils/queue/decorators.py:14-34 | a generated command's message, parsed through a registry holding its class, executes as a call of the function with the same arguments |
| Commands.QueueNameFor | djutils/queue/queue.py:15-19 | `QUEUE_NAME` when set; otherwise exactly `queue-` followed by the database name's base name, its longest slash-free suffix |
| Commands.QueueCommand.constructor | djutils/queue/queue.py:58-63 | the command keeps its class and data |
| Commands.QueueCommand.SetData | djutils/queue/queue.py:65-71 | `get_data` returns what `set_data` stored |
| CommandRegistry.CommandRegistry.constructor | djutils/queue/registry.py:9-10 | the registry starts empty |
| CommandRegistry.CommandRegistry.Register | djutils/queue/registry.py:15-16 | the class is registered under its class string, other entries kept |
| CommandRegistry.CommandRegistry.Unregister | djutils/queue/registry.py:18-19 | a registered class is removed; an unregistered one raises KeyError and changes nothing; afterwards it is not contained |
| CommandRegistry.ContainsIffLoads | djutils/queue/registry.py:21-22 | `cls in registry` holds exactly when a message for `cls` loads again, whatever its data |
| CommandRegistry.CommandRegistry.GetMessageForCommand | djutils/queue/registry.py:24-29 | the message splits into the class string of the command's class and its pickled data |
| CommandRegistry.CommandRegistry.GetCommandForMessage | djutils/queue/registry.py:31-40 | corrected: no colon raises ValueError; QueueException iff the class string is unknown; success iff the message parses, with the parsed command |
| CommandRegistry.CommandRegistry.GetCommandForMessageAsWritten | djutils/queue/registry.py:31-40 | as written: never raises QueueException; succeeds exactly when the message parses |
| CommandRegistry.AsWrittenDiffersOnUnknownClass | djutils/queue/registry.py:36-38 | the two versions differ exactly on an unknown class string, where the code as written raises NameError |
| CommandRegistry.UnknownClassExample | djutils/queue/registry.py:38 | a concrete message of an unregistered class raises NameError as written and QueueException when corrected |
| QueueInvoker.MakeQueue | djutils/queue/queue.py:78-82 | the module-level queue is named by the settings and carries the configured connection |
| QueueInvoker.DefineCommandClass | djutils/queue/queue.py:47-52 | defining a command class registers it with the shared registry |
| QueueInvoker.Invoker.constructor | djutils/queue/queue.py:23-24 | the invoker keeps its queue and registry and has run nothing |
| QueueInvoker.Invoker.Write | djutils/queue/queue.py:26-27 | the message is appended to the invoker's queue; other queues unchanged |
| QueueInvoker.Invoker.Enqueue | djutils/queue/queue.py:29-30 | the registry's message for the command is appended to the queue |
| QueueInvoker.Invoker.Read | djutils/queue/queue.py:32-33 | None on an empty queue; otherwise the oldest message, which leaves the queue |
| QueueInvoker.Invoker.Dequeue | djutils/queue/queue.py:35-41 | an empty or falsy read returns None; otherwise the message is loaded and executed and returned, or the loading or executing error is raised; the message is consumed either way |
| QueueInvoker.Invoker.Flush | djutils/queue/queue.py:43-44 | the queue becomes empty; other queues unchanged |
| QueueDecorators.Decorate | djutils/queue/decorators.py:6-29 | the generated class is returned and registered |
| QueueDecorators.InnerRun | djutils/queue/decorators.py:31-33 | calling the decorated function only enqueues the message for the generated class and `(args, kwargs)` |
| QueueDecorators.CallThenDequeue | djutils/queue/decorators.py:31-34 | calling the decorated function and then dequeuing calls the function with the same arguments and empties the queue again |
| LegacyQueue.History | djutils/queue.py:93-95 | the history keeps the newest `min(n, stack_size)` messages, as a suffix |
| LegacyQueue.Push | djutils/queue.py:93-95 | after a push the stack holds between 1 and `stack_size` messages, the pushed one on top and below it the newest part of the old stack |
| LegacyQueue.PushAll | djutils/queue.py:93-95 | no messages leave the stack as it was; otherwise it holds at most `stack_size` messages with the last one executed on top |
| LegacyQueue.HistoryOfHistory | djutils/queue.py:93-95 | trimming before appending more, then trimming again, equals trimming once |
| LegacyQueue.PushAllIsHistory | djutils/queue.py:93-95 | pushing messages one at a time onto a bounded stack keeps exactly the newest `stack_size` of them |
| LegacyQueue.PushThenPop | djutils/queue.py:93-101 | after a push the top is the pushed message, and popping it leaves the old stack less its oldest entry when the stack was full |
| LegacyQueue.PushKeepsBound | djutils/queue.py:93-95 | the stack never exceeds `stack_size`, and grows by one below it |
| LegacyQueue.Invoker.constructor | djutils/queue.py:37-39 | the invoker has its own queue of the given name, an empty history and a registry keyed by class string |
| LegacyQueue.Invoker.Register | djutils/queue.py:41-43 | the class is registered under its class string; history untouched |
| LegacyQueue.Invoker.Unregister | djutils/queue.py:45-47 | a registered class is removed; an unregistered one raises KeyError and changes nothing |
| LegacyQueue.ContainsIffLoads | djutils/queue.py:50-51 | `cls in invoker` holds exactly when a message for `cls` loads again, whatever its data |
| LegacyQueue.Invoker.DefineCommandClass | djutils/queue.py:108-113 | defining a subclass of QueueCommand registers it through the metaclass |
| LegacyQueue.Invoker.Flush | djutils/queue.py:53-54 | the queue becomes empty; other queues unchanged |
| LegacyQueue.Invoker.Write | djutils/queue.py:56-58 | the message is appended to the queue |
| LegacyQueue.Invoker.GetMessageForCommand | djutils/queue.py:60-65 | the message splits into the command's class string and its pickled data |
| LegacyQueue.Invoker.Enqueue | djutils/queue.py:67-70 | the command's message is appended to the queue |
| LegacyQueue.Invoker.Read | djutils/queue.py:72-74 | None on an empty queue; otherwise the oldest message, which leaves the queue |
| LegacyQueue.Invoker.Load | djutils/queue.py:76-85 | no colon raises ValueError; QueueException iff the class is unknown; otherwise the parsed command |
| LegacyQueue.Invoker.Dequeue | djutils/queue.py:87-97 | False for an empty or falsy read; loading or executing errors are raised with the history unchanged; otherwise True, the command ran, and the message is pushed onto the bounded history |
| LegacyQueue.Invoker.Undo | djutils/queue.py:99-105 | an empty history raises QueueException; otherwise the newest message is popped first and its command undone, or the load or undo error raised |
| LegacyQueue.Invoker.Decorate | djutils/queue.py:151-167 | `queue_command` builds and registers the generated class |
| LegacyQueue.Invoker.InnerRun | djutils/queue.py:172-174 | the decorated function only enqueues the generated command with `(args, kwargs)` |
| DaemonConsumer.Step | djutils/queue/bin/consumer.py:74-95 | a non-QueueException error stops; a processed message resets to the default; an empty cycle sleeps `min(delay, max)` and multiplies that by the factor |
| DaemonConsumer.SleepsAtMostMax | djutils/queue/bin/consumer.py:89-94 | the daemon never sleeps longer than the maximum delay |
| DaemonConsumer.ClampScale | djutils/queue/bin/consumer.py:89-95 | clamping before scaling and then clamping again is the same as scaling and clamping once |
| DaemonConsumer.EmptyCycle | djutils/queue/bin/consumer.py:85-95 | one empty cycle sleeps the clamped delay |
| DaemonConsumer.NextClamped | djutils/queue/bin/consumer.py:89-95 | the clamped delay after an empty cycle is the next term of the geometric back-off capped at the maximum |
| DaemonConsumer.EmptyCyclesFrom | djutils/queue/bin/consumer.py:70-95 | n empty cycles sleep n times, the k-th time `min(default * factor^(j+k), max)` |
| DaemonConsumer.EmptyCyclesAfterReset | djutils/queue/bin/consumer.py:70-95 | from the default delay, the k-th empty cycle sleeps `min(default * factor^k, max)` |
| DaemonConsumer.PidFile | djutils/queue/bin/consumer.py:39 | the `--pidfile` option when given, else `/var/run/djutils-<queue>.pid` |
| DaemonConsumer.LogFile | djutils/queue/bin/consumer.py:40 | the `--logfile` option when given, else `/var/log/djutils-<queue>.log` |
| DaemonConsumer.QueueDaemon.constructor | djutils/queue/bin/consumer.py:36-40 | the daemon takes the queue name and file names and has slept nowhere |
| DaemonConsumer.QueueDaemon.InitializeOptions | djutils/queue/bin/consumer.py:47-56 | the options are stored; a factor below 1 raises before the delay is set; otherwise the delay starts at the default |
| DaemonConsumer.QueueDaemon.ProcessMessage | djutils/queue/bin/consumer.py:74-95 | one loop body, as `Step` says; a fatal error changes nothing |
| DaemonConsumer.QueueDaemon.Run | djutils/queue/bin/consumer.py:70-72 | the loop's sleeps, final delay and stopping exception are those of the trace of `Step` |
| DaemonConsumer.RunTraceStep | djutils/queue/bin/consumer.py:70-95 | a cycle that does not stop the loop sleeps its own sleeps, then those of the rest of the run from the new delay |
| DaemonConsumer.NewDaemon | djutils/queue/bin/consumer.py:36-56 | construction fails iff the factor is below 1; otherwise the daemon is configured from the options |
| DaemonConsumer.UnknownClassStopsDaemon | djutils/queue/bin/consumer.py:75-83 | through the registry as written, an unknown class stops the daemon; corrected, it is one empty cycle |
| ConsumerCommand.Step | djutils/management/commands/queue_consumer.py:61-76 | a non-CueException error stops; a processed message resets; an empty cycle sleeps the delay, then scales it while below the maximum, else resets it to the default |
| ConsumerCommand.SleepsBounded | djutils/management/commands/queue_consumer.py:72-76 | with a factor of at least 1, no sleep exceeds `max(default, max * factor)` |
| ConsumerCommand.ConflictingBackoffRules | djutils/management/commands/queue_consumer.py:72-76 | with default 1, maximum 1.5 and factor 2, the command sleeps 1 then 2 and wraps to 1, while the daemon sleeps 1 then 1.5 |
| ConsumerCommand.FileSystem.constructor | djutils/management/commands/queue_consumer.py:33-44 | the lock directory holds the given files |
| ConsumerCommand.QueueConsumer.constructor | djutils/management/commands/queue_consumer.py:10 | the command keeps its lock directory and has not slept |
| ConsumerCommand.QueueConsumer.LockFilename | djutils/management/commands/queue_consumer.py:29-31 | an absolute queue name is the lock path itself; a relative one is appended to the lock directory, with a `/` between them unless the directory is empty or already ends in one |
| ConsumerCommand.DefaultLockFile | djutils/management/commands/queue_consumer.py:10 | with the default `/var/lock/`, a relative queue name's lock file is `/var/lock/` followed by the name |
| ConsumerCommand.QueueConsumer.AcquireLock | djutils/management/commands/queue_consumer.py:33-38 | succeeds iff the lock file did not exist; the lock file exists afterwards |
| ConsumerCommand.QueueConsumer.ReleaseLock | djutils/management/commands/queue_consumer.py:40-44 | succeeds iff the lock file existed; it does not exist afterwards |
| ConsumerCommand.QueueConsumer.Consume | djutils/management/commands/queue_consumer.py:61-76 | the loop's sleeps, final delay and stopping exception are those of the trace of `Step`; configuration and lock name unchanged |
| ConsumerCommand.RunTraceStep | djutils/management/commands/queue_consumer.py:61-76 | a cycle that does not stop the loop sleeps its own sleeps, then those of the rest of the run from the new delay |
| ConsumerCommand.QueueConsumer.Cycle | djutils/management/commands/queue_consumer.py:63-76 | one non-fatal pass of the loop: the delay and the sleeps it appends are those `Step` gives; configuration unchanged |
| ConsumerCommand.QueueConsumer.Finish | djutils/management/commands/queue_consumer.py:77-79 | the lock is gone afterwards; a missing lock replaces the pending exception by CommandError |
| ConsumerCommand.QueueConsumer.RunLocked | djutils/management/commands/queue_consumer.py:55-79 | an existing lock raises `lock file ... found, exiting` and changes nothing; otherwise the loop runs from the default delay, the lock directory ends as it began, and the loop's exception is raised |
| ConsumerCommand.QueueConsumer.Handle | djutils/management/commands/queue_consumer.py:46-79 | a factor below 1 raises before any lock; an existing lock raises; otherwise the loop runs from the default delay, the lock directory ends as it began, and the loop's exception is raised |
| CacheDecorators.RemoteAddress | djutils/decorators.py:48-49 | a non-empty `X-Forwarded-For` wins, otherwise `REMOTE_ADDR` |
| CacheDecorators.ThrottleKey | djutils/decorators.py:52 | the key keeps exactly the digits and dots of the address, in order |
| CacheDecorators.ThrottleKeyConcat | djutils/decorators.py:52 | filtering distributes over concatenation |
| CacheDecorators.ThrottleKeyIdempotent | djutils/decorators.py:52 | filtering a key again changes nothing |
| CacheDecorators.CountedMethods | djutils/decorators.py:39-42 | used bare on a view, only POST is counted; otherwise the given methods |
| CacheDecorators.ThrottleStep | djutils/decorators.py:53-60 | refused iff the count equals the limit; a missing or zero count becomes 1; otherwise it is incremented |
| CacheDecorators.ThrottleRunFrom | djutils/decorators.py:53-62 | from a count c within the limit, n requests are served `min(n, limit - c)` times and the count grows by that much |
| CacheDecorators.ThrottleRunFromEmpty | djutils/decorators.py:53-62 | from no count, n requests are served `min(n, limit)` times, and the count reaches that |
| CacheDecorators.ThrottleNeverRefusesBelowOne | djutils/decorators.py:55-60 | with a limit below 1, a positive count never equals the limit, so nothing is refused |
| CacheDecorators.Lookup | djutils/decorators.py:53 | `cache.get` answers the stored count iff the key is present |
| CacheDecorators.CountCache.constructor | djutils/decorators.py:53-60 | the cache starts empty |
| CacheDecorators.Throttle.constructor | djutils/decorators.py:38-44 | the throttle counts the chosen methods with the given limit |
| CacheDecorators.Throttle.Inner | djutils/decorators.py:46-62 | uncounted requests go to the view; counted ones with an address are refused with "Try slowing down a little." exactly as `ThrottleStep` says, else the count is updated and the view runs |
| CacheDecorators.Memoized.constructor | djutils/decorators.py:70-71 | the memo starts empty |
| CacheDecorators.Memoized.Call | djutils/decorators.py:73-77 | a key holding a dict, at any depth, raises TypeError `unhashable type: 'dict'` with nothing computed or stored; otherwise the result is the function's value for the call, a cached call computes nothing, and a new one is computed once and stored |
| CacheDecorators.DictArgumentUnhashable | djutils/decorators.py:74-75 | a call whose first positional argument is a dict has an unhashable key, so it raises |
| CacheDecorators.ModelCacheKey | djutils/decorators.py:18-22 | the key starts with `djutils.` |
| CacheDecorators.ModelCacheKeyDistinguishesPk | djutils/decorators.py:18-22 | instances with different primary keys get different keys |
| CacheDecorators.ModelCache.constructor | djutils/decorators.py:16-25 | the cache wrapper keeps its site, function and store |
| CacheDecorators.ModelCache.Inner | djutils/decorators.py:25-34 | on a miss or under DEBUG, the function runs and its result is stored under the instance's key; otherwise the cached value is returned and nothing runs |
| Sorting.SortBy | djutils/dashboard/registry.py:46-48 | `sorted(..., key=...)` gives a sorted permutation of the same length |
| Sorting.SortByStable | djutils/dashboard/registry.py:46-48 | the sort is stable: for every key, the elements with that key keep their relative order |
| Sorting.InsertByWithKey | djutils/dashboard/registry.py:46-48 | an inserted element goes ahead of every element with the same key |
| Sorting.SortByMembers | djutils/dashboard/registry.py:48 | sorting keeps exactly the same members |
| Sorting.InsertBy | djutils/dashboard/registry.py:46-48 | inserting into a sorted sequence keeps it sorted and adds exactly the one element |
| Sorting.ConsSorted | djutils/dashboard/registry.py:46-48 | a head no greater than every element keeps a sorted sequence sorted |
| DashboardRegistry.RecordFor | djutils/dashboard/registry.py:49-54 | a record carries the panel's title, type, data and the clock reading |
| DashboardRegistry.StoredRowFor | djutils/dashboard/registry.py:60-65 | the stored row carries the record's fields, with panel data that unpickles to the record's data |
| DashboardRegistry.Remove | djutils/dashboard/registry.py:33 | removing keeps every other class, keeps distinctness, and shortens by one iff the class was present |
| DashboardRegistry.SortByPriority | djutils/dashboard/registry.py:46-48 | panels sorted by priority, a permutation of the registered ones |
| DashboardRegistry.PanelDataTable.constructor | djutils/dashboard/registry.py:58-65 | the table starts empty |
| DashboardRegistry.PanelRegistry.constructor | djutils/dashboard/registry.py:73 | the registry starts empty |
| DashboardRegistry.PanelRegistry.Register | djutils/dashboard/registry.py:22-27 | a registered class raises `"<class>" is already registered` and changes nothing; otherwise it is added and distinctness kept |
| DashboardRegistry.PanelRegistry.Unregister | djutils/dashboard/registry.py:29-33 | an unregistered class raises `"<class>" is not registered`; otherwise only that class goes |
| DashboardRegistry.PanelRegistry.GetDataForPanels | djutils/dashboard/registry.py:41-56 | corrected to call `get_data`: one record per registered panel, the i-th for the i-th panel in priority order |
| DashboardRegistry.PanelDataAsWritten | djutils/dashboard/registry.py:52 | `get_panel_data()` answers what the class itself defines, and raises AttributeError naming the class when it defines none |
| DashboardRegistry.PanelRegistry.GetDataForPanelsAsWritten | djutils/dashboard/registry.py:41-56 | the loop as written: the records for the panels in priority order, or the AttributeError of the first panel without `get_panel_data` |
| DashboardRegistry.CollectAsWritten | djutils/dashboard/registry.py:48-56 | the loop over panels already in priority order, as written |
| DashboardRegistry.AsWrittenFailsIffMissing | djutils/dashboard/registry.py:48-56 | as written, the data is collected iff every panel defines `get_panel_data`; otherwise the error is an AttributeError |
| DashboardRegistry.AsWrittenAgreesWithGetData | djutils/dashboard/registry.py:48-56 | where each panel's `get_panel_data` answers its `get_data`, the code as written gives the corrected records |
| DashboardRegistry.TestPanelFails | djutils/dashboard/registry.py:52 | a registry holding the test panel `TestPanelA`, which defines only `get_data`, raises AttributeError |
| DashboardRegistry.EqualPriorityKeepsOrder | djutils/dashboard/registry.py:46-48 | panels of equal priority are visited in registration order |
| DashboardRegistry.ContainsIffCollected | djutils/dashboard/registry.py:35-36 | `panel_class in registry` holds exactly when `_get_data_for_panels` visits that class |
| DashboardRegistry.PanelRegistry.StorePanelData | djutils/dashboard/registry.py:58-65 | one row per record appended in order; earlier rows kept |
| DashboardRegistry.PanelRegistry.UpdatePanels | djutils/dashboard/registry.py:67-70 | returns exactly the records it stores |
| Dashboard.MakeId | djutils/dashboard/static/js/dashboard.js:14-16 | `id-` followed by the decimal point id |
| Dashboard.MakeIdInjective | djutils/dashboard/static/js/dashboard.js:14-16 | distinct point ids give distinct keys |
| Dashboard.LoadItemStores | djutils/dashboard/static/js/dashboard.js:25-33 | each label of an item ends up holding `[point_id, value]` under the point's key |
| Dashboard.LoadItemKeeps | djutils/dashboard/static/js/dashboard.js:25-33 | every other stored point is kept |
| Dashboard.MaxPointBounds | djutils/dashboard/static/js/dashboard.js:35-36 | the maximum point is at least the old one and every item's id, and is one of them |
| Dashboard.LoadItemWellKeyed | djutils/dashboard/static/js/dashboard.js:30-33 | every point stays stored under the key made from its own id |
| Dashboard.WellKeyedDistinctIds | djutils/dashboard/static/js/dashboard.js:30-33 | two points of one label have different ids |
| Dashboard.CollectStep | djutils/dashboard/static/js/dashboard.js:64-66 | collecting one more key adds exactly that key's point |
| Dashboard.NormalizeLabel | djutils/dashboard/static/js/dashboard.js:61-73 | the label's points are collected, sorted by point id, and renumbered 0, 1, ... keeping their values |
| Dashboard.CollectPoints | djutils/dashboard/static/js/dashboard.js:64-66 | every point of the label is pushed once, and nothing else |
| Dashboard.Enumerate | djutils/dashboard/static/js/dashboard.js:72-73 | position `i` holds `[i, value of the i-th point]` |
| Dashboard.PlotPanel | djutils/dashboard/static/js/dashboard.js:58-79 | one series per label, each the normalised data of that label |
| Dashboard.MergeLabelsStep | djutils/dashboard/static/js/dashboard.js:30-33 | merging one more label updates exactly that label's points |
| Dashboard.MergeItem | djutils/dashboard/static/js/dashboard.js:28-33 | merging all labels of an item gives the merged panel |
| Dashboard.MergeLabelsNone | djutils/dashboard/static/js/dashboard.js:28-33 | merging no label leaves the panel as it was |
| Dashboard.MergeLabelsTodo | djutils/dashboard/static/js/dashboard.js:30-33 | taking one more label from those still to merge stores exactly that label's point |
| Dashboard.DashboardView.constructor | djutils/dashboard/static/js/dashboard.js:1-5 | no data and a maximum point of 0 |
| Dashboard.DashboardView.LoadData | djutils/dashboard/static/js/dashboard.js:18-40 | the data is every item merged in order, and the maximum point is the running maximum |
| Dashboard.DashboardView.PlotData | djutils/dashboard/static/js/dashboard.js:54-82 | one plot per panel, distinct panels, each the plot of that panel's data |
| DbUtils.PkList | djutils/db/utils.py:48-51 | the primary keys in queryset order, which both branches compute; every object's key is in it |
| DbUtils.FirstIndex | djutils/db/utils.py:53-55 | None iff the key is absent; otherwise the first position holding it |
| DbUtils.FirstIndexAt | djutils/db/utils.py:53-55 | the first position is the one with no earlier occurrence |
| DbUtils.GetQuerysetPosition | djutils/db/utils.py:47-55 | None iff the object is not in the queryset; otherwise its 1-based position, the first occurrence |
| TemplateTags.VisibleFields | djutils/templatetags/djutils_tags.py:10 | exactly the form's fields that are not hidden |
| TemplateTags.Selected | djutils/templatetags/djutils_tags.py:12-15 | exactly the fields whose names are in the list |
| TemplateTags.SelectedIsSubsequence | djutils/templatetags/djutils_tags.py:12-15 | selection keeps the form's field order |
| TemplateTags.GetFieldsForFormset | djutils/templatetags/djutils_tags.py:8-15 | no list: all visible fields; otherwise the visible fields whose names are among the comma-separated tokens |
| TemplateTags.FieldsInFormOrder | djutils/templatetags/djutils_tags.py:8-15 | the result is in form order, for both branches |
| TemplateTags.TokensNotTrimmed | djutils/templatetags/djutils_tags.py:14 | tokens keep their spaces: `"choice, name"` selects only the `choice` field |
| TemplateTags.SplitChoiceName | djutils/templatetags/djutils_tags.py:14 | `"choice, name".split(',')` gives `"choice"` and `" name"` |
| TemplateTags.ExampleFieldsVisible | djutils/templatetags/djutils_tags.py:10 | the example form's two fields are both visible |
| TemplateTags.OnlyChoiceMatches | djutils/templatetags/djutils_tags.py:12-15 | of the tokens `"choice"` and `" name"`, only `choice` names a field |
| TemplateTags.FormsetAddRowColspan | djutils/templatetags/djutils_tags.py:25-34 | a given colspan is used as is; otherwise one more than the number of visible fields |
| TemplateTags.AddRowColspanExample | djutils/templatetags/djutils_tags.py:27-29 | two visible fields and a hidden `id` give a colspan of 3 |
| TemplateTags.Names | djutils/templatetags/djutils_tags.py:43 | the field names, in order |
| TemplateTags.FormsetRowFields | djutils/templatetags/djutils_tags.py:17-23 | the empty row (and likewise the header row) gets exactly the fields `get_fields_for_formset` selects: visible form fields, in form order |
| TemplateTags.FormsetForms | djutils/templatetags/djutils_tags.py:36-45 | the names are those of the fields `get_fields_for_formset` selects, in order, each a visible field's, and the column span is one more than their number |
| TemplateTags.DynamicFormset | djutils/templatetags/djutils_tags.py:54-63 | the raw `fields` argument is passed through, with the same column span as `formset_forms` |
| SpamFilter.Comment.constructor | djutils/utils/spam.py:45-58 | the comment keeps its fields and is neither removed nor saved |
| SpamFilter.ShouldCheck | djutils/utils/spam.py:32-58 | the base provider checks everything; the comment provider checks iff the comment is public |
| SpamFilter.QueryFor | djutils/utils/spam.py:19-55 | the base provider raises NotImplementedError; the comment provider sends the comment, IP, author and email |
| SpamFilter.MarkAsSpam | djutils/utils/spam.py:60-63 | the comment is hidden, removed and saved once |
| SpamFilter.SpamFilterSite.constructor | djutils/utils/spam.py:73-77 | the site keeps its key and URL and has made no queries |
| SpamFilter.SpamFilterSite.Register | djutils/utils/spam.py:82-83 | the provider replaces any earlier one for that class |
| SpamFilter.SpamFilterSite.Unregister | djutils/utils/spam.py:85-87 | the class is removed; an unregistered class changes nothing |
| SpamFilter.SpamFilterSite.CheckSpam | djutils/utils/spam.py:89-108 | unregistered or not to be checked: False and nothing changes; a provider error is raised; otherwise one query, the verdict returned, and a spam comment marked as spam |
| SpamFilter.DefaultSite | djutils/utils/spam.py:111-112 | the module-level site uses the configured key and URL and registers the comment provider |
| SpamFilter.CheckTwice | djutils/utils/spam.py:57-104 | a comment found to be spam is not sent to Akismet again: a second check answers False |
| Middleware.Subdomain | djutils/middleware.py:20-21 | a subdomain iff the host has at least two dots and the part before the last two is not empty |
| Middleware.FewerThanTwoDots | djutils/middleware.py:20-21 | fewer than two dots give no subdomain |
| Middleware.SubdomainOf | djutils/middleware.py:20-21 | `sub.domain.tld` gives `sub`, or None when `sub` is empty |
| Middleware.SubdomainShape | djutils/middleware.py:20-21 | a found subdomain is followed by a dot and two dot-free labels |
| Middleware.InnerDotsKept | djutils/middleware.py:20 | `a.b.example.com` gives `a.b` |
| Middleware.EmptyFirstPart | djutils/middleware.py:21 | `.example.com` gives None, since an empty first part is falsy |
| Middleware.HttpRequest.constructor | djutils/middleware.py:16-17 | a fresh request has no subdomain attribute and no CSRF flag |
| Middleware.ProcessSubdomain | djutils/middleware.py:16-21 | with a Host header, the subdomain of its netloc is set; without one, the request is unchanged |
| Middleware.IgnoreCsrf | djutils/middleware.py:11-12 | the CSRF flag is set and nothing else changes |

## Left out

- **Queue class selection.** `load_class` of `QUEUE_CLASS`, `autodiscover` and the `queue_class` argument of the old `queue_command` are left out. In the model the backend is always the database queue.
- **Shared class attributes.** `_registry` and `_stack` are class attributes shared by every invoker; the model keeps them per object. The same holds for `SpamFilterSite._registry` (`djutils/utils/spam.py:71`) and `PanelRegistry._registry` (`djutils/dashboard/registry.py:20`): two site or registry objects share one dict in the source, but each has its own in the model. Line 95 of `djutils/queue.py` rebinds `self._stack` as an instance attribute. This does not change what a single invoker sees, so it is not modelled separately.
- **User code raising.** Exceptions raised inside a user command's own `execute`/`undo` body, as opposed to the base class's NotImplementedError, are not modelled. User code is recorded as an event.
- **Memoized functions raising.** The function wrapped by `memoize` is a total function of the call key. An exception it raises, which leaves the key unstored in the source, is not modelled.
- LegacyQueue.Invoker.Undo: an unpickling failure surfaces as its own error. IndexError from inside `load` is not specially turned into "No command found".
- QueueInvoker.Invoker.Dequeue: uses the corrected `GetCommandForMessage`, so an unregistered class string gives QueueException. As written, `djutils/queue/registry.py:38` raises NameError there (`GetCommandForMessageAsWritten`; see Findings).
- DaemonConsumer.Step: a negative delay is recorded as a sleep and the loop goes on. Python 2's `time.sleep` raises IOError for a negative duration (`djutils/queue/bin/consumer.py:94`), which the model does not model.
- ConsumerCommand.Step: a negative delay is recorded as a sleep and the loop goes on. Python 2's `time.sleep` raises IOError for a negative duration (`djutils/management/commands/queue_consumer.py:72`), which the model does not model.
- **Floating point.** The consumers' delays are reals, not floats: rounding is not modelled. `time.sleep` is recorded as a list of durations.
- **Logging.** Logging, the pid and log file contents, and daemonising (`run_simple`) are left out. So are the module-level `autodiscover` of the management command and its `Invoker(queue_name)`.
- **Concurrency.** `worker_thread`, `async` and the `atexit` cleanup in `djutils/decorators.py` (lines 80-106) are left out.
- **Cache expiry.** The timeouts of the Django cache (`duration`, `cache_timeout`) are left out. So is `cache.incr` on a key that has vanished.
- CacheDecorators.ModelCache.Inner: the cache keeps every stored value, None included. With Django 1.x's memcached backend, a stored None reads back as the default, so the source recomputes where the model answers the stored None.
- **The ORM.** Rows in insertion order stand for `ordering = ('created',)`. The PostgreSQL branch of `get_queryset_position` (temporary sequence and table) is left out; the model covers the generic branch.
- **Dictionary order.** Python 2 dict order of `registry.values()` is modelled as registration order. It affects only the order among panels of equal priority, which the stable sort keeps (`DashboardRegistry.EqualPriorityKeepsOrder`).
- **JavaScript object order.** The JavaScript object order of panels and labels is not modelled. `PlotData` and `PlotPanel` state one plot per panel and one series per label, in an unspecified order.
- **Browser calls.** `$.getJSON`, `setTimeout` and `$.plot` are left out.
- **The pickle format.** `pickle` is the model's own injective serializer rather than cPickle's byte format.
- **Text encoding.** `smart_str` and other text encoding is left out.
- **The Akismet call.** The network call is a verdict function given to the site.
- **Template rendering.** `render_to_string`, `mark_safe` and `.strip()` are left out. The filters are modelled by the context they pass to the template.
- **URL parsing.** `urlsplit` is not modelled: the netloc is computed by a function given to the middleware. For a bare `Host` header, Python's `urlsplit` puts the host in `path` and gives an empty netloc.
- **Abstract provider methods.** The NotImplementedError of `PanelProvider.get_title`/`get_data` is left out: `get_title` and `get_data` are taken to be defined by every panel class. `get_data` is taken to answer one fixed value per class, and the instance created by `register` is not modelled separately. A provider whose answers change from call to call, such as the call counter `_i` of `TestPanelA` in `djutils/dashboard/tests.py:15-20`, is not modelled: repeated `UpdatePanels` calls record the same data where the source records new values.
- DashboardRegistry.PanelRegistry.GetDataForPanels: models the corrected loop, which calls `get_data`. The loop as written calls `get_panel_data`, which raises AttributeError for every provider in the repository. `GetDataForPanelsAsWritten` states that behaviour; see Findings.
- DashboardRegistry.PanelRegistry.StorePanelData: the table is idealised as rows holding the title, type, pickled data and date. The source's `PanelData.objects.create(panel_title=..., panel_type=..., panel_data=..., created_date=...)` (`djutils/dashboard/registry.py:60-65`) names fields that `PanelData` (`djutils/dashboard/models.py:88-95`, fields `panel`, `created_date` and `data`) does not have, so Django raises TypeError (`'panel_title' is an invalid keyword argument`) for any non-empty data. The repository's newer store, `PanelManager.update_panels` (`djutils/dashboard/models.py:24-42`), writes `panel` and the pickled `get_data()` instead and is not part of this model.
- DashboardRegistry.PanelRegistry.UpdatePanels: built on the corrected `GetDataForPanels` and the idealised `StorePanelData`. It returns and stores records where the source raises AttributeError while collecting, and, were that corrected, TypeError while storing any non-empty data.

## Findings

| source | as written | input that shows it | evidently intended | confidence | as-written member | corrected member |
|---|---|---|---|---|---|---|
| djutils/queue/registry.py:38 | `raise QueueException, ...` but `QueueException` is never imported in this module, so the raise itself fails with NameError | any message whose class string is not registered, e.g. one for a class that was unregistered | raise QueueException naming the missing class, which `djutils/queue/bin/consumer.py:77` catches as a non-fatal empty cycle | not executed | CommandRegistry.CommandRegistry.GetCommandForMessageAsWritten (with CommandRegistry.UnknownClassExample, CommandRegistry.AsWrittenDiffersOnUnknownClass, DaemonConsumer.UnknownClassStopsDaemon) | CommandRegistry.CommandRegistry.GetCommandForMessage |
| djutils/dashboard/registry.py:52 | `panel_data=panel.get_panel_data()`, but `PanelProvider` (`djutils/dashboard/provider.py:26`) and the test panels define only `get_data`, so the lookup raises AttributeError | a registry holding `TestPanelA` of `djutils/dashboard/tests.py`; `update_panels()` raises `'TestPanelA' object has no attribute 'get_panel_data'` | call `panel.get_data()`, the method `PanelProvider` documents for the panel's data | not executed | DashboardRegistry.PanelRegistry.GetDataForPanelsAsWritten (with DashboardRegistry.AsWrittenFailsIffMissing, DashboardRegistry.TestPanelFails) | DashboardRegistry.PanelRegistry.GetDataForPanels |

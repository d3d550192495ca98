# cadtools machine control, in Dafny

This project models the machine-control core of cadtools, a CAD/CAM tool built on the
Agar object framework, and proves properties of that model. It covers:

- **The machine object** (`CAM_Machine`, machine.c and machine.h):
  - its configuration strings and its flag word (ENABLED, BUSY, DETACHING, DETACHED1,
    DETACHED2);
  - the `tPong` tick timestamp;
  - the GUI action `EnableMachine`;
  - one iteration of the connection thread (`MachineThread`);
  - one iteration of the inactivity thread (`InactivityCheck`), with its BUSY hysteresis
    around a 2000-tick liveness window;
  - the bounded ten-poll detach wait (`Detached`);
  - the six-field Save/Load record.
- **The program upload protocol** (`CAM_MachineUploadProgram`):
  - the `prog-commit` request, which is proved to carry name, size and digest unchanged;
  - the commit reply check;
  - the streaming loop that sums the byte counts `write` reports;
  - the confirmation check;
  - every error exit, and the one `fclose` on every path after `fopen`.
- **The object name given by `CAD_SetArchivePath`** (cadtools.c): the text after the last
  separator, with its two fallbacks.
- **The part object** (part.c):
  - the least-free-name search of `CAD_PartInsertFeature`;
  - the preorder flattening of the part's object tree into the feature list
    (`FindFeatures`, `PollFeatures`);
  - the description and flags record.
- **The lathe and mill objects** (lathe.c, mill.c): their defaults, and their 12-value
  and 9-value Save/Load records, with the chuck pointers reset on load.

Objects whose fields the C code updates in place are Dafny classes, and their methods
are specified by functions over values. These are `Machine.Machine`, `Part.Part`,
`Lathe.Lathe`, `Mill.Mill`, `Part.FeatureList` and `ArchivePath.ArchivedObject`.

The framework's data source is a sequence of tagged values (string, Uint32, real).
Save appends to it. Load consumes it from the front. Load returns `None` when the
stream does not hold the record.

Threads, the network, the file system and the clock are parameters:

- whether connect and the "version" query succeed;
- the tick count `now`;
- which thread reaches the top of its loop during each second the detach handler
  sleeps;
- what saving the program, `fopen`, `fread`, `write` and the session reads return.

The flag word is modelled bit by bit as a record of five booleans plus the 27 unused
upper bits. `MachineFlags.Word` and `MachineFlags.FromWord` convert between that record
and the Uint32 the source stores and saves. They are proved to be inverse bijections.

The detach wait is modelled as the code is written. The mask `CAM_MACHINE_DETACHED`
(machine.h:28) covers both threads' completion bits, and the handler tests
`flags & CAM_MACHINE_DETACHED` (machine.c:90). That test passes as soon as either bit is
set. After the wait, the handler pages out the model (machine.c:103), and `Destroy`
then tears down the session and the lock (machine.c:132-134). The other thread may still
be running at that point. `Machine.Machine.Detached` follows the code. The version that
waits for both bits is a separate corrected method; see "## Findings".

Likewise, `CAD_PartInsertFeature` initialises the new object with the base feature
class (part.c:204). `Part.Part.InsertFeature` follows the code, and
`Part.Part.InsertFeatureOfClass` is the corrected version.

Files:

| file | module | contents |
|---|---|---|
| wrappers.dfy | Wrappers | `Option` |
| decimal.dfy | Numerals | the `%d`/`%lu` decimal text and its parse |
| data_source.dfy | DataSource | tagged stream values, `u32`/`int32`, the string, Uint32 and real reads |
| machine_flags.dfy | MachineFlags | flag bits, buffer sizes, the Uint32 flag word, tick arithmetic |
| machine.dfy | Machine | `EnableMachine`, the two thread steps, the detach wait, the saved record, class `Machine` |
| upload.dfy | Upload | `CAM_MachineUploadProgram` |
| archive_path.dfy | ArchivePath | `CAD_SetArchivePath` |
| part.dfy | Part | `FindFeatures`/`PollFeatures`, `CAD_PartInsertFeature`, the part record |
| chuck.dfy | Chucks | the chuck an object may point to |
| lathe.dfy | Lathe | lathe defaults and record |
| mill.dfy | Mill | mill defaults and record |

## Model

| member | source | states |
|---|---|---|
| MachineFlags.FlagsAreDistinctBits | machine.h:23-28 | each of the five flag constants is a single bit of its own, distinct from the others; DETACHED is exactly DETACHED1 together with DETACHED2 |
| MachineFlags.FromWord | machine.h:22-28 | every Uint32 is a flag word; reading the bits back gives the same number |
| MachineFlags.FlagsThroughWord | machine.c:143-157 | storing a flag word as a Uint32 and reading it back is the identity, so the saved word loses no bit |
| MachineFlags.Elapsed | machine.c:222-227 | `now - tPong` is Uint32 subtraction: the plain difference when the tick counter has not wrapped, difference + 2^32 when it has |
| DataSource.Clip | machine.c:142-147 | a string copied into a `size`-byte buffer is the original when it fits, and otherwise exactly its first size-1 characters |
| DataSource.ReadString | machine.c:142 | a string read succeeds exactly when the next value is a string, gives it clipped to the buffer, and consumes one value |
| DataSource.ReadU32 | machine.c:143 | a Uint32 read succeeds exactly when the next value is a Uint32, gives it, and consumes one value |
| DataSource.ReadReal | lathe.c:67-73 | a real read succeeds exactly when the next value is a real, gives it, and consumes one value |
| DataSource.IntToU32 | lathe.c:96-97 | an `int` passed as Uint32 is itself when non-negative and itself + 2^32 when negative |
| DataSource.U32ToInt | lathe.c:74-75 | the `(int)` cast of a Uint32 is itself below 2^31 and itself - 2^32 from 2^31 on |
| DataSource.IntThroughU32 | lathe.c:74-75 | an `int` written as Uint32 and cast back is the same `int` |
| DataSource.NonNegativeIntThroughU32 | lathe.c:96-97 | a non-negative `int` is carried unchanged by the Uint32, and comes back unchanged |
| Numerals.Decimal | part.c:199 | the `%d` text of a number is non-empty, all digits, with no leading zero |
| Numerals.ParseDecimal | machine.c:415 | the decimal text of a number reads back as that number |
| Numerals.DecimalInjective | part.c:199 | distinct numbers have distinct decimal texts |
| Machine.EnabledFlags | machine.c:304-312 | after the check, ENABLED is set iff it was set and host, port, user and pass are all non-empty; no other bit changes; with every setting given the flags are unchanged |
| Machine.EnableMessages | machine.c:305-315 | the host/port error is shown iff host or port is empty; the user/password error iff user or pass is empty; "Machine enabled" iff a console is open and ENABLED is still set |
| Machine.SupervisorCycle | machine.c:172-203 | with DETACHING set, only DETACHED1 is added and the thread exits; otherwise the flags are unchanged; connect is tried iff ENABLED; query and disconnect happen iff connect succeeded; tPong becomes `now` only when both connect and query succeed; the console logs the connect error only when connect failed |
| Machine.BusyAfter | machine.c:218-232 | BUSY is cleared iff it was set with ENABLED and elapsed < 2000; it is set iff it was clear with ENABLED and elapsed > 2000; at exactly 2000, or with ENABLED clear, nothing changes; no other bit changes |
| Machine.MonitorCycle | machine.c:211-236 | with DETACHING set, only DETACHED2 is added and the thread exits; otherwise the flags are BusyAfter of the wrapped elapsed time; the console logs "online" or "busy or offline" exactly when BUSY changes; tPong is never touched and no session call is made |
| Machine.PolledFlags | machine.c:85-96 | every poll of the detach wait sees DETACHING set and, apart from the two completion bits, the flags as they were before the wait |
| Machine.FirstDrainedPoll | machine.c:88-96 | the poll at which the wait ends is the first one whose test succeeds, or 10 when no poll succeeds |
| Machine.PolledBits | machine.c:88-96 | a completion bit seen at poll j was set before the wait, or its thread reached the top of its loop during an earlier second |
| Machine.DrainedByLastPoll | machine.c:88-100 | the wait ends before its last poll iff the tenth poll's test would succeed, because bits are only added while it waits |
| Machine.DetachEndsOnEitherThread | machine.c:88-96 | as written, the wait ends early iff a completion bit was already set, or either thread acknowledged within the first nine seconds |
| Machine.DetachAwaitingBothEndsOnBothThreads | machine.c:88-96 | with the corrected test, the wait ends early iff each thread's bit was already set or that thread acknowledged within the first nine seconds |
| Machine.DetachReturnsWhileMonitorRuns | machine.c:90 | as written, the wait returns at its second poll while the inactivity thread's bit is still clear |
| Machine.PromptThreadsEndTheWait | machine.c:88-96 | when both threads see DETACHING within the first second, the corrected wait ends at its second poll |
| Machine.Clipped | machine.c:142-147 | the loaded record fits every buffer and keeps the flags. Each string is the longest prefix of its own saved field that fits that field's buffer. A record that already fitted is unchanged. |
| Machine.EncodeMachine | machine.c:151-163 | Save writes exactly six values for the record |
| Machine.DecodeMachine | machine.c:137-149 | Load succeeds exactly on a stream starting with string, Uint32 and four strings; it takes descr, flags, host, port, user and pass from those positions, clipped to their buffers, and leaves the rest of the stream |
| Machine.MachineRoundTrip | machine.c:137-163 | Load after Save gives back all six fields, each truncated to its buffer, and leaves what followed; with fitting strings it gives back the record itself |
| Machine.Machine.Init | machine.c:107-125 | a new machine has no flags, empty descr, host, user and pass, the default port clipped to its buffer, no console and no messages |
| Machine.Machine.OpenConsole | machine.c:339 | opening the edit window's status tab creates the console; the record, tPong and messages are unchanged |
| Machine.Machine.Log | machine.c:40-53 | a message is appended iff a console is open; nothing else changes |
| Machine.Machine.EnableMachine | machine.c:299-317 | the new flags are EnabledFlags of the old settings and flags, the messages gain EnableMessages, and the configuration, tPong and console are unchanged |
| Machine.Machine.MachineThreadStep | machine.c:165-204 | the new flags, tPong, session calls, log and exit are those of SupervisorCycle; the configuration is untouched |
| Machine.Machine.InactivityCheckStep | machine.c:206-237 | the new flags, log and exit are those of MonitorCycle on the wrapped elapsed time; tPong and the configuration are untouched |
| Machine.Machine.Detached | machine.c:78-105 | DETACHING is set first, then the wait polls at most 10 times. If a poll's test succeeds, it returns after the first such poll with the flags that poll saw. If all 10 fail, it leaves the flags as they are after the tenth one-second sleep and shows "not responding". |
| Machine.Machine.DetachedAwaitingBoth | machine.c:88-100 | the corrected wait: returns as soon as both completion bits are set, and then both are set; "not responding" is shown iff no poll saw both |
| Machine.Machine.Save | machine.c:151-163 | Save appends descr, flags, host, port, user, pass in that order |
| Machine.Machine.Load | machine.c:137-149 | Load takes the record DecodeMachine reads and returns the rest of the stream, or changes nothing; the fields fit their buffers afterwards |
| Machine.SaveThenLoad | machine.c:137-163 | saving one machine and loading into another copies all six fields |
| Upload.CommitRequest | machine.c:412-417 | the commit request is the five lines `prog-commit`, `prog-name=N`, `prog-size=L`, `prog-digest=D` and an empty line, each ending in a newline |
| Upload.SplitJoinedLines | machine.c:412-417 | newline-free lines joined with newlines split back into the same lines |
| Upload.RequestRoundTrip | machine.c:412-417 | the name, size and digest parsed back from the request are the program's own, when name and digest hold no newline |
| Upload.CStringAt | machine.c:421 | the reason text is the bytes of the reply buffer from the given offset up to the first NUL |
| Upload.CommitRefused | machine.c:420 | the commit is refused iff the read returned at most 2, or the buffer's first byte is missing or not '0' |
| Upload.ConfirmBad | machine.c:441-442 | the confirmation is bad iff the read returned less than 1, the buffer holds fewer than two bytes, its first byte is not '0', or its second is NUL |
| Upload.WrittenGrows | machine.c:435 | the `wrote` sum grows by at least one byte with each completed turn, so after n completed turns it is at least n |
| Upload.StopTurn | machine.c:424-436 | the streaming loop stops at the first turn where fread returns 0 or write returns 0, or at the end of the file; every earlier turn moved bytes |
| Upload.UploadProgram | machine.c:388-458 | returns 0 iff the upload succeeded. A save or open failure closes nothing. After fopen the file is closed exactly once and the exact commit request is sent. The upload is refused iff the 12-byte read returns at most 2 or byte 0 is not '0', and then nothing is written. It fails with "EOF from server" iff a write returns 0. It fails with "Upload incomplete" iff the summed writes fall short of the size, and then no confirmation is read. It fails with "Commit failed" iff the 32-byte read returns less than 1, byte 0 is not '0', or byte 1 is NUL. Whenever the loop runs, the number of writes and the byte total follow from the chunks, so on success the reported size is the sum of the writes. |
| ArchivePath.LastIndexOf | cadtools.c:173 | strrchr: no index iff the separator does not occur; otherwise an index of the separator with none after it |
| ArchivePath.ObjectName | cadtools.c:173-177 | the name is a suffix of the path. It is the whole path when the path has no separator or ends with one. It is empty only for the empty path. Otherwise it is the text after the last separator and holds no separator. |
| ArchivePath.NameIsLastComponent | cadtools.c:173-174 | a path ending in a separator and a non-empty, separator-free file name names its object after that file |
| ArchivePath.ArchivedObject.SetArchivePath | cadtools.c:166-178 | the archive path is set to the given path on every branch, and the name to ObjectName of it |
| Part.FindFeatures | part.c:97-128 | a non-feature without children gives no item. Any other node gives its own item first, with NO_SELECT iff it is not a feature, HAS_CHILDREN iff it has children, and VISIBLE_CHILDREN iff it has children and is the root. Every later item is deeper. |
| Part.FindChildren | part.c:124-127 | the children's items are all at least at the children's depth |
| Part.FindFeaturesIsPreorder | part.c:97-128 | the items are exactly the listed nodes of the preorder traversal, children in list order, each at its distance from the top |
| Part.PreorderPaths | part.c:113-126 | every node of the traversal is the node its path of child indices leads to |
| Part.PolledItems | part.c:136-138 | polling from depth 0 lists the listed nodes of the part's subtree in preorder, each at its distance from the part |
| Part.FeatureList.PollFeatures | part.c:130-141 | the list is cleared, then holds exactly the part's items from depth 0 |
| Part.FeatureNameInjective | part.c:199 | distinct indices give distinct candidate names |
| Part.TakenNamesBound | part.c:197-201 | if the names of indices 0 to n are all taken, the part has more than n children, so the search ends |
| Part.Part.FreeName | part.c:197-201 | the chosen name is "base #n" for the least n whose name no child has, and n is at most the number of children |
| Part.Part.InsertFeature | part.c:189-207 | the name is the one FreeName chooses; exactly one child, the object as written (class CAD_Feature), is appended under it; the existing children and the other fields are untouched |
| Part.NewFeatureAsWritten | part.c:203-204 | as written, the new object's class is CAD_Feature, whatever class was requested |
| Part.FindChildrenAppend | part.c:124-127 | the items of the children with one more child at the end are the old items followed by the new child's |
| Part.AttachedChildListed | part.c:97-128 | after a child is attached, the part is listed with children, then the old children's items, then the new child's items one level deeper. With previous children, that is the old list plus the new child's items. |
| Part.InsertedAsWrittenListed | part.c:203-206 | as written, inserting under a part with children adds exactly one item to its feature list, named after the new object, selectable, with category CAD_Feature whatever class was requested |
| Part.NewFeatureLosesClass | part.c:203-204 | as written, inserting an extruded boss ("CAD_Feature:CAD_ExtrudedBoss", the class cadtools.c:448-449 passes) gives an object, and a list item, not of that class |
| Part.NewFeature | part.c:203-206 | the corrected new object is a feature, and is listed, exactly when the requested class is a feature class |
| Part.InsertedFeatureListed | part.c:203-206 | with the requested class, the new object adds exactly one item under that class when it is a feature class, and no item otherwise |
| Part.Part.InsertFeatureOfClass | part.c:189-207 | the corrected insert: the same name search, one child of the requested class appended; for a feature class under a part with children, the feature list becomes the old list plus that child's item |
| Part.DecodePart | part.c:77-85 | Load succeeds exactly on a stream starting with a string and a Uint32; the string, clipped to 256 bytes, is the description and the Uint32 the flags |
| Part.PartRoundTrip | part.c:77-95 | Load after Save gives back the flags and the description truncated to its buffer, and leaves what followed; a fitting description comes back unchanged |
| Part.EncodePart | part.c:87-95 | Save writes exactly two values |
| Part.Part.constructor | part.c:44-45 | a new part has an empty description, no flags and no feature children (the "Rendering" scene graph attached at part.c:46 is not among `children`) |
| Part.Part.Save | part.c:87-95 | Save appends the description, then the flags |
| Part.Part.Load | part.c:77-85 | Load takes the record DecodePart reads, or changes nothing; name and children are untouched |
| Lathe.EncodeLathe | lathe.c:83-101 | Save writes exactly twelve values |
| Lathe.DecodeLatheFields | lathe.c:61-81 | Load succeeds exactly on twelve values of the kinds Save writes, and takes each field from its own position, the speeds cast back to `int` |
| Lathe.LatheRoundTrip | lathe.c:66-99 | Load after Save restores every saved field, the spindle speeds included, and leaves what followed |
| Lathe.Lathe.Init | lathe.c:37-59 | a new lathe has flags 0, the 9x20 dimensions, 170 to 1950 RPM, 559.5 W and no chucks |
| Lathe.Lathe.Save | lathe.c:83-101 | Save appends flags, bedSwing, csSwing, csTravel, carrTravel, compTravel, distCenters, spBore, spMinRPM, spMaxRPM, spPower, tsTravel |
| Lathe.Lathe.AssignBed | lathe.c:66-73 | the flags and the seven dimensions take the loaded values; nothing else changes |
| Lathe.Lathe.AssignSpindle | lathe.c:74-79 | the speeds, power and tailstock travel take the loaded values and both chucks are dropped; nothing else changes |
| Lathe.Lathe.Load | lathe.c:61-81 | Load takes the record DecodeLathe reads and drops both chucks, or changes nothing |
| Lathe.SaveThenLoad | lathe.c:61-101 | saving a lathe and loading into another copies all twelve saved fields and leaves it without chucks |
| Mill.EncodeMill | mill.c:79-96 | Save writes exactly nine values |
| Mill.DecodeMillFields | mill.c:59-77 | Load succeeds exactly on nine values of the kinds Save writes, and takes each field from its own position |
| Mill.MillRoundTrip | mill.c:64-94 | Load after Save restores all nine fields and leaves what followed |
| Mill.Mill.Init | mill.c:37-57 | a new mill has flags 0, the default table and travels, 110 to 1920 RPM, 1492 W and no chuck |
| Mill.Mill.Save | mill.c:79-96 | Save appends flags, lenTable, wTable, xTravel, yTravel, zTravel, spMinRPM, spMaxRPM, spPower |
| Mill.Mill.Load | mill.c:59-77 | Load takes the record DecodeMill reads and drops the chuck, or changes nothing |
| Mill.SaveThenLoad | mill.c:59-96 | saving a mill and loading into another copies all nine saved fields and leaves it without a chuck |

## Left out

- Threads, the mutex and `SDL_Delay`: each thread's loop body is one sequential step, and the interleaving of the two threads is not modelled.
- The `NC_*` session, `fopen`/`fread`/`write`/`fclose`, `SDL_GetTicks` and the framework's save and copy calls: their results are inputs, and their byte-level behaviour is not modelled.
- Machine.Machine.Init: the default port `_PROTO_MACHCTL_PORT` is defined in a header that is not part of this model, so it is a parameter.
- Machine.Machine.Init: the constructor leaves `tPong` at a given value, since the C `Init` never sets it.
- The console text of the connect error (`AG_GetError`) and the `vsnprintf` formatting of log messages: messages are tags.
- The "Detaching ..." and "done" lines on standard error, and paging the scene-graph model out: these are not modelled.
- The `nw < 0` branch at machine.c:431 is not modelled, because `nw` is a `size_t` and the branch can never run. A `-1` from `write` arrives as its `size_t` value, a very large count, which the natural-number `written` field allows.
- Upload.UploadProgram: `wrote` is an unbounded natural, and the wrap-around of the `size_t` sum is not modelled.
- Upload.UploadProgram: the session's own buffering, including the 12- and 32-byte read limits, is not modelled; a reply is the count `NC_Read` returned and the buffer it left.
- The upload queue (machine.h:38) is never used, and the empty queue pollers are not modelled.
- All GUI code: the edit windows, menus, dialogs, the tree-list icons and its `p1` pointers, and `AG_TlistRestore`.
- Scene-graph and PLY code, and the `Attached` handler's model setup.
- Part.Part.constructor: the "Rendering" scene graph that part.c:46 attaches to every new part is not among the model's `children`. In C it is the part's first child, so `FindFeatures` lists it as an unselectable item, and `CAD_PartInsertFeature` checks candidate names against its name as well.
- Reals are Dafny `real` carried as opaque tokens, and the defaults are exact decimals; the floating-point encoding of the data source is not modelled.
- ArchivePath.ArchivedObject.SetArchivePath: the name is stored untruncated. `AG_ObjectSetNameS` copies it into the framework's object-name buffer of `AG_OBJECT_NAME_MAX` bytes. That size is defined in the framework, which is not part of this model.
- Part.Part.InsertFeature: the candidate name is not truncated to `AG_OBJECT_NAME_MAX` by `snprintf` (part.c:199), and `AG_ObjectSetName` does not truncate either. That size is defined in the framework, which is not part of this model. Without truncation distinct indices give distinct names, and the search is proved to end.
- Load failure: on a stream that does not hold the record, Load leaves the object unchanged. In C, the framework's short-read error handling decides this; that code is not part of this model.
- The superclass data that the lathe and mill records follow in the framework's object versioning is not modelled.
- `PATHSEPC` is fixed to '/' of the POSIX builds; `ObjectName` takes the separator as a parameter, so the Windows '\\' is covered by its lemmas.
- program.c, feature.c, exboss.c, dummy.c and `main()` option parsing are not modelled.

## Findings

| source | as written | input that shows it | evidently intended | confidence | as-written member | corrected member |
|---|---|---|---|---|---|---|
| machine.c:88-96 | the detach wait ends when `flags & CAM_MACHINE_DETACHED` is non-zero, which holds as soon as either thread has set its completion bit | flags ENABLED only; during the first second only the connection thread sees DETACHING: the wait returns at the second poll while the inactivity thread still runs | wait until both DETACHED1 and DETACHED2 are set, as the mask's name and the two-thread shutdown suggest, before paging the model out | not executed; medium | Machine.DetachReturnsWhileMonitorRuns | Machine.Machine.DetachedAwaitingBoth |
| part.c:203-204 | the new feature is allocated with the requested class's size but initialised with `cadFeatureClass`, so its class is always CAD_Feature | the part menu's class `cadExtrudedBossClass`, "CAD_Feature:CAD_ExtrudedBoss" (cadtools.c:448-449, exboss.c:62): the attached object, and its list item, are a plain CAD_Feature | initialise the object with the requested class `cls` | not executed; high | Part.NewFeatureLosesClass | Part.Part.InsertFeatureOfClass |

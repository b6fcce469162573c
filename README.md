# sceAudio channel pool and virtual filesystem fallback, in Dafny

This project models two parts of the HLE (high-level emulation) layer of a
PSP emulator, and proves properties of the models.

- **The sceAudio channel pool** (`audio.dfy`, module `Audio`). The module
  instance owns eight output channels. Guest code reserves them (by id, or
  the lowest free one), changes their format and sample count, submits
  sample buffers for playback, and releases them. `SceAudio` is a class
  whose `channels` field is a sequence of `Channel` records. Each entry
  point is a method that states its guest-visible code and the whole new
  pool, and keeps the pool invariant `Valid()`: eight slots with their own
  ids, an engine channel held exactly while a slot is allocated, that
  engine running, and no engine shared between slots. An error leaves
  every slot unchanged, and a success changes only the addressed slot.
  The external playback engine is the class `AudioEngineChannel`, which
  records only whether it is running. Output calls return a `PlayRequest`
  value for the pending playback; the blocking panned call wraps it in a
  `WaitingThreadInfo` that refuses callbacks.
- **The virtual filesystem** (`vfs.dfy`, module `Vfs`). A filesystem is a
  record of its five asynchronous operations. Each operation settles to a
  `Result`, either `Ok` or `Fail`. An opened entry is either a stream entry
  or a backend entry given by its primitive operations. The conveniences
  (whole-file read and write, existence, directory open, stat) are
  functions composed from the primitives, and lemmas pin down the open
  flags and mode they use. Primitives that the base classes leave
  unimplemented fail with `MustOverride`.
- **The proxy filesystem** (`proxy_vfs.dfy`, module `ProxyVfs`). `Chain`
  is the fallback fold over the child list, and lemmas state its
  properties: the first success wins, later children do not matter, and
  when every child fails the last child's failure is reported. The
  `ProxyVfs` class runs `_callChainWhenError` as a loop. The loop is proved
  to compute `Chain` and to call the children in order, stopping after the
  first success. Each of its five overrides forwards its own arguments to
  every child it tries.

`common.dfy` (module `Common`) holds `Option` and the opaque guest `Stream`
handle.

In the following places the code does something other than what its
evident intent would suggest, and the model follows the code:
- Releasing a valid but unallocated channel might be expected to return
  the invalid-channel code. The code dereferences the missing engine
  instead, so `ChRelease` requires the channel to be allocated.
- A missing output buffer is answered with -1, not with a dedicated
  invalid-argument code.
- `sceAudioOutputBlocking` returns the playback itself. Only the panned
  blocking call wraps its playback in a waiting descriptor.
- The proxy accepts an empty child list. Every operation then fails with
  the starting rejection.

One place is the exception. When every channel is taken, a request for any
channel is meant to return -2 (no free channel), but the code throws
before it reaches that return (see Findings). `ChooseSlotAsWritten` models
the throw. `ChooseSlot`, and with it `ChReserve`, implement the intended
-2.

## Model

| member | source | states |
|---|---|---|
| `Audio.NumberOfChannels` | source/src/hle/module/sceAudio.ts:153-155 | 2 interleaved channels exactly for Stereo, 1 for every other format value |
| `Audio.TotalSampleCount` | source/src/hle/module/sceAudio.ts:148-151 | a stereo frame holds twice the configured sample count; any other format holds the count itself |
| `Audio.Gain` | source/src/hle/module/sceAudio.ts:92-93 | the gain, in units of 1/32768, lies in [0, 32768]: a volume in range is kept, a negative one gives 0, a larger one gives 32768 |
| `Audio.PlaybackOf` | source/src/hle/module/sceAudio.ts:88-94 | the playback is submitted to the channel's own engine; it has the channel's number of interleaved channels, reads sampleCount × channels samples from the given buffer, and has both gains clamped |
| `Audio.LowestFree` | source/src/hle/module/sceAudio.ts:36 | the index found is unallocated and every lower slot is allocated; nothing is found exactly when every slot is allocated |
| `Audio.ChooseSlot` | source/src/hle/module/sceAudio.ts:33-41 | id ≥ 8 is refused with -1; an id in [0, 8) is taken as given; a negative id takes the lowest free slot, or is refused with -2 exactly when all slots are allocated; it never crashes |
| `Audio.ChooseSlotAsWritten` | source/src/hle/module/sceAudio.ts:33-41 | the choice as written: id ≥ 8 is refused with -1, an id in [0, 8) is taken as given, and a negative id takes the lowest free slot; when every slot is allocated it crashes instead, and it never returns -2 |
| `Audio.AsWrittenExhaustionCrashes` | source/src/hle/module/sceAudio.ts:35-40 | as written, asking for any channel of a full pool throws, where the corrected choice returns -2 |
| `Audio.AsWrittenNeverRefusesExhausted` | source/src/hle/module/sceAudio.ts:36-39 | as written, -2 is never returned; on every input that does not crash, the as-written choice equals the corrected one |
| `Audio.ErrorCodesDistinct` | source/src/hle/module/sceAudio.ts:34-78 | the reservation codes -1 and -2 and the two kernel codes are negative, so none is a channel id or success, and the four differ from each other |
| `Audio.AudioEngineChannel.constructor` | source/src/hle/module/sceAudio.ts:47 | a newly created engine channel is not running |
| `Audio.AudioEngineChannel.Start` | source/src/hle/module/sceAudio.ts:48 | after start the engine channel runs |
| `Audio.AudioEngineChannel.Stop` | source/src/hle/module/sceAudio.ts:61 | after stop the engine channel no longer runs |
| `Audio.SceAudio.constructor` | source/src/hle/module/sceAudio.ts:12-14 | the pool has exactly 8 slots; slot i has id i, is unallocated, has 44100 samples, Stereo format and no engine; the pool invariant holds |
| `Audio.SceAudio.IsValidChannel` | source/src/hle/module/sceAudio.ts:16-18 | in a well-formed pool an id is valid exactly when it is in [0, 8) |
| `Audio.SceAudio.ChReserve` | source/src/hle/module/sceAudio.ts:33-50 | a refusal returns its code and changes nothing. Otherwise it returns the chosen index, and only that slot changes: it becomes allocated with the given sample count and format and a fresh, running engine channel. The pool invariant is kept. A full pool gives -2 here, which is the intended answer; as written the source throws there (see Findings) |
| `Audio.SceAudio.ChRelease` | source/src/hle/module/sceAudio.ts:57-64 | an id outside [0, 8) returns the invalid-channel code and changes nothing. Otherwise it returns 0, the slot becomes unallocated with no engine, its former engine is stopped, and no other slot changes |
| `Audio.SceAudio.ChangeChannelConfig` | source/src/hle/module/sceAudio.ts:67-72 | an id outside [0, 8) returns the invalid-channel code and changes nothing. Otherwise it returns 0 and only the slot's format changes; the slot keeps its engine |
| `Audio.SceAudio.SetChannelDataLen` | source/src/hle/module/sceAudio.ts:75-82 | the id is checked before the length. For a valid id, it returns 0 and changes only the sample count exactly when the count is a multiple of 64; otherwise it returns the not-aligned code and changes nothing |
| `Audio.SceAudio.SubmitOutput` | source/src/hle/module/sceAudio.ts:84-95 | a missing buffer gives -1, checked before the id; an invalid id gives the invalid-channel code; otherwise the result is the channel's pending playback |
| `Audio.SceAudio.OutputPannedBlocking` | source/src/hle/module/sceAudio.ts:98-102 | error codes pass through unchanged; a playback is wrapped in a waiting descriptor named for the call, with the channel id as its resource, that refuses callbacks |
| `Audio.SceAudio.OutputBlocking` | source/src/hle/module/sceAudio.ts:105-110 | the shared output's outcome with one volume on both sides: a missing buffer gives -1, an invalid id the invalid-channel code, and otherwise the playback of the given buffer on the channel's engine, with the channel's interleaved count, its total sample count and equal clamped gains |
| `Audio.SceAudio.Output` | source/src/hle/module/sceAudio.ts:113-116 | always answers 0, even when the submission is refused |
| `Audio.SceAudio.OutputPanned` | source/src/hle/module/sceAudio.ts:119-122 | always answers 0, even when the submission is refused |
| `Audio.SceAudio.Output2Reserve` | source/src/hle/module/sceAudio.ts:21-25 | unimplemented call: answers 0 |
| `Audio.SceAudio.Output2OutputBlocking` | source/src/hle/module/sceAudio.ts:28-30 | plays nothing; settles to 0 after 10 ms |
| `Audio.SceAudio.ChangeChannelVolume` | source/src/hle/module/sceAudio.ts:125-128 | unimplemented call: answers 0 |
| `Audio.SceAudio.GetChannelRestLen` | source/src/hle/module/sceAudio.ts:131-134 | unimplemented call: answers 0 |
| `Vfs.VfsEntry.Stat` | source/src/hle/vfs/vfs.ts:89-111 | a stream entry's snapshot is a non-directory with the stream's name and size, the stream's date as all three timestamps and no device data; a backend entry answers with its own snapshot |
| `Vfs.VfsEntry.Size` | source/src/hle/vfs/vfs.ts:81 | the size is the snapshot's size field and fails when stat fails; the stream entry's overriding getter agrees with its own snapshot |
| `Vfs.VfsEntry.IsDirectory` | source/src/hle/vfs/vfs.ts:78-80 | the directory flag is the snapshot's and fails when stat fails |
| `Vfs.VfsEntry.ReadAll` | source/src/hle/vfs/vfs.ts:83 | a whole read is one chunked read from offset 0 of exactly the entry's size; it fails when the size is unavailable |
| `Vfs.VfsEntry.WriteAll` | source/src/hle/vfs/vfs.ts:84 | a whole write is one chunked write of all the data at offset 0; a stream entry has no chunked write and fails with it named |
| `Vfs.Vfs.ReadAll` | source/src/hle/vfs/vfs.ts:12-14 | a whole-file read opens with Read and mode 0777; a failed open is reported as is, otherwise the result is the entry's whole read |
| `Vfs.Vfs.WriteAll` | source/src/hle/vfs/vfs.ts:16-18 | a whole-file write opens with Create, Truncate and Write and mode 0777; a failed open is reported as is, otherwise all the data is written at offset 0 |
| `Vfs.Vfs.Exists` | source/src/hle/vfs/vfs.ts:32-34 | never fails; yields true exactly when stat of the path succeeds |
| `Vfs.FlagValues` | source/src/hle/vfs/vfs.ts:114-127 | ReadWrite is Read or Write (3); the whole-file write flags Create, Truncate and Write are 0x0602 and do not include Read; the mode is octal 0777 |
| `Vfs.InheritedOperationsOpenForReading` | source/src/hle/vfs/vfs.ts:24-30 | a backend that does not override them gets the inherited directory open, which is exactly an open with Read and mode 0777, and the inherited stat, which opens the same way, reports a failed open as is, and otherwise snapshots the entry |
| `Vfs.StreamEntrySnapshot` | source/src/hle/vfs/vfs.ts:97-111 | a stream entry's size getter agrees with its snapshot's size, its directory flag is false, and its whole read covers the stream from 0 through `Vfs.VfsEntry.ReadChunk`, which a stream entry delegates to its stream (vfs.ts:98-100) |
| `Vfs.UnimplementedEntryFails` | source/src/hle/vfs/vfs.ts:86-89 | on the base entry, stat, size, directory flag, chunked and whole reads and writes, and listing all fail with the missing operation named; this is the contract of `Vfs.VfsEntry.ReadChunk`, `Vfs.VfsEntry.WriteChunk` and `Vfs.VfsEntry.Enumerate` on a base entry |
| `Vfs.UnimplementedVfsFails` | source/src/hle/vfs/vfs.ts:1-35 | on the base filesystem, every primitive, the inherited directory open and stat, and the whole-file read and write fail with the missing operation named; delete names the open operation, as the source's message does |
| `ProxyVfs.Chain` | source/src/hle/vfs/vfs.ts:40-48 | the fallback chain's settled value: a success is some child's own answer, a failure means every child failed, and with no children it is the starting rejection |
| `ProxyVfs.Proxy` | source/src/hle/vfs/vfs.ts:37-75 | each of the proxy's five primitives answers with some child's own answer to the same arguments, and fails only when every child failed |
| `ProxyVfs.ChainFirstSuccess` | source/src/hle/vfs/vfs.ts:40-48 | when child k is the first in list order that succeeds, the chain's result is child k's result |
| `ProxyVfs.ChainAllFail` | source/src/hle/vfs/vfs.ts:41-47 | when every child fails, the chain fails with the last child's failure, or with the starting rejection when there are no children |
| `ProxyVfs.ChainSucceedsIff` | source/src/hle/vfs/vfs.ts:42-46 | the chain succeeds exactly when some child succeeds |
| `ProxyVfs.ChainIgnoresLaterChildren` | source/src/hle/vfs/vfs.ts:43-45 | once a prefix of the children succeeds, appending further children changes nothing |
| `ProxyVfs.ProxyReadAllNoRetry` | source/src/hle/vfs/vfs.ts:12-14 | through a proxy, a whole-file read is served by the first child whose open succeeds; a failure of that child's read is final and no later child is tried |
| `ProxyVfs.ProxyExists` | source/src/hle/vfs/vfs.ts:70-74 | a path exists in a proxy exactly when some child can stat it |
| `ProxyVfs.ProxyVfs.constructor` | source/src/hle/vfs/vfs.ts:38 | the proxy keeps the child list it was given |
| `ProxyVfs.ProxyVfs.CallChainWhenError` | source/src/hle/vfs/vfs.ts:40-48 | the loop computes the chain. It calls the callback on a prefix of the children in list order, each call except the last one failing. On success the result is the last call's; on failure every child was called and the last one's failure is reported |
| `ProxyVfs.ProxyVfs.DevctlAsync` | source/src/hle/vfs/vfs.ts:50-54 | the chained devctl: every child tried gets the same command and streams, and the result is the proxy's devctl |
| `ProxyVfs.ProxyVfs.OpenAsync` | source/src/hle/vfs/vfs.ts:55-59 | the chained open: every child tried gets the same path, flags and mode |
| `ProxyVfs.ProxyVfs.DeleteAsync` | source/src/hle/vfs/vfs.ts:60-64 | the chained delete: every child tried gets the same path |
| `ProxyVfs.ProxyVfs.OpenDirectoryAsync` | source/src/hle/vfs/vfs.ts:65-69 | the chained directory open: every child tried gets the same path, through the child's own directory open |
| `ProxyVfs.ProxyVfs.GetStatAsync` | source/src/hle/vfs/vfs.ts:70-74 | the chained stat: every child tried gets the same path, through the child's own stat |

## Left out

- The re-entry bridge (`source/src/hle/manager/interop.ts`) is not part of this model. It only calls CPU-state operations (register preservation, the return-address register, general-purpose registers, execution from the program counter), and none of those are part of this model.
- The playback engine's `playAsync`, the reading of 16-bit samples from the guest buffer, and the floating-point division of the clamped volume by 32768 are not modelled. The model records the engine, the sample count, the buffer handle and the clamped integer volume.
- Promise scheduling, the 10 ms timer of `sceAudioOutput2OutputBlocking`, and the scheduler's parking of threads on a waiting descriptor are not modelled. Pending results are plain values (`Playing`, `Waiting`, `Delayed`).
- Native-function registration metadata is not modelled. This includes the NID 0xB7E1D8E7 that two entry points share. The audio module's console warnings and `debugger` statements are left out too.
- The numeric values of the kernel error catalog are not part of this model. `ErrorAudioInvalidChannel` and `ErrorAudioOutputSampleDataSizeNotAligned` are distinct negative placeholders.
- A valid but unallocated channel has no engine, and the source dereferences that null handle. So `ChRelease`, `SubmitOutput` and the four output calls require the addressed channel to be allocated, and that crash is not modelled.
- Guest integers are 32-bit, and a `uint` return marshals negative codes. The model uses unbounded integers, and nothing in the modelled code relies on wrap-around.
- Reserving an explicit id that is already allocated is modelled as the code does it. The slot gets a new engine, and the old engine is dropped while still running.
- `Audio.SceAudio.Output`: its contract states only that the answer is 0. The source discards the submitted playback, so the model does not expose it.
- `Audio.SceAudio.OutputPanned`: its contract states only that the answer is 0, for the same reason.
- The chain callback's second argument (the previous rejection) is not modelled. None of the five proxy overrides reads it.
- A base `Vfs`/`VfsEntry` operation that is not implemented throws synchronously in the source. The model reports this as a failed result (`MustOverride`) with the operation's name. The offending object's description in the message is not modelled, and neither is the `console.error` logging before the `devctlAsync` and `openAsync` throws.
- `Vfs.Vfs.Exists`: on a backend whose stat throws synchronously (the base filesystem, whose stat goes through the base open), the source's `existsAsync` throws before its `.catch` is attached, so it does not answer false. The model's mapping of that throw to a failed result makes `Exists` answer `Ok(false)` there. Inside a proxy chain the throw does become a rejection, so `ProxyExists` is unaffected.
- `VfsEntry.close` is a no-op in the source and is not modelled. Dates are opaque values.

## Findings

| source | as written | input that shows it | evidently intended | confidence | as-written member | corrected member |
|---|---|---|---|---|---|---|
| source/src/hle/module/sceAudio.ts:36-39 | the search result's `.id` is read before the result is checked, so an exhausted pool throws a TypeError and the -2 return is unreachable | `sceAudioChReserve(-1, n, f)` with all eight channels allocated | return -2 when no channel is free | not executed | `Audio.AsWrittenExhaustionCrashes` | `Audio.ChooseSlot` |

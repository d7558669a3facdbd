# Lune child-process stdin writer and `UDim`, modelled in Dafny

This project models two parts of the Lune scripting runtime.

**The stdin writer of a spawned child process** (`child_writer.dfy`, module `StdinWriter`).
`ChildWriterInner` holds an optional pipe. `Some` means open and `None` means closed.
`write` sends the whole buffer with `write_all` when the writer is open.
On a closed writer, `write` does nothing and returns `Ok`.
`close` first takes the pipe out of the option and then flushes it.
So the writer is closed even when the flush fails, and nothing ever puts a pipe back.
`ChildWriter` is the handle that scripts see. All of its clones share one inner writer behind an async mutex.

The model has two layers:
- The pure layer has `WriterState` (open flag and the bytes the child has received), `Step` (one locked operation) and `Run` (any serialized sequence of operations from any clones).
- `Transcript` is an independent reference definition of the bytes the child must receive.
- The classes `ChildWriterInner` and `ChildWriter` mutate their state in place, and each method's postcondition ties the new state to `Step`.
- A clone is a new `ChildWriter` object with the same `inner` reference.

What the OS answers to `write_all` and `flush` is a parameter of each operation (`WriteReply`, `Outcome`).
A failed `write_all` may already have delivered a strict prefix of the buffer, and the model keeps that prefix. An empty buffer never reaches the OS, so writing it always succeeds.
The bytes the child has received live in a ghost field, `sink`.

**The `UDim` value type** (`udim.dfy`, module `UDimType`).
It is a `scale` and an `offset`, with a defaulting constructor, `Default`, componentwise `Neg`/`Add`/`Sub`, and conversions to and from the DOM library's `UDim`.
`offset` is the newtype `i32`.
`Neg`, `Add` and `Sub` require that the offset result fits in `i32`.
`scale` is modelled as an exact `real`, so binary32 rounding, NaN and signed zero are outside the model.

`wrappers.dfy` defines `Option`.

## Model

| member | source | states |
|---|---|---|
| StdinWriter.Accepted | crates/lune-std-process/src/create/child_writer.rs:18 | the bytes `write_all` delivers are a prefix of the buffer; they are the whole buffer iff the OS accepted it in full or the buffer is empty |
| StdinWriter.WriteOutcome | crates/lune-std-process/src/create/child_writer.rs:18 | the write returns `Ok` iff the whole buffer was delivered; otherwise it returns the OS error unchanged |
| StdinWriter.Step | crates/lune-std-process/src/create/child_writer.rs:15-28 | a closed writer ignores the operation and returns `Ok`; bytes are only appended; a write, even a failed one, never changes the open flag; an open write appends the accepted bytes and returns the OS result; a close always leaves the writer closed with the sink unchanged, even when the flush fails, and returns the flush result |
| StdinWriter.Run | crates/lune-std-process/src/create/child_writer.rs:52-66 | over any serialized history of locked calls: one result per call, the sink only grows, and a closed writer never reopens |
| StdinWriter.ClosedWriterIsInert | crates/lune-std-process/src/create/child_writer.rs:16-28 | after close, any sequence of writes and closes changes neither the state nor the sink, and every call returns `Ok` |
| StdinWriter.OpenWriterDeliversTranscript | crates/lune-std-process/src/create/child_writer.rs:13-28 | from an open writer, the sink gains exactly the accepted bytes of the writes issued before the first close, each write whole and in issue order; the writer is still open iff no close was issued |
| StdinWriter.RepliesAroundClose | crates/lune-std-process/src/create/child_writer.rs:16-28 | writes before the first close return the OS result, the first close returns the flush result, and every later call returns `Ok` |
| StdinWriter.CloseIsIdempotent | crates/lune-std-process/src/create/child_writer.rs:23-28 | a second close returns `Ok` and leaves the writer closed with the sink unchanged, whatever the first flush returned |
| StdinWriter.WriteRacingClose | crates/lune-std-process/src/create/child_writer.rs:52-66 | when a write and a close race, the writer ends closed either way; served first, the write delivers what the OS accepted (all of it on success) and returns the OS result, then the close returns the flush result; served second, the close returns the flush result and the write delivers nothing and returns `Ok` |
| StdinWriter.ChildWriterInner.FromStdin | crates/lune-std-process/src/create/child_writer.rs:31-35 | a present pipe gives an open writer with nothing delivered yet |
| StdinWriter.ChildWriterInner.FromOption | crates/lune-std-process/src/create/child_writer.rs:37-41 | the writer is open iff the option holds a pipe |
| StdinWriter.ChildWriterInner.Write | crates/lune-std-process/src/create/child_writer.rs:16-21 | the pipe is only borrowed (the option is unchanged); the new state and result are those of `Step` |
| StdinWriter.ChildWriterInner.Close | crates/lune-std-process/src/create/child_writer.rs:23-28 | the option is `None` afterwards; the new state and result are those of `Step` |
| StdinWriter.ChildWriter.FromStdin | crates/lune-std-process/src/create/child_writer.rs:70-76 | a new handle owns a fresh, open inner writer |
| StdinWriter.ChildWriter.FromOption | crates/lune-std-process/src/create/child_writer.rs:70-76 | a new handle owns a fresh inner writer that is open iff a pipe was given |
| StdinWriter.ChildWriter.Clone | crates/lune-std-process/src/create/child_writer.rs:45-48 | a clone is a new handle that shares the same inner writer |
| StdinWriter.ChildWriter.Write | crates/lune-std-process/src/create/child_writer.rs:52-59 | a locked write through any clone is one `Step` on the shared inner writer |
| StdinWriter.ChildWriter.Close | crates/lune-std-process/src/create/child_writer.rs:60-66 | a locked close through any clone is one `Step` on the shared inner writer |
| StdinWriter.CloseThroughOneClone | crates/lune-std-process/src/create/child_writer.rs:45-66 | after a close through one clone, a write through another clone returns `Ok` and delivers nothing, whatever the OS would have answered |
| StdinWriter.AbsentPipe | crates/lune-std-process/src/create/child_writer.rs:37-41 | a handle built from `None` accepts writes and a close, all returning `Ok`, and delivers nothing |
| UDimType.NewStoresFields | crates/lune-roblox/src/datatypes/types/udim.rs:24-28 | `new` stores exactly the given scale and offset |
| UDimType.ConstructDefaultsToZero | crates/lune-roblox/src/datatypes/types/udim.rs:34-39 | each missing argument of the script constructor becomes zero, with no arguments it gives `Default`, and with both arguments it agrees with `new` |
| UDimType.DefaultIsZero | crates/lune-roblox/src/datatypes/types/udim.rs:62-69 | `Default` is scale 0 and offset 0 |
| UDimType.EqualIsFieldwise | crates/lune-roblox/src/datatypes/types/udim.rs:18-22 | two values are equal iff both scale and offset are equal |
| UDimType.NegIsComponentwise | crates/lune-roblox/src/datatypes/types/udim.rs:77-85 | negation negates each field on its own and undoes itself |
| UDimType.AddIsComponentwise | crates/lune-roblox/src/datatypes/types/udim.rs:87-95 | addition adds each field on its own; the offset sum does not depend on operand order |
| UDimType.SubIsComponentwise | crates/lune-roblox/src/datatypes/types/udim.rs:97-105 | subtraction subtracts each field on its own and equals adding the negation |
| UDimType.SubUndoesAddOnOffset | crates/lune-roblox/src/datatypes/types/udim.rs:87-105 | subtracting `b` after adding `b` gives back the original offset |
| UDimType.DomRoundTrip | crates/lune-roblox/src/datatypes/types/udim.rs:107-123 | converting to the DOM `UDim` and back is the identity in both directions, and each conversion keeps both fields |

## Left out

- Concurrency. The async runtime, the mutex and `Arc` are not modelled. Each locked `write` or `close` is one atomic method call on the shared inner object, and any concurrent run is one of the serialized histories that `Run` describes. Which order the lock picks, fairness, and cancellation of a suspended call are not modelled.
- Real pipe I/O. What `write_all` and `flush` do inside the OS is replaced by the reply values passed to each operation. Releasing the OS handle when the taken pipe is dropped is not modelled beyond the option becoming `None`.
- The script bindings are not modelled: `LuaUserData`, `add_async_method`, `into_lua_err`, the `BString` to byte-vector conversion, `TableBuilder`, the exports table and the field getters.
- UDimType: `scale` is an exact `real`, not an `f32`. Rounding, NaN and signed zero are not modelled.
- UDimType.EqualIsFieldwise: the identity between `PartialEq` and value equality depends on the exact-real `scale`. For `f32` it fails: `0.0` and `-0.0` compare equal but differ, and NaN is not equal to itself.
- UDimType.SubIsComponentwise: `Sub(a, b) == Add(a, Neg(b))` is value equality over the exact-real `scale`. Under `f32` and `PartialEq` it fails when a scale is NaN.
- StdinWriter.Accepted: a failure reply whose accepted count reaches the end of a non-empty buffer is read as all bytes but the last. The OS never gives such a reply, and no lemma depends on this reading.
- UDimType.Neg, UDimType.Add, UDimType.Sub: these require that the `i32` offset does not overflow. The Rust code panics or wraps depending on the build profile.
- The `Display` formatting of `UDim` is not modelled, because it depends on float printing.
- The `userdata_impl_*` helpers behind the metamethods are not part of this model.

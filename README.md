# lua-mdbx, modelled in Dafny

`luamdbx.c` is a Lua binding over the MDBX key/value engine. It registers `open` in the module table and `get`, `mget` and `set` as methods of the handle type; `close` is the handle's `__gc` finalizer:

- `open(path)` creates and opens an environment.
- `set(env, key, value)` stores a string, number or boolean under a byte-string key.
- `mget(env, {k1, k2, ...})` reads several keys into a table.
- `get(env, key)` reads one key.
- `close`, installed only as `__gc` (luamdbx.c:340-342), releases the handle when it is collected. Lua code cannot call it by name.

Values are stored as a tagged blob:

- a tag byte: `s` for text, `n` for numbers, `b` for booleans;
- then a payload built with `snprintf`;
- then a terminating zero byte.

The binding models the engine as an abstract interface.

## Modules

- **Lua** defines Lua values, bytes, `Option`, and a number kept as its 64-bit IEEE pattern.
- **CLib** covers the C library the encoder relies on:
  - C strings (`CString`: the bytes before the first NUL);
  - `memset` and `snprintf` over arrays;
  - `Written`, the buffer a `memset` followed by `snprintf` leaves.
- **Codec** holds the tagged format as pure functions: `Encode` is the type switch of `set` and `Decode` the tag switch of `mget`. Lemmas give the exact byte layout of each kind and its round trip.
- **Engine** holds the engine and the allocator:
  - `Native` records every call the binding makes, in order, and keeps the set of live `malloc` buffers. Whether a call succeeds is the return code the caller supplies.
  - `Env` holds the committed table. `Txn` holds a transaction's view and whether it is still live.
  - `Step`/`Replay` is the resource discipline of the API: environments, buffers, transactions and table handles held. A `None` result marks a call made without the resource it needs, such as a double free or a second commit.
- **Binding** holds the five Lua functions as methods on the native state.
  - Each method is proved against a function giving its reply (`OpenFault`, `SetOutcome`, `MGetOutcome`, `GetOutcome`) and one giving the calls it makes (`OpenCalls`, `SetCalls`, `MGetCalls`).
  - Lemmas over those functions state the C code's guarantees: checks come first, every buffer is freed exactly once, every transaction ends once, mget skips invalid keys, get is mget of one key, and close is idempotent.

## Behaviour as the code has it

- **Numbers lose their last rendered character.**
  - The length is measured with `"%f"`, but `"n%f"` is written into a buffer of that length plus one, so the last rendered character is lost (luamdbx.c:224-228).
  - So the blob is `n`, R without its last character, then NUL (`Codec.NumberLayout`), and `mget` reads back `atof` of that shortened text (`Codec.NumberRoundTrip`).
- **Text is cut at the first NUL.**
  - `"s%s"` writes only the bytes before the first NUL of the value, and the cleared buffer keeps zeros after them.
  - `mget` then returns all |s| payload bytes, so a string with an embedded NUL comes back with zeros in place of everything after that NUL (`Codec.TextRoundTrip`, `Codec.TextWithEmbeddedNulIsAltered`).
- **mget's result fields are named by the key read as a C string** (`lua_setfield`). The lookup itself uses the whole key (`Binding.LookupOne`).
- **mget leaks its transaction when the table cannot be opened.** It returns without aborting the running transaction (`Binding.MGetReleases`).
- **mget's transaction is read-write.** It starts with flags 0.
- **close always succeeds.** Its NULL test is on the userdata pointer, which is never NULL. So close always calls `mdbx_env_close` on what the handle holds (NULL after a first close), clears it and answers true.
- **set and mget on a closed handle pass NULL to `mdbx_txn_begin`**, which refuses it with EINVAL.
- **get's "invalid result from mget" branch cannot be taken.**
- **`get(nil)` raises mget's "at least one key" error.** It leaves the one-key table empty.

## Model

| member | source | states |
|---|---|---|
| CLib.CString | luamdbx.c:217 | the bytes C code sees through a `char *`: a NUL-free prefix of the input, followed in the input by a NUL when shorter |
| CLib.Written | luamdbx.c:214-217 | a cleared buffer of `size` bytes after `snprintf`: the text when it fits, zeros after it; otherwise its first `size - 1` characters; always NUL-terminated |
| CLib.Memset | luamdbx.c:216 | afterwards every byte of the buffer is zero |
| CLib.Snprintf | luamdbx.c:224-228 | returns the full output length; writes at most `size - 1` characters and a NUL; leaves the rest of the buffer unchanged |
| CLib.PrintIntoZeros | luamdbx.c:214-217 | `snprintf` into a buffer `memset` cleared leaves exactly `Written` |
| Codec.Encode | luamdbx.c:210-245 | a blob exists exactly for strings, numbers and booleans, and every blob ends with a zero byte |
| Codec.Decode | luamdbx.c:116-133 | each tag gives its kind and any other tag gives nil; text is the bytes between tag and terminator; true exactly when byte 1 is '1' |
| Codec.TextLayout | luamdbx.c:212-219 | the text blob has \|s\|+2 bytes: 's', the bytes before the first NUL of s, zeros, and a final NUL; for NUL-free s the middle is s |
| Codec.TextRoundTrip | luamdbx.c:117-118 | decoding a text blob gives s with everything after its first NUL zeroed, so NUL-free strings come back unchanged |
| Codec.TextWithEmbeddedNulIsAltered | luamdbx.c:217 | a string with a NUL followed by a non-zero byte does not come back unchanged |
| Codec.BoolLayout | luamdbx.c:233-239 | the boolean blob is exactly 'b', '1' or '0', NUL |
| Codec.BoolRoundTrip | luamdbx.c:126-128 | both booleans, false included, come back exactly |
| Codec.NumberLayout | luamdbx.c:222-230 | with R the "%f" rendering, the blob has \|R\|+1 bytes: 'n', R without its last character, NUL |
| Codec.NumberRoundTrip | luamdbx.c:121-123 | a number decodes as `atof` of its rendering minus the dropped last character |
| Codec.CStringStopsAtNul | luamdbx.c:122 | `atof` reading after the tag sees exactly the payload before the terminator |
| Codec.EncodingIsTagged | luamdbx.c:210-245 | the first byte of a blob names its value's kind, one tag per kind |
| Codec.RoundTrip | luamdbx.c:116-133 | decode inverts encode on every boolean and every NUL-free string |
| Engine.ReplayAppend | luamdbx.c:247-301 | running two call sequences one after the other is running their concatenation |
| Engine.Native.EnvCreate | luamdbx.c:37 | on success a fresh, empty, created environment; the call is recorded |
| Engine.Native.EnvOpen | luamdbx.c:44 | on success the environment is opened and holds what the file holds |
| Engine.Native.EnvClose | luamdbx.c:46 | the environment (if not NULL) is closed, its data kept; the call is recorded |
| Engine.Native.Malloc | luamdbx.c:215 | a fresh buffer of the requested size, added to the live buffers |
| Engine.Native.Free | luamdbx.c:253 | only a live buffer may be freed; it leaves the live buffers |
| Engine.Native.TxnBegin | luamdbx.c:87 | a NULL environment is refused with EINVAL; on success a live transaction seeing the committed table |
| Engine.Native.DbiOpen | luamdbx.c:94 | needs a live transaction; answers the supplied code |
| Engine.Native.Get | luamdbx.c:111 | found exactly when the transaction sees the key, with its bytes; not-found otherwise |
| Engine.Native.Put | luamdbx.c:274 | on success the key maps to the blob in the transaction's view only |
| Engine.Native.DbiClose | luamdbx.c:280 | the call is recorded and nothing else changes |
| Engine.Native.TxnCommit | luamdbx.c:291 | the transaction ends; only a successful commit makes its view the committed table |
| Engine.Native.TxnAbort | luamdbx.c:261 | the transaction ends and its puts are dropped |
| Binding.OpenFault | luamdbx.c:23-50 | open fails exactly unless the path is present and non-empty and both create and open succeed |
| Binding.Open | luamdbx.c:10-56 | the reply and the call list are `OpenFault` and `OpenCalls`; on success a fresh handle on an opened environment holding the file's contents |
| Binding.OpenChecksPathFirst | luamdbx.c:23-34 | a nil path, then an empty path, is refused before any engine call |
| Binding.OpenReleasesOnFailure | luamdbx.c:37-50 | a failed open holds no environment (one whose open failed is closed); a successful one holds exactly one |
| Binding.Close | luamdbx.c:305-318 | closes what the handle holds (possibly NULL), sets the handle to NULL and answers true |
| Binding.CloseIsIdempotent | luamdbx.c:308-312 | open then close releases the environment; closing again hands NULL over and changes nothing |
| Binding.SetFault | luamdbx.c:191-245 | set's checks fail exactly unless the key is present, 1..255 bytes long, and the value is a string, number or boolean |
| Binding.EncodeText | luamdbx.c:212-220 | allocates \|s\|+2 bytes holding the text blob |
| Binding.EncodeNumber | luamdbx.c:222-231 | measures "%f" into a one-byte buffer, allocates that length plus one, and fills it with the number blob |
| Binding.EncodeBool | luamdbx.c:233-240 | allocates 3 bytes holding the boolean blob |
| Binding.EncodeValue | luamdbx.c:210-245 | a live buffer holding `Encode` of the value, or nothing allocated for other types |
| Binding.StoreBlob | luamdbx.c:247-301 | begin, table open, put, free, table close, then commit or abort: reply `TxnOutcome`, calls `TxnCalls`, buffer freed; the key maps to the blob exactly when stored |
| Binding.Set | luamdbx.c:173-302 | reply `SetOutcome`, calls `SetCalls`, live buffers unchanged; the table gains key → blob exactly when the reply is true; keeps every stored value decodable |
| Binding.SetChecksFirst | luamdbx.c:191-245 | nil key, empty key, key too long, bad value type, in that order, each before any allocation or engine call |
| Binding.StoreReleasesEverything | luamdbx.c:247-301 | every path through the transaction releases it, its table handle and the buffer, and misuses none |
| Binding.SetReleasesEverything | luamdbx.c:173-302 | whatever the engine answers, set ends holding what it held before, and misuses nothing on the way |
| Binding.StoreEndsTransactionOnce | luamdbx.c:259-301 | the transaction ends exactly when begun, never twice; the table handle is closed exactly when opened, before the end; a failed put is followed by an abort and no commit; success exactly when a commit succeeded |
| Binding.StoreFreesBufferOnce | luamdbx.c:252-277 | the buffer is freed exactly once, after the begin and after the put |
| Binding.MallocFirst | luamdbx.c:213-215 | the allocation that precedes the transaction keeps the transaction discipline |
| Binding.MallocFirstFrees | luamdbx.c:213-215 | the allocation that precedes the transaction keeps the buffer discipline |
| Binding.SetEndsTransactionOnce | luamdbx.c:259-301 | the same discipline over the whole of set: one end per begun transaction, table closed first, abort after a failed put, true exactly after a successful commit |
| Binding.SetFreesBufferOnce | luamdbx.c:213-277 | past the checks the buffer is allocated first and freed exactly once, after the begin and the put |
| Binding.MGet | luamdbx.c:59-143 | reply `MGetOutcome`, calls `MGetCalls`, no buffers left; the result table equals `Lookup` of the keys |
| Binding.LookupAll | luamdbx.c:102-136 | the loop over the keys builds exactly `Lookup` of them, records exactly `LookupCalls` and allocates nothing |
| Binding.LookupSpec | luamdbx.c:102-136 | for NUL-free keys, k is in the result exactly when asked for, 1..255 bytes, stored and tagged 's', 'n' or 'b'; it then holds k's decoded value |
| Binding.LookupOne | luamdbx.c:102-136 | for one key the table has at most the field named by the key as a C string, holding its decoded value |
| Binding.LookupCallsOnlyValidKeys | luamdbx.c:107-113 | every engine lookup is for a given key of 1..255 bytes, and succeeds exactly when the key is stored |
| Binding.LookupCallAt | luamdbx.c:107-113 | the same for the lookup at one position |
| Binding.LookupCallsKeepResources | luamdbx.c:111 | the lookups misuse nothing and leave the transaction and table handle held |
| Binding.MGetReleases | luamdbx.c:87-139 | on the success path mget closes the table and aborts the transaction; when the table cannot be opened the transaction stays held |
| Binding.MGetRequiresAKey | luamdbx.c:76-79 | an empty key list is a Lua error raised before any engine call |
| Binding.GetIsMGetOfOne | luamdbx.c:146-170 | get(k) is the single field of mget({k}) (the table has no other), or nil when that table is empty |
| Binding.Get | luamdbx.c:146-170 | reply `GetOutcome`: the decoded value of a valid stored key, nil otherwise; calls those of mget on the one-key list |
| Binding.SetThenGet | luamdbx.c:274-291 | after a successful set, get of the key decodes the stored blob, and returns the value itself for booleans and NUL-free strings |
| Binding.UseAfterClose | luamdbx.c:247-249 | once closed, set (past its checks), mget and get fail at `mdbx_txn_begin` with EINVAL |

## Left out

- `%f` rendering and `atof` parsing are parameters (`Codec.NumberText`): floating point is not modelled. The only requirement is that `%f` renders at least one character and never a NUL.
- Codec.Decode, Binding.MGet, Binding.Get: assume every stored value ends with a zero byte, that is, the file holds only values this binding wrote. `Binding.Set` keeps that invariant. In C the tag switch is also defined for an unknown tag and for an 's' or 'b' value of two or more bytes without a NUL; the model does not cover those values.
- Return codes of the engine calls are inputs. Engine internals are not modelled: pages, MVCC, durability, file access, flags and modes. Error texts (`mdbx_strerror`) are not modelled either. The message functions give only the binding's own prefix.
- Engine.Native.Get: answers not-found for every missing key and never any other error.
- Lua stack handling is not modelled: argument counts, `luaL_check*` type errors, the userdata metatable, and the module table and `__gc` registration in `luaopen_mdbx` (luamdbx.c:320-356). The Lua arguments arrive as Dafny values.
- `malloc` failure is not modelled. The C code tests the buffer for NULL before each `free` (luamdbx.c:252, 267, 275), but not before `memset` writes to it (luamdbx.c:215-216, 226-227, 235-236), so a failed allocation would already fail there.
- `int` and `size_t` overflow of buffer sizes are not modelled. Every size here is far below either limit.
- Garbage-collector timing and concurrent use are not modelled. The finalizer is `Binding.Close`. Since it is the only way close runs, the second close in `Binding.CloseIsIdempotent` and the closed-handle cases of `Binding.UseAfterClose` arise only when finalization runs again or code run during finalization reaches the handle.

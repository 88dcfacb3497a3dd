# winq `Try` chains, modelled in Dafny

winq is a Go package for quick WinAPI calls by name. A `Try` value chains
calls: `F` finds the procedure (through a package-level `procs` cache in
front of a scan of `kernel32.dll`, `user32.dll` and `gdi32.dll`, trying
`name` and then `name + "W"` in each), converts the `interface{}`
arguments to `uintptr`, and calls it. The wrappers `N`, `Z`, `A` and `X`
decide whether the result is a success. The first failure is stored in
`Try.Err`, and every call after it does nothing and returns 0. `Detach`
splits off a fresh chain for cleanup calls, or the inert `nop` once the
chain has failed.

The model is functional. A chain is the immutable value `Try(err)`, and
every call returns the new chain. The `procs` cache is passed in and
returned explicitly. The native side is a parameter `Env`:
- `dlls` is the ordered library list, each library given by its export table (this is `FindProc`);
- `invoke` is an oracle from a procedure and its argument words to a result word and the OS last error (this is `Proc.Call`).

A panic is the outcome `Aborted`. It keeps the cache as it stood when the
panic happened, because resolution may already have stored an entry when
argument conversion panics.

Files, one module each:
- `wrappers.dfy`: `Option`.
- `words.dfy`: 64-bit `uintptr` words.
- `coercion.dfy`: the reflect-kind switch of `F`.
- `errors.dfy`: `Error` and its text.
- `resolution.dfy`: libraries, the cache and the scan.
- `chain.dfy`: `Try`, `F`, `failf`, the wrappers, `Detach` and `nop`.
- `runs.dfy`: sequences of calls, the latch, two chains sharing the cache, and two usage scenarios.

Facts about try.go that shape the model:
- There is one `procs` map, keyed by the procedure name as the caller spelled it (try.go:24, try.go:95). All chains share it.
- `Err` is the only state of a `Try` (try.go:40-42). A chain has failed exactly when `Err` is non-nil.
- A chain detached from a live chain is a new `&Try{}` (try.go:194). The shared cache couples nothing between the two chains, and neither chain ever writes the other's `Err`. `Runs.PairIndependent` states this for a coherent cache, that is, one whose every entry is what a fresh scan would find.

## Model

| member | source | states |
|---|---|---|
| Coercion.Coerce | try.go:114-133 | pointers become their address; nil becomes 0; `true`/`false` become 1/0; an in-range unsigned value is kept; a signed value becomes itself mod 2^64, so reading the word back as a signed 64-bit value gives the original value; any other kind is the panic case |
| Coercion.CoerceAll | try.go:114-133 | the arguments convert exactly when every one has a supported kind; the output then has one word per argument, in order, each the conversion of its argument; otherwise it reports the first unsupported argument by position and kind |
| Errors.ErrorTextRoundTrip | try.go:38 | `ErrorText` (`Error.Error()`) renders `Msg + ": " + Original.Error()`; that text can be split back into the message and the OS error text when the message has no colon |
| Errors.ErrorTextInjective | try.go:38 | two errors whose colon-free messages render to the same text have the same message and the same OS error text |
| Resolution.LookupIn | try.go:100-105 | within one library the exact name wins; only when it is not exported is `name + "W"` tried |
| Resolution.Scan | try.go:99-109 | the scan finds nothing exactly when no library resolves the name under either spelling |
| Resolution.ScanFirstHit | try.go:99-108 | the scan returns what the first library that resolves the name yields, whatever later libraries export |
| Resolution.WideFallbackInSecondLibrary | try.go:99-108 | a name that only the second library exports, and only with the suffix, resolves to that export; no earlier library and not the unsuffixed spelling can match first |
| Resolution.Resolve | try.go:95-111 | a cache hit returns the stored procedure and leaves the cache as it was; resolution fails exactly when the name is not cached and no library resolves it; on success the cache becomes the old cache with `name` mapped to the procedure, and nothing else changes |
| Resolution.ResolveMiss | try.go:99-107 | on a miss, the procedure stored under the unsuffixed name is the first library's first matching spelling, and every existing entry stays as it was |
| Resolution.ResolveTwice | try.go:95-98 | resolving a name a second time, against any libraries, returns the same procedure and leaves the cache unchanged |
| Resolution.ResolveCoherent | try.go:95-107 | if every cached entry equals what a fresh scan would find, resolution succeeds exactly when the scan does, returns the scan's procedure, and keeps that property |
| Resolution.ResolveCacheIrrelevant | try.go:95-107 | under two coherent caches, resolution succeeds or fails alike and yields the same procedure |
| Chain.F | try.go:89-137 | a failed chain returns `(0, nil)` with the cache unchanged, whatever the libraries, the oracle or the arguments; of F's own panics, a live chain raises one exactly when the name cannot be resolved (cache untouched) or an argument has an unsupported kind (at the first such argument, with the cache as resolution left it); otherwise it invokes the resolved procedure with one word per argument and returns its result and a non-nil last error |
| Chain.Failf | try.go:139-144 | the chain is failed afterwards; an error already present stays; on a live chain the new error is `Error{orig, msg}` |
| Chain.N | try.go:148-154 | returns F's result and passes on F's panics with F's cache; a failed chain stays as it is and gets 0; on a live chain it fails exactly when the result is 0, and then latches `Error{lastErr, name}` with a non-nil original |
| Chain.Z | try.go:158-164 | the same as N, but the chain fails exactly when the result is nonzero |
| Chain.A | try.go:168-171 | returns F's result, passes on F's panics with F's cache, and never changes the chain's error |
| Chain.X | try.go:175-181 | the same as N, but the chain fails exactly when `isok` rejects the result |
| Chain.NIsX | try.go:148-181 | N is X with the predicate "nonzero", on every input |
| Chain.ZIsX | try.go:158-181 | Z is X with the predicate "zero", on every input |
| Chain.AIsX | try.go:168-181 | A is X with the predicate that accepts everything, on every input |
| Chain.LatchedErrorText | try.go:139-154 | an error latched on a live chain holds the OS error F returned, and renders as the procedure name, `": "`, and that error's text |
| Chain.ApplyLatchesName | try.go:148-181 | whichever wrapper fails a live chain, the error it latches carries that call's procedure name |
| Chain.Call | try.go:183-203 | every `nop` call returns 0, leaves the cache alone and stays `nop`; a call on a `*Try` is that Try's N, Z, A or X: the same word, the same panic, the same cache, and the chain it leaves |
| Chain.DetachFailedIsInert | try.go:190-203 | `Detach` on a failed chain gives `nop`, a chain on which every call returns 0, changes nothing and never panics |
| Chain.DetachLiveIsFresh | try.go:190-196 | `Detach` on a live chain gives a live chain that behaves exactly like a new `Try` on every call |
| Runs.RunFailedIsInert | try.go:89-92 | on a failed chain any sequence of calls returns all zeros, keeps the error and the cache, and does not depend on the libraries or the oracle |
| Runs.RunAppend | try.go:62-71 | running two sequences one after the other is the same as running their concatenation |
| Runs.LatchAfterFailure | try.go:62-71 | once a prefix of the calls has failed the chain, the remaining calls return zeros and leave the latched error and the cache as the prefix left them |
| Runs.FirstFailure | try.go:139-144 | a sequence that takes a live chain to a failed one has a first failing call; every call before it leaves the chain live; the final error is the one that call latched, named after its procedure |
| Runs.FCacheIrrelevant | try.go:94-109 | under two coherent caches, F returns alike and leaves a coherent cache |
| Runs.PairIndependent | try.go:190-196 | however calls on a chain and a chain detached from it interleave, each ends exactly as if the other had never been used |
| Runs.AlphaThenBeta | try.go:62-71 | `N("Alpha")` returning 0 fails a fresh chain with the text `"Alpha: " + OS error text`; a following `Z("Beta")` returns 0 and does nothing, even for a name no library exports |
| Runs.DetachedCloseRuns | try.go:74-81 | a call detached from a live chain always runs: `A("Close", h)` invokes `Close` with the single word `h` |
| Runs.CloseAfterLaterFailure | try.go:74-81 | the detached `Close` still runs and invokes `Close` with `h` after a later call on the original chain has failed |

## Left out

- Loading the DLLs (`syscall.MustLoadDLL`, try.go:25-29) is outside the model. The library list is the parameter `Env.dlls`, and a library is only its export table.
- `FindProc`, `Proc.Call` and `GetLastError` (try.go:102, try.go:135) are foreign calls. They are the export tables and the oracle `Env.invoke`. The oracle always yields an OS error value, as `Proc.Call` always returns a `syscall.Errno`.
- The message text of both panics, including the digit trick for the argument index at try.go:131, is left out. A panic records only its kind, the procedure name and, for conversion, the argument index and kind name.
- `fmt.Sprintf("%s", name)` in the wrappers is modelled as the name itself.
- There are no threads. The missing synchronization of the global cache (try.go:84-87, try.go:94) has no counterpart: the cache is one value passed through the calls in order.
- Only the 64-bit target is modelled. On 32-bit Windows `uintptr`, `int` and `uint` are 32 bits wide and the conversions would truncate to 32 bits.
- Coercion.Coerce: only the kind of a value and its number or address are modelled. Every reflect kind not named in the switch (floats, strings, slices, structs, `unsafe.Pointer`, ...) is a single case `Other`.
- Chain.X: `isok` is a pure total function. A predicate with side effects or one that panics is not modelled, and neither is the fact that `X` still calls `isok(0)` on a failed chain.
- Chain.F: `Proc.Call` (try.go:135) also panics when it is given more arguments than the syscall layer supports. `Env.invoke` accepts any number of words, so this panic is not modelled.
- Errors.ErrorText: `Error.Error()` (try.go:38) panics when `Original` is nil, because it calls a method on a nil interface. `ErrorText` requires a non-nil `Original` instead. `Chain.LatchedErrorText` and the `Renderable` clauses of N, Z and X show that a chain never latches an error with a nil `Original`.
- Runs.PairIndependent: the native side is modelled without state. `Env.invoke` is a pure function of the procedure and the words. Real calls have effects: a detached `CloseHandle(h)` changes what a later main-chain call on `h` returns, and with it the main chain's `Err`. The lemma promises only that the cache and the error slots couple nothing.
- windo.go is not part of this model. It is a set of typed WinAPI wrappers over helpers that are not in the shown files.
- example/example.go is not part of this model. It is a demo program.

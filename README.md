# winsession process query session, modelled in Dafny

This project models the per-process query session of winsession's process
information interface (`src/proc_info.c`). A caller creates an interface
instance with `proc_init`, which resolves `NtQueryInformationProcess` from
`Ntdll.dll`. It then opens a `proc_info_type` record on a process ID with
`proc_open`, which acquires a process handle and that process's token handle.
`proc_get_user_sid` asks for the owner's SID: the first successful call fills a
heap-allocated `TOKEN_USER` cache, and later calls copy from it. `proc_close`
gives everything back.

The Windows API is modelled abstractly (module `Win32`). The model does not
say what a call does inside Windows. It keeps three things:

- the set of resources the calling process holds (process and token handles,
  heap blocks, library references);
- the calls made, in order;
- the guarantee that every handle or block a call hands out is new.

Whether each call succeeds is an answer supplied as a parameter. One rule is
fixed: a token query on a token the caller does not hold (NULL or already
closed) fails with `ERROR_INVALID_HANDLE`.

The model has two layers:

- Module `ProcSpec` gives each interface call's effect on the record and on
  the system as a pure function. Its contracts state what the interface
  promises:
  - bad arguments are refused before any system call;
  - a session is never half-open;
  - a failed call holds nothing new;
  - the cache goes from absent to present only on success and is served with
    no system call;
  - close releases in reverse acquisition order and is idempotent;
  - init asks the library it loaded for the entry point and releases that
    library on every path.
- Module `ProcInterface` holds the C procedures as methods over a mutable
  `ProcInfo` record, which may be NULL. They update its fields in place, step
  by step, and each is proved to have exactly its `ProcSpec` effect.

Module `ProcTraces` proves facts about whole sequences of calls on one record.
For any system answers, the resources held apart from the record's own never
change, so nothing leaks and nothing foreign is released. A history ending in
`proc_close` gives back everything acquired along the way. Once filled, the
user cache is kept unchanged by every call except `proc_close`, and in a run of
identity queries every successful one returns the same bytes.

The model follows these details of the code:

- `proc_init` reports a missing library or a missing entry point as
  `ERR_WINAPI` (src/proc_info.c:208-222).
- `proc_open` refuses a NULL record as well as a NULL instance or process ID 0
  (src/proc_info.c:257-259).
- `proc_get_user_sid` refuses a NULL destination as well as a NULL record
  (src/proc_info.c:120-122).
- When `GetProcAddress` fails, `proc_init` has already stored its NULL result
  in `instance->nqip` (src/proc_info.c:216-222).
- Resolving a process's image path and command line is not implemented:
  `proc_get_command` is a stub (src/proc_info.c:95-101).

## Model

| member | source | states |
|---|---|---|
| `ProcTypes.ProcInstance.constructor` | include/proc_info.h:51-54 | a new interface instance has no resolved entry point |
| `ProcTypes.ProcInfo.constructor` | include/proc_info.h:56-63 | a record in zero-initialised storage has no instance, id 0 and owns no handle, token, user buffer or command |
| `ProcSpec.Open` | src/proc_info.c:243-298 | ERR_USAGE exactly when the instance is NULL or id is 0, with the record and system untouched and no call made, whatever the record holds. Otherwise the record is bound to instance and id with user and command NULL. ERR_OK exactly when both handles are granted, and then both are new and are the only new holdings. The calls are OpenProcess(id) first, then on success OpenProcessToken on the handle just opened, and CloseHandle of that handle when the token is refused. ERR_WINAPI leaves both handles NULL and the system holding what it held. The record is never half-open |
| `ProcInterface.ProcOpen` | src/proc_info.c:243-298 | NULL record gives ERR_USAGE with no call; so do a NULL instance or id 0, whatever the record holds; otherwise zeroes and fills the record and acquires and releases handles in place with exactly the effect `ProcSpec.Open` gives |
| `ProcSpec.Close` | src/proc_info.c:50-91 | gives back exactly what the record owns, by HeapFree/CloseHandle in the reverse of acquisition order (user, token, handle). Leaves the record owning nothing, with NULL instance and id 0; `command` is unchanged |
| `ProcInterface.ProcClose` | src/proc_info.c:50-91 | NULL record: no call and no change; otherwise frees and clears each present field in place with exactly the effect `ProcSpec.Close` gives |
| `ProcSpec.CloseIsIdempotent` | src/proc_info.c:57-89 | a second close on the same record makes no call and changes nothing |
| `ProcSpec.GetUserSid` | src/proc_info.c:105-180 | NULL destination: ERR_USAGE, no call. A cached user is served as ERR_OK with no system call and its SID copied. A failed lazy fill leaves the cache absent and no block held: a rejected probe or a closed record gives ERR_WINAPI, a refused allocation ERR_ALLOC, a failed fetch ERR_WINAPI after the buffer is freed. Success exactly when probe, allocation and fetch succeed; it caches a new block and copies the fetched SID. The lazy fill calls GetTokenInformation with length 0 on the record's token, then HeapAlloc of the length the probe reported, then GetTokenInformation with that length, and HeapFree of the new block when the fetch fails; each failure stops the sequence there. Only `user` ever changes, and a present cache is never replaced |
| `ProcInterface.ProcGetUserSid` | src/proc_info.c:105-180 | NULL record or destination gives ERR_USAGE with no call; otherwise probes, allocates a zeroed buffer into `user`, fetches, frees on failure, and copies SID_SIZE bytes into the destination. Exactly the effect of `ProcSpec.GetUserSid`; the destination is unchanged on failure |
| `ProcSpec.EnableDebugging` | src/proc_info.c:302-380 | opens a token on the calling process first, and whichever step fails, holds nothing new afterwards |
| `ProcInterface.EnableProcessDebugging` | src/proc_info.c:302-380 | has exactly the effect of `ProcSpec.EnableDebugging` |
| `ProcSpec.Init` | src/proc_info.c:184-239 | ERR_USAGE exactly when the instance is NULL, and then no call. Missing library: ERR_WINAPI with the entry point untouched. After a load, the entry point is whatever GetProcAddress returned, and a missing entry point gives ERR_WINAPI. Success exactly when library and entry point are found, and then the entry point is non-NULL. The calls are LoadLibrary, then GetProcAddress on the library just loaded, then FreeLibrary of that library; a missing library stops after LoadLibrary, a missing entry point after FreeLibrary, and success goes on to open the calling process's token to enable debugging. The system holds nothing new on every path |
| `ProcInterface.ProcInit` | src/proc_info.c:184-239 | NULL instance gives ERR_USAGE with no call; otherwise writes `nqip` in place and frees the library with exactly the effect of `ProcSpec.Init` |
| `ProcTraces.Apply` | src/proc_info.c:50-298 | one open, identity query or close on a sound record is refused as a reopening exactly when it is a proc_open with valid instance and id on a record that owns resources; otherwise it keeps the record sound and the holdings apart from the record's own unchanged. A close always runs and leaves the record owning nothing; an identity query always runs and neither opens nor closes the record; every call but close that runs keeps a filled user cache as it was |
| `ProcTraces.Replay` | src/proc_info.c:50-298 | along any sequence of calls and any system answers, the record stays sound (never half-open, cache only when open, all it owns held). The resources held apart from the record's own never change |
| `ProcTraces.DisciplinedHistoriesRun` | src/proc_info.c:50-298 | a sequence of calls in which every proc_open with valid arguments comes first on a record owning nothing, or straight after a proc_close, is never refused, whatever the system answers |
| `ProcTraces.ReplaySnoc` | src/proc_info.c:50-298 | replaying one more call is applying it to the outcome of the others |
| `ProcTraces.ReplayThenClose` | src/proc_info.c:57-89 | a history ending in proc_close leaves the record owning nothing and the system holding what it held at the start minus what the record owned then |
| `ProcTraces.Queries` | src/proc_info.c:127-179 | in repeated identity queries every successful copy equals the SID finally cached, and with a cache present no query reaches the system |
| `ProcTraces.CopiesAgree` | src/proc_info.c:178 | in a run of identity queries with a destination, any two that succeed give identical bytes |
| `ProcTraces.CacheKeptUntilClose` | src/proc_info.c:57-179 | along any history without a proc_close, a filled user cache keeps the same buffer and SID, whatever the system answers |

## Left out

- `proc_get_command` (src/proc_info.c:95-101) is a stub that returns ERR_OK and does nothing. `proc_command_type` and its flexible array of argument strings are unused. The record's `command` field is carried, zeroed by open and never touched by close, but nothing populates it.
- Resolving a process's image path and command line (with its allocation policy and transcoding) is not implemented in the code, so it is not modelled.
- Windows semantics are not modelled; each call's outcome is a parameter. This covers access-right masks, the layout of SID and TOKEN_USER, NTSTATUS values and the privilege LUID. The cache holds only the SID_SIZE bytes that proc_get_user_sid copies.
- OpenProcessToken is assumed to return FALSE with a NULL token or TRUE with a new one. The `token == NULL` arm of the check at src/proc_info.c:288 is therefore never the deciding one in the model.
- The result of AdjustTokenPrivileges is ignored, as in the code.
- The GetLastError mechanism is folded into the probe answer (`Probe.lastError`).
- `ProcInterface.ProcOpen` requires, when instance and id are valid, a record that owns nothing (freshly zeroed, closed, or left by a failed open); with a NULL instance or id 0 any sound record is accepted and left untouched. The code zeroes the record first (src/proc_info.c:264), so reopening a record that still holds handles or a user buffer would leak them. The model does not describe that misuse, and `ProcTraces.Apply` and `ProcTraces.Replay` report it as `Reopened`.
- `ProcInterface.ProcClose` and `ProcInterface.ProcGetUserSid` require a record in a state the interface can produce (`Sound`), not uninitialised storage. `ProcInterface.ProcGetUserSid` also requires the destination to be exactly one SID long.
- The error codes come from `error_types.h`, which is not part of this model. Only their names (ERR_OK, ERR_USAGE, ERR_WINAPI, ERR_ALLOC) are used.
- The build script tools/makerc.py (resource-file generation from templates) is not part of the session and is not modelled.
- Concurrency: the code has none, and a record is not meant for shared use.

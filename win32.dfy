/** Option, for the nullable pointers, handles and entry points of the Windows API. */
module Wrappers {
  datatype Option<+T> = None | Some(value: T)

  /** The elements of an optional value, as a set. */
  function Elems<T>(o: Option<T>): set<T>
  {
    if o.Some? then {o.value} else {}
  }

  /** The elements of an optional value, as a sequence. */
  function Items<T>(o: Option<T>): seq<T>
  {
    if o.Some? then [o.value] else []
  }
}

/**
 * An abstract model of the parts of the Windows API that the process query
 * session calls. Nothing here models what Windows does inside a call; what
 * the model keeps is which kernel objects, heap blocks and library references
 * are held (`live`), the calls made in order (`log`), and the fact that every
 * object a call hands out is new. Whether a call succeeds is an answer the
 * caller of the model supplies.
 */
module Win32 {
  import opened Wrappers

  /** A Windows DWORD. */
  type Dword = x: int | 0 <= x < 0x1_0000_0000

  const ERROR_INVALID_HANDLE: Dword := 6
  const ERROR_INSUFFICIENT_BUFFER: Dword := 122

  /** sizeof(SID): revision, sub-authority count, 6-byte authority, one 32-bit sub-authority. */
  const SID_SIZE: nat := 12

  /** The bytes of a security identifier, as copied by memcpy(..., sizeof(SID)). */
  type Sid = s: seq<bv8> | |s| == SID_SIZE witness seq(SID_SIZE, _ => 0 as bv8)

  /** A resolved, non-null procedure address (GetProcAddress). */
  type Address = nat

  datatype Kind = ProcessHandle | TokenHandle | HeapBlock | LibraryRef

  /** A kernel object, heap block or library reference the calling process can hold. */
  datatype Resource = Resource(kind: Kind, serial: nat)

  /** The process a token is opened on: the GetCurrentProcess pseudo-handle or an opened handle. */
  datatype ProcessRef = CurrentProcess | Target(handle: Resource)

  /** A Windows API call, as it appears in the call log. */
  datatype Call =
    | OpenProcess(pid: Dword)
    | OpenProcessToken(process: ProcessRef)
    | GetTokenInformation(queried: Option<Resource>, length: Dword)
    | HeapAlloc(size: Dword)
    | HeapFree(block: Resource)
    | CloseHandle(handle: Resource)
    | LoadLibrary
    | GetProcAddress(library: Resource)
    | FreeLibrary(library: Resource)
    | LookupPrivilegeValue
    | AdjustTokenPrivileges(adjusted: Resource)

  /** What a size probe of GetTokenInformation reports: its BOOL, GetLastError() and the length out-parameter. */
  datatype Probe = Probe(succeeded: bool, lastError: Dword, length: Dword)

  /** The Probe reported for a token the caller does not hold. */
  const INVALID_HANDLE_PROBE: Probe := Probe(false, ERROR_INVALID_HANDLE, 0)

  /**
   * The state of the system as the calling process sees it: the resources it
   * holds, the serial of the next resource the system hands out, and the calls
   * made so far.
   */
  datatype World = World(live: set<Resource>, next: nat, log: seq<Call>) {

    /** Every held resource was handed out before `next`, so a new one is distinct from all of them. */
    ghost predicate Valid() {
      forall r | r in live :: r.serial < next
    }

    /** Appends call `c` to the log. */
    function Called(c: Call): (w: World)
      requires Valid()
      ensures w.Valid() && w.live == live && w.log == log + [c]
    {
      this.(log := log + [c])
    }

    /** The resource the system hands out next. */
    function Fresh(kind: Kind): (r: Resource)
      requires Valid()
      ensures r.kind == kind && r !in live
    {
      Resource(kind, next)
    }

    /** The system hands out `Fresh(kind)`, which is held from now on. */
    function Grant(kind: Kind): (w: World)
      requires Valid()
      ensures w.Valid() && w.live == live + {Fresh(kind)} && w.log == log
    {
      this.(live := live + {Fresh(kind)}, next := next + 1)
    }

    /** Resource `r` is given back to the system. */
    function Drop(r: Resource): (w: World)
      requires Valid()
      ensures w.Valid() && w.live == live - {r} && w.log == log
    {
      this.(live := live - {r})
    }

    /** OpenProcess: a new process handle when the system grants access, NULL otherwise. */
    function OpenProcess(pid: Dword, granted: bool): (r: (World, Option<Resource>))
      requires Valid()
      ensures r.0.Valid() && r.0.log == log + [Call.OpenProcess(pid)]
      ensures r.1.Some? <==> granted
      ensures r.1.Some? ==> r.1.value.kind == ProcessHandle && r.1.value !in live && r.0.live == live + {r.1.value}
      ensures r.1.None? ==> r.0.live == live
    {
      var w := Called(Call.OpenProcess(pid));
      if granted then (w.Grant(ProcessHandle), Some(Fresh(ProcessHandle))) else (w, None)
    }

    /** OpenProcessToken: TRUE and a new token handle when granted, FALSE and NULL otherwise. */
    function OpenProcessToken(process: ProcessRef, granted: bool): (r: (World, bool, Option<Resource>))
      requires Valid()
      ensures r.0.Valid() && r.0.log == log + [Call.OpenProcessToken(process)]
      ensures r.1 == granted && (r.2.Some? <==> granted)
      ensures r.2.Some? ==> r.2.value.kind == TokenHandle && r.2.value !in live && r.0.live == live + {r.2.value}
      ensures r.2.None? ==> r.0.live == live
    {
      var w := Called(Call.OpenProcessToken(process));
      if granted then (w.Grant(TokenHandle), true, Some(Fresh(TokenHandle))) else (w, false, None)
    }

    /**
     * GetTokenInformation(TokenUser) with a zero-length buffer. A token the
     * caller does not hold (NULL or already closed) makes the call fail with
     * ERROR_INVALID_HANDLE; otherwise the system reports `answer`.
     */
    function ProbeTokenUser(token: Option<Resource>, answer: Probe): (r: (World, Probe))
      requires Valid()
      ensures r.0.Valid() && r.0.live == live && r.0.log == log + [GetTokenInformation(token, 0)]
      ensures r.1 == if token.Some? && token.value in live then answer else INVALID_HANDLE_PROBE
    {
      var w := Called(GetTokenInformation(token, 0));
      if token.Some? && token.value in live then (w, answer) else (w, INVALID_HANDLE_PROBE)
    }

    /**
     * GetTokenInformation(TokenUser) into a buffer of `length` bytes: the SID
     * of the token's user when the call succeeds. A token the caller does not
     * hold makes it fail.
     */
    function FetchTokenUser(token: Option<Resource>, length: Dword, answer: Option<Sid>): (r: (World, Option<Sid>))
      requires Valid()
      ensures r.0.Valid() && r.0.live == live && r.0.log == log + [GetTokenInformation(token, length)]
      ensures r.1 == if token.Some? && token.value in live then answer else None
    {
      var w := Called(GetTokenInformation(token, length));
      if token.Some? && token.value in live then (w, answer) else (w, None)
    }

    /** HeapAlloc: a new heap block when memory is available, NULL otherwise. */
    function HeapAlloc(size: Dword, granted: bool): (r: (World, Option<Resource>))
      requires Valid()
      ensures r.0.Valid() && r.0.log == log + [Call.HeapAlloc(size)]
      ensures r.1.Some? <==> granted
      ensures r.1.Some? ==> r.1.value.kind == HeapBlock && r.1.value !in live && r.0.live == live + {r.1.value}
      ensures r.1.None? ==> r.0.live == live
    {
      var w := Called(Call.HeapAlloc(size));
      if granted then (w.Grant(HeapBlock), Some(Fresh(HeapBlock))) else (w, None)
    }

    /** HeapFree: the block is no longer held. */
    function HeapFree(block: Resource): (w: World)
      requires Valid()
      ensures w.Valid() && w.live == live - {block} && w.log == log + [Call.HeapFree(block)]
    {
      Called(Call.HeapFree(block)).Drop(block)
    }

    /** CloseHandle: the handle is no longer held. */
    function CloseHandle(handle: Resource): (w: World)
      requires Valid()
      ensures w.Valid() && w.live == live - {handle} && w.log == log + [Call.CloseHandle(handle)]
    {
      Called(Call.CloseHandle(handle)).Drop(handle)
    }

    /** LoadLibrary: a new reference to the library when it is found, NULL otherwise. */
    function LoadLibrary(found: bool): (r: (World, Option<Resource>))
      requires Valid()
      ensures r.0.Valid() && r.0.log == log + [Call.LoadLibrary]
      ensures r.1.Some? <==> found
      ensures r.1.Some? ==> r.1.value.kind == LibraryRef && r.1.value !in live && r.0.live == live + {r.1.value}
      ensures r.1.None? ==> r.0.live == live
    {
      var w := Called(Call.LoadLibrary);
      if found then (w.Grant(LibraryRef), Some(Fresh(LibraryRef))) else (w, None)
    }

    /** GetProcAddress: the entry point the library exports, or NULL. */
    function GetProcAddress(library: Resource, answer: Option<Address>): (r: (World, Option<Address>))
      requires Valid()
      ensures r.0.Valid() && r.0.live == live && r.0.log == log + [Call.GetProcAddress(library)]
      ensures r.1 == answer
    {
      (Called(Call.GetProcAddress(library)), answer)
    }

    /** FreeLibrary: the library reference is no longer held. */
    function FreeLibrary(library: Resource): (w: World)
      requires Valid()
      ensures w.Valid() && w.live == live - {library} && w.log == log + [Call.FreeLibrary(library)]
    {
      Called(Call.FreeLibrary(library)).Drop(library)
    }

    /** LookupPrivilegeValue: whether the named privilege is known. */
    function LookupPrivilegeValue(found: bool): (r: (World, bool))
      requires Valid()
      ensures r.0.Valid() && r.0.live == live && r.0.log == log + [Call.LookupPrivilegeValue]
      ensures r.1 == found
    {
      (Called(Call.LookupPrivilegeValue), found)
    }

    /** AdjustTokenPrivileges: holds nothing new; its result is not observed by the session code. */
    function AdjustTokenPrivileges(token: Resource): (w: World)
      requires Valid()
      ensures w.Valid() && w.live == live && w.log == log + [Call.AdjustTokenPrivileges(token)]
    {
      Called(Call.AdjustTokenPrivileges(token))
    }
  }

  /**
   * The system as the program's code sees it: each Windows call is a method
   * that changes the held resources and the log exactly as the matching
   * `World` function says.
   */
  class Kernel {
    var live: set<Resource>   // the handle table and heap as the system keeps them
    var next: nat
    ghost var log: seq<Call>

    ghost function State(): World
      reads this
    {
      World(live, next, log)
    }

    ghost predicate Valid()
      reads this
    {
      State().Valid()
    }

    constructor ()
      ensures Valid() && live == {} && log == []
    {
      live, next, log := {}, 0, [];
    }

    method Record(c: Call)
      requires Valid()
      modifies this
      ensures Valid() && State() == old(State()).Called(c)
    {
      log := log + [c];
    }

    method Acquire(kind: Kind) returns (r: Resource)
      requires Valid()
      modifies this
      ensures Valid() && r == old(State()).Fresh(kind) && State() == old(State()).Grant(kind)
    {
      r := Resource(kind, next);
      live, next := live + {r}, next + 1;
    }

    method OpenProcess(pid: Dword, granted: bool) returns (h: Option<Resource>)
      requires Valid()
      modifies this
      ensures Valid() && (State(), h) == old(State()).OpenProcess(pid, granted)
    {
      Record(Call.OpenProcess(pid));
      h := None;
      if granted {
        var r := Acquire(ProcessHandle);
        h := Some(r);
      }
    }

    method OpenProcessToken(process: ProcessRef, granted: bool) returns (ok: bool, token: Option<Resource>)
      requires Valid()
      modifies this
      ensures Valid() && (State(), ok, token) == old(State()).OpenProcessToken(process, granted)
    {
      Record(Call.OpenProcessToken(process));
      ok, token := false, None;
      if granted {
        var r := Acquire(TokenHandle);
        ok, token := true, Some(r);
      }
    }

    method ProbeTokenUser(token: Option<Resource>, answer: Probe) returns (probe: Probe)
      requires Valid()
      modifies this
      ensures Valid() && (State(), probe) == old(State()).ProbeTokenUser(token, answer)
    {
      probe := if token.Some? && token.value in live then answer else INVALID_HANDLE_PROBE;
      Record(GetTokenInformation(token, 0));
    }

    method FetchTokenUser(token: Option<Resource>, length: Dword, answer: Option<Sid>) returns (sid: Option<Sid>)
      requires Valid()
      modifies this
      ensures Valid() && (State(), sid) == old(State()).FetchTokenUser(token, length, answer)
    {
      sid := if token.Some? && token.value in live then answer else None;
      Record(GetTokenInformation(token, length));
    }

    method HeapAlloc(size: Dword, granted: bool) returns (block: Option<Resource>)
      requires Valid()
      modifies this
      ensures Valid() && (State(), block) == old(State()).HeapAlloc(size, granted)
    {
      Record(Call.HeapAlloc(size));
      block := None;
      if granted {
        var r := Acquire(HeapBlock);
        block := Some(r);
      }
    }

    method HeapFree(block: Resource)
      requires Valid()
      modifies this
      ensures Valid() && State() == old(State()).HeapFree(block)
    {
      Record(Call.HeapFree(block));
      live := live - {block};
    }

    method CloseHandle(handle: Resource)
      requires Valid()
      modifies this
      ensures Valid() && State() == old(State()).CloseHandle(handle)
    {
      Record(Call.CloseHandle(handle));
      live := live - {handle};
    }

    method LoadLibrary(found: bool) returns (library: Option<Resource>)
      requires Valid()
      modifies this
      ensures Valid() && (State(), library) == old(State()).LoadLibrary(found)
    {
      Record(Call.LoadLibrary);
      library := None;
      if found {
        var r := Acquire(LibraryRef);
        library := Some(r);
      }
    }

    method GetProcAddress(library: Resource, answer: Option<Address>) returns (entry: Option<Address>)
      requires Valid()
      modifies this
      ensures Valid() && (State(), entry) == old(State()).GetProcAddress(library, answer)
    {
      Record(Call.GetProcAddress(library));
      entry := answer;
    }

    method FreeLibrary(library: Resource)
      requires Valid()
      modifies this
      ensures Valid() && State() == old(State()).FreeLibrary(library)
    {
      Record(Call.FreeLibrary(library));
      live := live - {library};
    }

    method LookupPrivilegeValue(found: bool) returns (ok: bool)
      requires Valid()
      modifies this
      ensures Valid() && (State(), ok) == old(State()).LookupPrivilegeValue(found)
    {
      Record(Call.LookupPrivilegeValue);
      ok := found;
    }

    method AdjustTokenPrivileges(token: Resource)
      requires Valid()
      modifies this
      ensures Valid() && State() == old(State()).AdjustTokenPrivileges(token)
    {
      Record(Call.AdjustTokenPrivileges(token));
    }
  }
}

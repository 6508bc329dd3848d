/**
 * The effect of each interface call on a record and on the system, as a
 * function of the record, the system and the system's answers. The methods of
 * module ProcInterface are proved to have exactly these effects; the contracts here
 * state what the interface promises about them.
 */
module ProcSpec {
  import opened Wrappers
  import opened Win32
  import opened ProcTypes

  /** The system's answers to OpenProcess and OpenProcessToken. */
  datatype OpenAnswers = OpenAnswers(processGranted: bool, tokenGranted: bool)

  /** The system's answers to the size probe, the allocation and the fetch of the user information. */
  datatype SidAnswers = SidAnswers(probe: Probe, allocGranted: bool, fetched: Option<Sid>)

  /** The system's answers to the steps of the debug-privilege adjustment. */
  datatype DebugAnswers = DebugAnswers(tokenGranted: bool, privilegeFound: bool)

  /** The system's answers to LoadLibrary and GetProcAddress, and to the privilege adjustment. */
  datatype InitAnswers = InitAnswers(libraryLoaded: bool, entryPoint: Option<Address>, debug: DebugAnswers)

  datatype Step = Step(err: Error, info: Info, world: World)
  datatype Snapshot = Snapshot(info: Info, world: World)
  datatype SidStep = SidStep(err: Error, info: Info, world: World, copied: Option<Sid>)
  datatype InitStep = InitStep(err: Error, nqip: Option<Address>, world: World)

  /** A size probe that lets the lazy fill go on: success, or failure with ERROR_INSUFFICIENT_BUFFER. */
  predicate Accepted(p: Probe) {
    p.succeeded || p.lastError == ERROR_INSUFFICIENT_BUFFER
  }

  /**
   * proc_open. Bad arguments are refused before the record is touched and
   * before any system call, whatever the record holds. Otherwise the record,
   * which must own nothing, is cleared and bound to `instance` and `id`; a
   * handle to process `id` is requested, then a token on that handle, and
   * either both are held when the call returns or neither is.
   */
  function Open(info: Info, w: World, instance: ProcInstance?, id: Dword, ans: OpenAnswers): (r: Step)
    requires Sound(info, w)
    requires instance != null && id != 0 ==> Idle(info)
    ensures Sound(r.info, r.world)
    ensures r.world.live - Owned(r.info) == w.live - Owned(info)
    ensures r.err in {ErrOk, ErrUsage, ErrWinApi}
    ensures r.err == ErrUsage <==> instance == null || id == 0
    ensures r.err == ErrUsage ==> r.info == info && r.world == w
    ensures r.err != ErrUsage ==>
              r.info.instance == instance && r.info.id == id && r.info.user.None? && r.info.command.None?
    ensures r.err == ErrOk <==> instance != null && id != 0 && ans.processGranted && ans.tokenGranted
    ensures r.err == ErrOk ==>
              && r.info.handle.Some? && r.info.token.Some?
              && Owned(r.info) !! w.live && r.world.live == w.live + Owned(r.info)
    ensures r.err == ErrWinApi ==> r.info.handle.None? && r.info.token.None? && r.world.live == w.live
    ensures r.err != ErrUsage ==> |r.world.log| > |w.log| && r.world.log[|w.log|] == Call.OpenProcess(id)
    ensures r.err == ErrOk ==>
              r.world.log == w.log + [Call.OpenProcess(id), OpenProcessToken(Target(r.info.handle.value))]
    ensures r.err == ErrWinApi && !ans.processGranted ==> r.world.log == w.log + [Call.OpenProcess(id)]
    ensures r.err == ErrWinApi && ans.processGranted ==>
              var h := w.Fresh(ProcessHandle);
              r.world.log == w.log + [Call.OpenProcess(id), OpenProcessToken(Target(h)), CloseHandle(h)]
  {
    if instance == null || id == 0 then Step(ErrUsage, info, w)
    else
      var cleared := ZEROED.(instance := instance, id := id);
      var (w1, handle) := w.OpenProcess(id, ans.processGranted);
      if handle.None? then Step(ErrWinApi, cleared, w1)
      else
        var (w2, ok, token) := w1.OpenProcessToken(Target(handle.value), ans.tokenGranted);
        if !ok || token.None? then Step(ErrWinApi, cleared, w2.CloseHandle(handle.value))
        else Step(ErrOk, cleared.(handle := handle, token := token), w2)
  }

  /** The resources a record owns, in the order the interface acquires them. */
  function Holdings(info: Info): seq<Resource> {
    Items(info.handle) + Items(info.token) + (if info.user.Some? then [info.user.value.block] else [])
  }

  function Reversed<T>(s: seq<T>): (r: seq<T>)
    ensures |r| == |s|
    ensures forall i | 0 <= i < |s| :: r[i] == s[|s| - 1 - i]
  {
    if s == [] then [] else Reversed(s[1..]) + [s[0]]
  }

  /** The call that gives `r` back: HeapFree for a heap block, CloseHandle for a handle. */
  function ReleaseCall(r: Resource): Call {
    if r.kind == HeapBlock then HeapFree(r) else CloseHandle(r)
  }

  function ReleaseCalls(rs: seq<Resource>): (cs: seq<Call>)
    ensures |cs| == |rs|
    ensures forall i | 0 <= i < |rs| :: cs[i] == ReleaseCall(rs[i])
  {
    if rs == [] then [] else [ReleaseCall(rs[0])] + ReleaseCalls(rs[1..])
  }

  /**
   * proc_close on a record: everything the record owns is given back, in the
   * reverse of the order it was acquired, and nothing else; the record is left
   * owning nothing, with no instance and id 0; `command` is not touched.
   */
  function Close(info: Info, w: World): (r: Snapshot)
    requires Sound(info, w)
    ensures Sound(r.info, r.world) && Idle(r.info)
    ensures r.info.instance == null && r.info.id == 0 && r.info.command == info.command
    ensures r.world.live == w.live - Owned(info)
    ensures r.world.log == w.log + ReleaseCalls(Reversed(Holdings(info)))
  {
    var w1 := if info.user.Some? then w.HeapFree(info.user.value.block) else w;
    var w2 := if info.token.Some? then w1.CloseHandle(info.token.value) else w1;
    var w3 := if info.handle.Some? then w2.CloseHandle(info.handle.value) else w2;
    assert Reversed(Holdings(info)) ==
           (if info.user.Some? then [info.user.value.block] else []) + Items(info.token) + Items(info.handle);
    Snapshot(Info(null, 0, None, None, None, info.command), w3)
  }

  /**
   * proc_get_user_sid with a destination (`destGiven`) or a NULL one. A cached
   * user is served with no system call at all. Otherwise the user information
   * is probed for its size, a buffer allocated and filled; every failure leaves
   * the cache absent and no buffer held, so a later call starts over.
   */
  function GetUserSid(info: Info, w: World, destGiven: bool, ans: SidAnswers): (r: SidStep)
    requires Sound(info, w)
    ensures Sound(r.info, r.world)
    ensures r.world.live - Owned(r.info) == w.live - Owned(info)
    ensures r.info.(user := info.user) == info
    ensures r.err == ErrOk <==> r.copied.Some?
    ensures r.copied.Some? ==> r.info.user.Some? && r.copied.value == r.info.user.value.sid
    ensures info.user.Some? ==> r.info.user == info.user
    ensures r.err != ErrOk ==> r.info == info && r.world.live == w.live
    ensures !destGiven ==> r.err == ErrUsage && r.world == w
    ensures destGiven && info.user.Some? ==> r.err == ErrOk && r.world == w
    ensures destGiven && info.user.None? ==> r.err != ErrUsage
    ensures destGiven && info.user.None? && info.token.None? ==> r.err == ErrWinApi
    ensures destGiven && info.user.None? && info.token.Some? ==>
              && (!Accepted(ans.probe) ==> r.err == ErrWinApi)
              && (r.err == ErrAlloc <==> Accepted(ans.probe) && !ans.allocGranted)
              && (r.err == ErrOk <==> Accepted(ans.probe) && ans.allocGranted && ans.fetched.Some?)
              && (r.err == ErrOk ==> r.copied == ans.fetched && Owned(r.info) - Owned(info) !! w.live)
    ensures destGiven && info.user.None? && info.token.None? ==>
              r.world.log == w.log + [GetTokenInformation(None, 0)]
    ensures destGiven && info.user.None? && info.token.Some? ==>
              var probe := GetTokenInformation(info.token, 0);
              var size := ans.probe.length;
              var fetch := GetTokenInformation(info.token, size);
              && (!Accepted(ans.probe) ==> r.world.log == w.log + [probe])
              && (r.err == ErrAlloc ==> r.world.log == w.log + [probe, Call.HeapAlloc(size)])
              && (r.err == ErrOk ==>
                    && r.world.log == w.log + [probe, Call.HeapAlloc(size), fetch]
                    && r.info.user.value.block == w.Fresh(HeapBlock))
              && (Accepted(ans.probe) && ans.allocGranted && ans.fetched.None? ==>
                    r.world.log == w.log + [probe, Call.HeapAlloc(size), fetch, HeapFree(w.Fresh(HeapBlock))])
  {
    if !destGiven then SidStep(ErrUsage, info, w, None)
    else if info.user.Some? then SidStep(ErrOk, info, w, Some(info.user.value.sid))
    else
      var (w1, probe) := w.ProbeTokenUser(info.token, ans.probe);
      if !Accepted(probe) then SidStep(ErrWinApi, info, w1, None)
      else
        var (w2, block) := w1.HeapAlloc(probe.length, ans.allocGranted);
        if block.None? then SidStep(ErrAlloc, info, w2, None)
        else
          var (w3, sid) := w2.FetchTokenUser(info.token, probe.length, ans.fetched);
          if sid.None? then SidStep(ErrWinApi, info, w3.HeapFree(block.value), None)
          else SidStep(ErrOk, info.(user := Some(UserBuffer(block.value, sid.value))), w3, sid)
  }

  /**
   * enable_process_debugging: whichever step fails, the token it opens on the
   * calling process is closed again, so the call holds nothing afterwards.
   */
  function EnableDebugging(w: World, ans: DebugAnswers): (r: World)
    requires w.Valid()
    ensures r.Valid() && r.live == w.live
    ensures |r.log| > |w.log| && r.log[|w.log|] == OpenProcessToken(CurrentProcess)
    ensures r.log[..|w.log|] == w.log
  {
    var (w1, ok, token) := w.OpenProcessToken(CurrentProcess, ans.tokenGranted);
    if !ok then w1
    else
      var (w2, found) := w1.LookupPrivilegeValue(ans.privilegeFound);
      if !found then w2.CloseHandle(token.value)
      else w2.AdjustTokenPrivileges(token.value).CloseHandle(token.value)
  }

  /**
   * proc_init on an instance (`hasInstance`) or on NULL, whose entry point is
   * `nqip`. It loads the library, asks that library for the entry point and
   * releases it on every path, so the system holds nothing new afterwards;
   * success means the entry point was resolved, and is followed by an attempt
   * to enable debugging.
   */
  function Init(hasInstance: bool, nqip: Option<Address>, w: World, ans: InitAnswers): (r: InitStep)
    requires w.Valid()
    ensures r.world.Valid() && r.world.live == w.live
    ensures r.err in {ErrOk, ErrUsage, ErrWinApi}
    ensures r.err == ErrUsage <==> !hasInstance
    ensures !hasInstance ==> r.world == w && r.nqip == nqip
    ensures hasInstance && ans.libraryLoaded && ans.entryPoint.None? ==> r.err == ErrWinApi
    ensures hasInstance && !ans.libraryLoaded ==> r.err == ErrWinApi && r.nqip == nqip
    ensures hasInstance && ans.libraryLoaded ==> r.nqip == ans.entryPoint
    ensures r.err == ErrOk <==> hasInstance && ans.libraryLoaded && ans.entryPoint.Some?
    ensures r.err == ErrOk ==> r.nqip.Some?
    ensures hasInstance && !ans.libraryLoaded ==> r.world.log == w.log + [LoadLibrary]
    ensures hasInstance && ans.libraryLoaded ==>
              var lib := w.Fresh(LibraryRef);
              var resolved := w.log + [LoadLibrary, GetProcAddress(lib), FreeLibrary(lib)];
              && |r.world.log| >= |resolved| && r.world.log[..|resolved|] == resolved
              && (ans.entryPoint.None? ==> r.world.log == resolved)
              && (ans.entryPoint.Some? ==>
                    |r.world.log| > |resolved| && r.world.log[|resolved|] == OpenProcessToken(CurrentProcess))
  {
    if !hasInstance then InitStep(ErrUsage, nqip, w)
    else
      var (w1, library) := w.LoadLibrary(ans.libraryLoaded);
      if library.None? then InitStep(ErrWinApi, nqip, w1)
      else
        var (w2, entry) := w1.GetProcAddress(library.value, ans.entryPoint);
        if entry.None? then InitStep(ErrWinApi, entry, w2.FreeLibrary(library.value))
        else InitStep(ErrOk, entry, EnableDebugging(w2.FreeLibrary(library.value), ans.debug))
  }

  /** A second proc_close on the same record makes no call and changes nothing. */
  lemma CloseIsIdempotent(info: Info, w: World)
    requires Sound(info, w)
    ensures var once := Close(info, w); Close(once.info, once.world) == once
  {
  }
}

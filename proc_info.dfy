/**
 * The process information interface as the program runs it: free procedures
 * over a caller-owned record that may be NULL, updating its fields in place
 * and calling the system step by step. Each is proved to have exactly the
 * effect that module ProcSpec gives it.
 */
module ProcInterface {
  import opened Wrappers
  import opened Win32
  import opened ProcTypes
  import opened ProcSpec

  /** proc_close: gives back the user buffer, then the token, then the process handle. */
  method ProcClose(info: ProcInfo?, k: Kernel)
    requires k.Valid()
    requires info != null ==> Sound(info.Model(), k.State())
    modifies info, k
    ensures k.Valid()
    ensures info == null ==> unchanged(k)
    ensures info != null ==> Snapshot(info.Model(), k.State()) == Close(old(info.Model()), old(k.State()))
  {
    if info == null {
      return;
    }
    if info.user.Some? {
      k.HeapFree(info.user.value.block);
      info.user := None;
    }
    if info.token.Some? {
      k.CloseHandle(info.token.value);
      info.token := None;
    }
    if info.handle.Some? {
      k.CloseHandle(info.handle.value);
      info.handle := None;
    }
    info.instance := null;
    info.id := 0;
  }

  /**
   * proc_get_user_sid: fills the user cache on first use, then copies the
   * SID_SIZE bytes of the cached SID into `sid`.
   */
  method ProcGetUserSid(info: ProcInfo?, sid: array?<bv8>, k: Kernel, ans: SidAnswers) returns (e: Error)
    requires k.Valid()
    requires info != null ==> Sound(info.Model(), k.State())
    requires sid != null ==> sid.Length == SID_SIZE
    modifies info, sid, k
    ensures k.Valid()
    ensures info == null ==> e == ErrUsage && unchanged(k) && (sid != null ==> unchanged(sid))
    ensures info != null ==>
              var s := GetUserSid(old(info.Model()), old(k.State()), sid != null, ans);
              && e == s.err && info.Model() == s.info && k.State() == s.world
              && (sid != null ==> sid[..] == if s.copied.Some? then s.copied.value else old(sid[..]))
  {
    if info == null || sid == null {
      return ErrUsage;
    }
    if info.user.None? {
      var probe := k.ProbeTokenUser(info.token, ans.probe);
      if !probe.succeeded && probe.lastError != ERROR_INSUFFICIENT_BUFFER {
        return ErrWinApi;
      }
      var block := k.HeapAlloc(probe.length, ans.allocGranted);
      if block.None? {
        return ErrAlloc;
      }
      // HEAP_ZERO_MEMORY: the buffer is zero until the second query fills it.
      info.user := Some(UserBuffer(block.value, seq(SID_SIZE, _ => 0 as bv8)));
      var fetched := k.FetchTokenUser(info.token, probe.length, ans.fetched);
      if fetched.None? {
        k.HeapFree(block.value);
        info.user := None;
        return ErrWinApi;
      }
      info.user := Some(UserBuffer(block.value, fetched.value));
    }
    var cached := info.user.value.sid;
    forall i | 0 <= i < sid.Length {
      sid[i] := cached[i];
    }
    assert sid[..] == cached;
    e := ErrOk;
  }

  /**
   * enable_process_debugging: tries to enable the debug privilege on the
   * calling process's own token; every failure just returns.
   */
  method EnableProcessDebugging(k: Kernel, ans: DebugAnswers)
    requires k.Valid()
    modifies k
    ensures k.Valid() && k.State() == EnableDebugging(old(k.State()), ans)
  {
    var ok, token := k.OpenProcessToken(CurrentProcess, ans.tokenGranted);
    if !ok {
      return;
    }
    var found := k.LookupPrivilegeValue(ans.privilegeFound);
    if !found {
      k.CloseHandle(token.value);
      return;
    }
    k.AdjustTokenPrivileges(token.value);
    k.CloseHandle(token.value);
  }

  /** proc_init: resolves NtQueryInformationProcess into `instance.nqip`. */
  method ProcInit(instance: ProcInstance?, k: Kernel, ans: InitAnswers) returns (e: Error)
    requires k.Valid()
    modifies instance, k
    ensures k.Valid()
    ensures instance == null ==> e == ErrUsage && unchanged(k)
    ensures instance != null ==>
              InitStep(e, instance.nqip, k.State()) == Init(true, old(instance.nqip), old(k.State()), ans)
  {
    if instance == null {
      return ErrUsage;
    }
    var library := k.LoadLibrary(ans.libraryLoaded);
    if library.None? {
      return ErrWinApi;
    }
    instance.nqip := k.GetProcAddress(library.value, ans.entryPoint);
    if instance.nqip.None? {
      k.FreeLibrary(library.value);
      return ErrWinApi;
    }
    k.FreeLibrary(library.value);
    EnableProcessDebugging(k, ans.debug);
    e := ErrOk;
  }

  /**
   * proc_open: bad arguments are refused before the record is touched;
   * otherwise a record that owns nothing (fresh or closed) is zeroed, bound to
   * `instance` and `id`, and given a process handle and that process's token,
   * or neither.
   */
  method ProcOpen(instance: ProcInstance?, info: ProcInfo?, id: Dword, k: Kernel, ans: OpenAnswers) returns (e: Error)
    requires k.Valid()
    requires info != null ==> Sound(info.Model(), k.State())
    requires info != null && instance != null && id != 0 ==> Idle(info.Model())
    modifies info, k
    ensures k.Valid()
    ensures info == null ==> e == ErrUsage && unchanged(k)
    ensures info != null ==>
              Step(e, info.Model(), k.State()) == Open(old(info.Model()), old(k.State()), instance, id, ans)
  {
    if instance == null || info == null || id == 0 {
      return ErrUsage;
    }
    info.instance, info.id, info.handle, info.token, info.user, info.command := null, 0, None, None, None, None;
    info.instance := instance;
    info.id := id;
    info.handle := k.OpenProcess(info.id, ans.processGranted);
    if info.handle.None? {
      return ErrWinApi;
    }
    var ok;
    ok, info.token := k.OpenProcessToken(Target(info.handle.value), ans.tokenGranted);
    if !ok || info.token.None? {
      k.CloseHandle(info.handle.value);
      info.handle := None;
      return ErrWinApi;
    }
    e := ErrOk;
  }
}

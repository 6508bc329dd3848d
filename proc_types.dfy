/**
 * The records of the process information interface: the interface instance
 * that holds the NtQueryInformationProcess entry point, and the per-process
 * query record with its owned handles and lazily filled user cache.
 */
module ProcTypes {
  import opened Wrappers
  import opened Win32

  /** The error codes the interface returns. */
  datatype Error = ErrOk | ErrUsage | ErrWinApi | ErrAlloc

  /** proc_instance_type: the interface instance shared by the records opened from it. */
  class ProcInstance {
    /** The resolved NtQueryInformationProcess entry point, or NULL. */
    var nqip: Option<Address>

    constructor ()
      ensures nqip.None?
    {
      nqip := None;
    }
  }

  /** The heap block behind `user` and the SID its TOKEN_USER holds. */
  datatype UserBuffer = UserBuffer(block: Resource, sid: Sid)

  /** The contents of a proc_info_type record, as a value. */
  datatype Info = Info(
    instance: ProcInstance?,
    id: Dword,
    handle: Option<Resource>,
    token: Option<Resource>,
    user: Option<UserBuffer>,
    command: Option<Resource>)

  /** A record after memset(info, 0, sizeof(proc_info_type)). */
  const ZEROED: Info := Info(null, 0, None, None, None, None)

  /** The resources a record owns: its process handle, its token handle and its user buffer. */
  function Owned(info: Info): set<Resource>
  {
    Elems(info.handle) + Elems(info.token) + (if info.user.Some? then {info.user.value.block} else {})
  }

  /** A record that owns nothing: freshly zeroed, closed, or left by a failed open. */
  predicate Idle(info: Info) {
    info.handle.None? && info.token.None? && info.user.None?
  }

  /**
   * The record invariant, relative to what the system holds: everything the
   * record owns is held and has the kind its field says; the record is never
   * half-open (it has both handles or neither); and a user cache exists only
   * on an open record.
   */
  ghost predicate Sound(info: Info, w: World) {
    && w.Valid()
    && Owned(info) <= w.live
    && (info.handle.Some? ==> info.handle.value.kind == ProcessHandle)
    && (info.token.Some? ==> info.token.value.kind == TokenHandle)
    && (info.user.Some? ==> info.user.value.block.kind == HeapBlock)
    && (info.handle.Some? <==> info.token.Some?)
    && (info.user.Some? ==> info.token.Some?)
  }

  /** proc_info_type: one query session on one process, updated in place by the interface. */
  class ProcInfo {
    var instance: ProcInstance?
    var id: Dword
    var handle: Option<Resource>
    var token: Option<Resource>
    var user: Option<UserBuffer>
    var command: Option<Resource>

    /** The record's fields, as a value. */
    function Model(): Info
      reads this
    {
      Info(instance, id, handle, token, user, command)
    }

    /** A record in zero-initialised storage. */
    constructor ()
      ensures Model() == ZEROED
    {
      instance, id, handle, token, user, command := null, 0, None, None, None, None;
    }
  }
}

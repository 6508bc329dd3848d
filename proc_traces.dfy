/**
 * Properties of sequences of interface calls on one record: whatever the
 * system answers, the record never leaks or steals a resource, stays sound,
 * and serves one and the same SID from its cache.
 */
module ProcTraces {
  import opened Wrappers
  import opened Win32
  import opened ProcTypes
  import opened ProcSpec

  /** One call on the record, with the system's answers to it. */
  datatype Op =
    | OpenOp(instance: ProcInstance?, id: Dword, openAns: OpenAnswers)
    | UserSidOp(destGiven: bool, sidAns: SidAnswers)
    | CloseOp

  /**
   * The outcome of a sequence of calls: the final record and system, or
   * `Reopened` when the sequence calls proc_open with valid arguments on a
   * record that still owns resources, which callers must not do (proc_open
   * zeroes the record first).
   */
  datatype Run = Ran(info: Info, world: World) | Reopened

  /** A proc_open that would zero a record still owning resources. */
  predicate Reopens(info: Info, op: Op) {
    op.OpenOp? && op.instance != null && op.id != 0 && !Idle(info)
  }

  /** Applies one call. */
  function Apply(info: Info, w: World, op: Op): (r: Run)
    requires Sound(info, w)
    ensures r.Reopened? <==> Reopens(info, op)
    ensures r.Ran? ==> Sound(r.info, r.world)
    ensures r.Ran? ==> r.world.live - Owned(r.info) == w.live - Owned(info)
    ensures op.CloseOp? ==> r.Ran? && Idle(r.info)
    ensures op.UserSidOp? ==> r.Ran? && Idle(r.info) == Idle(info)
    ensures r.Ran? && !op.CloseOp? && info.user.Some? ==> r.info.user == info.user
  {
    match op
    case OpenOp(instance, id, ans) =>
      if instance != null && id != 0 && !Idle(info) then Reopened
      else var s := Open(info, w, instance, id, ans); Ran(s.info, s.world)
    case UserSidOp(destGiven, ans) =>
      var s := GetUserSid(info, w, destGiven, ans); Ran(s.info, s.world)
    case CloseOp =>
      var s := Close(info, w); Ran(s.info, s.world)
  }

  /**
   * Applies the calls in order. Along any sequence, the resources held apart
   * from the record's own are exactly those held before it: no call leaks a
   * resource it acquired and none gives back one it does not own.
   */
  function Replay(info: Info, w: World, ops: seq<Op>): (r: Run)
    requires Sound(info, w)
    ensures r.Ran? ==> Sound(r.info, r.world)
    ensures r.Ran? ==> r.world.live - Owned(r.info) == w.live - Owned(info)
    decreases |ops|
  {
    if ops == [] then Ran(info, w)
    else
      var first := Apply(info, w, ops[0]);
      if first.Reopened? then Reopened else Replay(first.info, first.world, ops[1..])
  }

  /**
   * A history in which every proc_open with valid arguments comes first or
   * straight after a proc_close.
   */
  predicate Disciplined(ops: seq<Op>)
    decreases |ops|
  {
    |ops| <= 1 || (((ops[1].OpenOp? && ops[1].instance != null && ops[1].id != 0) ==> ops[0].CloseOp?) && Disciplined(ops[1..]))
  }

  /**
   * Any history that closes the record before each reopening runs to the end
   * under any system answers, provided the record owns nothing when the first
   * call is an open.
   */
  lemma {:induction false} DisciplinedHistoriesRun(info: Info, w: World, ops: seq<Op>)
    requires Sound(info, w)
    requires Disciplined(ops)
    requires |ops| > 0 ==> !Reopens(info, ops[0])
    ensures Replay(info, w, ops).Ran?
    decreases |ops|
  {
    if ops != [] {
      var first := Apply(info, w, ops[0]);
      if |ops| > 1 {
        assert !Reopens(first.info, ops[1]) by {
          if ops[1].OpenOp? && ops[1].instance != null && ops[1].id != 0 {
            assert ops[0].CloseOp?;
          }
        }
      }
      DisciplinedHistoriesRun(first.info, first.world, ops[1..]);
    }
  }

  /**
   * Once filled, the user cache is neither dropped nor replaced by any call
   * except proc_close: along a history without a close, the cached buffer
   * and SID stay those the record started with.
   */
  lemma {:induction false} CacheKeptUntilClose(info: Info, w: World, ops: seq<Op>)
    requires Sound(info, w)
    requires info.user.Some?
    requires forall i | 0 <= i < |ops| :: !ops[i].CloseOp?
    ensures var r := Replay(info, w, ops);
            r.Ran? ==> r.info.user == info.user
    decreases |ops|
  {
    if ops != [] {
      var first := Apply(info, w, ops[0]);
      if first.Ran? {
        assert forall i | 0 <= i < |ops[1..]| :: !ops[1..][i].CloseOp? by {
          forall i | 0 <= i < |ops[1..]| ensures !ops[1..][i].CloseOp? {
            assert ops[1..][i] == ops[i + 1];
          }
        }
        CacheKeptUntilClose(first.info, first.world, ops[1..]);
      }
    }
  }

  /** Replaying one more call is applying it to the outcome of the others. */
  lemma {:induction false} ReplaySnoc(info: Info, w: World, ops: seq<Op>, op: Op)
    requires Sound(info, w)
    ensures var r := Replay(info, w, ops);
            Replay(info, w, ops + [op]) == if r.Reopened? then Reopened else Apply(r.info, r.world, op)
    decreases |ops|
  {
    if ops == [] {
      assert ops + [op] == [op];
      assert [op][1..] == [];
    } else {
      assert (ops + [op])[0] == ops[0];
      assert (ops + [op])[1..] == ops[1..] + [op];
      var first := Apply(info, w, ops[0]);
      if first.Ran? {
        ReplaySnoc(first.info, first.world, ops[1..], op);
      }
    }
  }

  /**
   * A session history that ends with proc_close leaves the system holding
   * what it held at the start minus what the record owned then: starting
   * from a record that owns nothing, every handle and buffer acquired along
   * the way has been given back.
   */
  lemma {:induction false} ReplayThenClose(info: Info, w: World, ops: seq<Op>)
    requires Sound(info, w)
    ensures var r := Replay(info, w, ops + [CloseOp]);
            r.Ran? ==> Idle(r.info) && r.world.live == w.live - Owned(info)
  {
    ReplaySnoc(info, w, ops, CloseOp);
  }

  datatype Queried = Queried(info: Info, world: World, copies: seq<Option<Sid>>)

  /**
   * Repeated proc_get_user_sid calls with a destination, one per answer. Every
   * call that succeeds copies the same SID, the one finally cached; once the
   * cache is filled no further call queries the system.
   */
  function Queries(info: Info, w: World, answers: seq<SidAnswers>): (r: Queried)
    requires Sound(info, w)
    ensures Sound(r.info, r.world) && |r.copies| == |answers|
    ensures forall i | 0 <= i < |r.copies| && r.copies[i].Some? ::
              r.info.user.Some? && r.copies[i].value == r.info.user.value.sid
    ensures info.user.Some? ==> r.info == info && r.world == w
    decreases |answers|
  {
    if answers == [] then Queried(info, w, [])
    else
      var s := GetUserSid(info, w, true, answers[0]);
      var rest := Queries(s.info, s.world, answers[1..]);
      Queried(rest.info, rest.world, [s.copied] + rest.copies)
  }

  /** In a run of proc_get_user_sid calls with a destination, any two that succeed give identical bytes. */
  lemma {:induction false} CopiesAgree(info: Info, w: World, answers: seq<SidAnswers>, i: nat, j: nat)
    requires Sound(info, w)
    requires i < j < |answers|
    ensures var r := Queries(info, w, answers);
            r.copies[i].Some? && r.copies[j].Some? ==> r.copies[i] == r.copies[j]
  {
  }
}

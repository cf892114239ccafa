/** ydn.db.tr.Storage: the transaction-thread factory and the `run` entry
    point. Each thread draws its number from the storage's `ptx_no`
    counter. */
module Transactions {
  import opened Outcomes

  /** ydn.db.tr.IThread.Policy; any other value is kept by name, so the
      `name` of `Unrecognised` is none of the five policy values (a known
      value is always its own constructor). */
  datatype Policy = Single | Multi | Repeat | All | Atomic | Unrecognised(name: string)

  /** ydn.db.base.TransactionMode. */
  datatype TransactionMode = ReadOnly | ReadWrite

  /** A mode argument: falsy (absent), one of the two
      ydn.db.base.StandardTransactionMode values, or any other truthy value. */
  datatype ModeArg = Unspecified | StandardReadOnly | StandardReadWrite | OtherMode(name: string)

  /** The four thread kinds. Serial and parallel threads keep their policy
      and scope; the atomic ones only their number. */
  datatype Thread =
    | Serial(txNo: nat, policy: Policy, scope: Option<seq<string>>, mode: Option<TransactionMode>, maxTx: Option<int>)
    | Parallel(txNo: nat, policy: Policy, scope: Option<seq<string>>, mode: Option<TransactionMode>, maxTx: Option<int>)
    | AtomicSerial(txNo: nat)
    | AtomicParallel(txNo: nat)

  /** ydn.db.tr.DbOperator: the thread it sends requests to and the sync
      thread. */
  datatype Operator = Operator(thread: Thread, syncThread: Option<Thread>)

  predicate IsQueuedPolicy(p: Policy) { p == Multi || p == Repeat || p == All || p == Single }

  /** The thread `newTxQueue` creates with number `txNo`: MULTI, REPEAT, ALL
      and SINGLE give a serial or parallel thread, ATOMIC an atomic one, as
      the serial flag says; any other policy is an ArgumentException. */
  function NewThread(policy: Policy, isSerial: bool, txNo: nat, scope: Option<seq<string>>,
                     mode: Option<TransactionMode>, maxTx: Option<int>): (r: Result<Thread>)
    ensures r.Err? <==> policy.Unrecognised?
    ensures r.Err? ==> r.error == ArgumentError
    ensures r.Ok? ==> r.value.txNo == txNo
    ensures r.Ok? ==> (r.value.AtomicSerial? || r.value.AtomicParallel? <==> policy == Atomic)
    ensures r.Ok? ==> (r.value.Serial? || r.value.AtomicSerial? <==> isSerial)
    ensures r.Ok? && (r.value.Serial? || r.value.Parallel?) ==>
      r.value.policy == policy && r.value.scope == scope && r.value.mode == mode && r.value.maxTx == maxTx
  {
    if isSerial then
      if IsQueuedPolicy(policy) then Ok(Serial(txNo, policy, scope, mode, maxTx))
      else if policy == Atomic then Ok(AtomicSerial(txNo))
      else Err(ArgumentError)
    else
      if IsQueuedPolicy(policy) then Ok(Parallel(txNo, policy, scope, mode, maxTx))
      else if policy == Atomic then Ok(AtomicParallel(txNo))
      else Err(ArgumentError)
  }

  /** `branch`'s mode: the two standard modes map to the internal ones and
      anything else is passed on as undefined. */
  function BranchMode(m: ModeArg): (r: Option<TransactionMode>)
    ensures r == Some(ReadOnly) <==> m == StandardReadOnly
    ensures r == Some(ReadWrite) <==> m == StandardReadWrite
  {
    if m == StandardReadOnly then Some(ReadOnly)
    else if m == StandardReadWrite then Some(ReadWrite)
    else None
  }

  /** `run`'s mode: absent means READ_ONLY, the two standard modes map to
      the internal ones, anything else is an ArgumentException. */
  function RunMode(m: ModeArg): (r: Result<TransactionMode>)
    ensures r.Err? <==> m.OtherMode?
    ensures r.Err? ==> r.error == ArgumentError
    ensures r == Ok(ReadWrite) <==> m == StandardReadWrite
  {
    match m
    case Unspecified => Ok(ReadOnly)
    case StandardReadOnly => Ok(ReadOnly)
    case StandardReadWrite => Ok(ReadWrite)
    case OtherMode(_) => Err(ArgumentError)
  }

  /** `run` and `branch` read a given mode alike: where `run` accepts a
      given mode, `branch` yields the same one, and `run` rejects exactly the
      modes `branch` drops. */
  lemma ModesAgree(m: ModeArg)
    requires !m.Unspecified?
    ensures RunMode(m).Ok? ==> BranchMode(m) == Some(RunMode(m).value)
    ensures RunMode(m).Err? <==> BranchMode(m).None?
  {
  }

  /** The completion event kinds, ydn.db.base.TxEventTypes. */
  datatype TxEventType = Complete | TxError | Abort

  /** The value the request receives: the value of the thread's
      `getTxNo()`, or the event. */
  datatype Settled<E> = TxNumber(txNo: nat) | Event(event: E)

  /** What `onComplete` passes to `setDbValue`: the value and the error flag. */
  datatype Completion<E> = Completion(value: Settled<E>, isError: bool)

  /** `onComplete(type, e)`: success exactly when the event is COMPLETE;
      success reports `txNo`, the value of the thread's `getTxNo()`, and
      failure the event, flagged as an error. */
  function OnComplete<E>(kind: TxEventType, e: E, txNo: nat): (r: Completion<E>)
    ensures r.isError <==> kind != Complete
    ensures !r.isError ==> r.value == TxNumber(txNo)
    ensures r.isError ==> r.value == Event(e)
  {
    var success := kind == Complete;
    Completion(if success then TxNumber(txNo) else Event(e), !success)
  }

  /** The constructor's options: `isSerial` and `policy` as given (a falsy
      policy is None). */
  datatype Options = Options(isSerial: Option<bool>, policy: Option<Policy>)

  /** The serial flag and policy the constructor uses: serial SINGLE unless
      the options say otherwise. */
  function MainPolicy(options: Option<Options>): (r: (bool, Policy))
    ensures options.None? ==> r == (true, Single)
    ensures options.Some? ==>
      r.0 == (if options.value.isSerial.Some? then options.value.isSerial.value else true) &&
      r.1 == (if options.value.policy.Some? then options.value.policy.value else Single)
  {
    match options
    case None => (true, Single)
    case Some(Options(isSerial, policy)) =>
      (if isSerial.Some? then isSerial.value else true, if policy.Some? then policy.value else Single)
  }

  /** What `run` scheduled: its thread, the store names and mode of the
      transaction, and the operator handed to the transaction function. */
  datatype RunPlan = RunPlan(thread: Thread, storeNames: seq<string>, mode: TransactionMode, operator: Operator)

  class Storage {
    /** The schema's store names, `schema.getStoreNames()`. */
    const storeNames: seq<string>
    /** `ptx_no`: the number the next thread gets. */
    var ptxNo: nat
    /** The numbers given to threads so far. */
    ghost var issued: set<nat>
    var syncThread: Option<Thread>
    var dbOperator: Option<Operator>

    /** Every number given out is below the counter, so the next one is
        fresh. */
    ghost predicate Valid()
      reads this
    {
      forall n :: n in issued ==> n < ptxNo
    }

    /** The storage before its threads exist. */
    constructor Empty(names: seq<string>)
      ensures Valid()
      ensures storeNames == names && ptxNo == 0 && issued == {}
      ensures syncThread == None && dbOperator == None
    {
      storeNames := names;
      ptxNo := 0;
      issued := {};
      syncThread := None;
      dbOperator := None;
    }

    /** `newTxQueue`: the thread gets the current counter value, which is
        then incremented; a rejected policy changes nothing. */
    method NewTxQueue(policy: Policy, isSerial: bool, scope: Option<seq<string>>,
                      mode: Option<TransactionMode>, maxTx: Option<int>) returns (r: Result<Thread>)
      requires Valid()
      modifies this`ptxNo, this`issued
      ensures Valid()
      ensures r == NewThread(policy, isSerial, old(ptxNo), scope, mode, maxTx)
      ensures r.Ok? ==> r.value.txNo !in old(issued)
      ensures r.Ok? ==> ptxNo == old(ptxNo) + 1 && issued == old(issued) + {r.value.txNo}
      ensures r.Err? ==> ptxNo == old(ptxNo) && issued == old(issued)
    {
      r := NewThread(policy, isSerial, ptxNo, scope, mode, maxTx);
      if r.Ok? {
        issued := issued + {ptxNo};
        ptxNo := ptxNo + 1;
      }
    }

    /** `new ydn.db.tr.Storage(name, schema, options)`: the counter starts at
        0; the main thread is created first, then, when hooks are on, the
        non-serial ATOMIC sync thread. An unknown policy makes construction
        throw. */
    static method Open(names: seq<string>, options: Option<Options>, useHook: bool) returns (r: Result<Storage>)
      ensures r.Err? <==> MainPolicy(options).1.Unrecognised?
      ensures r.Err? ==> r.error == ArgumentError
      ensures r.Ok? ==> fresh(r.value) && r.value.Valid() && r.value.storeNames == names
      ensures r.Ok? ==>
        var main := NewThread(MainPolicy(options).1, MainPolicy(options).0, 0, None, None, None).value;
        var sync := if useHook then Some(AtomicParallel(1)) else None;
        r.value.syncThread == sync &&
        r.value.dbOperator == Some(Operator(main, sync)) &&
        r.value.ptxNo == (if useHook then 2 else 1)
    {
      var s := new Storage.Empty(names);
      var (isSerial, policy) := MainPolicy(options);
      var main := s.NewTxQueue(policy, isSerial, None, None, None);
      if main.Err? {
        return Err(main.error);
      }
      var sync: Option<Thread> := None;
      if useHook {
        var t := s.NewTxQueue(Atomic, false, None, None, None);
        sync := Some(t.value);
      }
      s.syncThread := sync;
      s.dbOperator := Some(Operator(main.value, sync));
      r := Ok(s);
    }

    /** `branch(policy, isSerial, storeNames, mode, maxTx)`: a new operator
        over a new thread and the sync thread. */
    method Branch(policy: Policy, isSerial: bool, scope: Option<seq<string>>, mode: ModeArg, maxTx: Option<int>)
      returns (r: Result<Operator>)
      requires Valid()
      modifies this`ptxNo, this`issued
      ensures Valid()
      ensures r.Err? <==> policy.Unrecognised?
      ensures r.Ok? ==>
        r.value == Operator(NewThread(policy, isSerial, old(ptxNo), scope, BranchMode(mode), maxTx).value, syncThread)
      ensures r.Ok? ==> r.value.thread.txNo !in old(issued) && ptxNo == old(ptxNo) + 1
      ensures r.Err? ==> ptxNo == old(ptxNo) && issued == old(issued)
    {
      var thread := NewTxQueue(policy, isSerial, scope, BranchMode(mode), maxTx);
      if thread.Err? {
        return Err(thread.error);
      }
      r := Ok(Operator(thread.value, syncThread));
    }

    /** `run(trFn, storeNames, mode)` called with `argCount` arguments: more
        than three is an ArgumentException before anything changes. The
        counter is then bumped once, a bad mode throws, and otherwise a
        parallel ALL thread with at most one transaction is made over the
        given store names, or all of them when none are given. */
    method Run(argCount: nat, scope: Option<seq<string>>, mode: ModeArg) returns (r: Result<RunPlan>)
      requires Valid()
      modifies this`ptxNo, this`issued
      ensures Valid()
      ensures argCount > 3 ==> r == Err(ArgumentError) && ptxNo == old(ptxNo) && issued == old(issued)
      ensures argCount <= 3 && RunMode(mode).Err? ==> r == Err(ArgumentError) && ptxNo == old(ptxNo) + 1
      ensures argCount <= 3 && RunMode(mode).Ok? ==> r.Ok? && ptxNo == old(ptxNo) + 2
      ensures r.Ok? ==>
        var names := if scope.Some? then scope.value else storeNames;
        var thread := Parallel(old(ptxNo) + 1, All, Some(names), Some(RunMode(mode).value), Some(1));
        r.value == RunPlan(thread, names, RunMode(mode).value, Operator(thread, syncThread))
      ensures r.Ok? ==> r.value.thread.txNo !in old(issued)
    {
      if argCount > 3 {
        return Err(ArgumentError);
      }
      ptxNo := ptxNo + 1;
      var names := if scope.Some? then scope.value else storeNames;
      var resolved := RunMode(mode);
      if resolved.Err? {
        return Err(resolved.error);
      }
      var thread := NewTxQueue(All, false, Some(names), Some(resolved.value), Some(1));
      r := Ok(RunPlan(thread.value, names, resolved.value, Operator(thread.value, syncThread)));
    }
  }
}

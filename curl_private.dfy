/** The state written out inline in the private curl wrapper types: the
    timeout administration's stall test, the easy handle's multi-handle and
    removal flags, the result-code checkers and their call statistics, the
    easy request's result, timeout object and completion order, and the
    option discipline of the multi handle. libcurl itself is not modelled:
    what a libcurl call returns is an input. */
module CurlPrivate {
  import opened Wrappers

  const U64Max: int := 0xFFFF_FFFF_FFFF_FFFF

  newtype u64 = x: int | 0 <= x <= U64Max

  /** libcurl result codes. */
  type CurlCode = int
  type CurlMultiCode = int

  const CurleOk: CurlCode := 0
  const CurleFailedInit: CurlCode := 2
  const CurlmOk: CurlMultiCode := 0

  /** A timeout policy, known by its name. */
  datatype TimeoutPolicy = TimeoutPolicy(name: string)

  /** Whether a transfer whose stall time is `stalled` counts as stalled at
      clock count `clockCount`. */
  predicate Stalled(stalled: u64, clockCount: u64)
  {
    stalled < clockCount
  }

  /** Once stalled, a transfer stays stalled as the clock advances. */
  lemma StalledStaysStalled(stalled: u64, earlier: u64, later: u64)
    requires earlier <= later && Stalled(stalled, earlier)
    ensures Stalled(stalled, later)
  {
  }

  /** The largest 64-bit value never lies before any clock count. */
  lemma NeverStalledAtMax(clockCount: u64)
    ensures !Stalled(U64Max as u64, clockCount)
  {
  }

  /** The timeout administration of one transfer. Only its initial state and
      its stall test are modelled; the transfer-rate buckets are not. */
  class HttpTimeout {
    const policy: Option<TimeoutPolicy>
    var nothingReceivedYet: bool
    var lowSpeedOn: bool
    var uploadFinished: bool
    /** The clock count from which the transfer counts as stalled. */
    var stalled: u64

    constructor (policy: Option<TimeoutPolicy>)
      ensures this.policy == policy
      ensures nothingReceivedYet && !lowSpeedOn && !uploadFinished && stalled == U64Max as u64
      ensures forall clockCount: u64 :: !HasStalled(clockCount)
    {
      this.policy := policy;
      nothingReceivedYet, lowSpeedOn, uploadFinished := true, false, false;
      stalled := U64Max as u64;
    }

    /** `clockCount` is the clock count taken as "now" in the current loop of
        the main loop. */
    function HasStalled(clockCount: u64): (r: bool)
      reads this
      ensures r <==> Stalled(stalled, clockCount)
      ensures stalled == U64Max as u64 ==> !r
    {
      stalled < clockCount
    }
  }

  /** Process-wide call statistics and the codes passed to the error
      handlers, in order. */
  class Stats {
    var easyCalls: nat
    var multiCalls: nat
    var easyErrors: seq<CurlCode>
    var multiErrors: seq<CurlMultiCode>

    constructor ()
      ensures easyCalls == 0 && multiCalls == 0 && easyErrors == [] && multiErrors == []
    {
      easyCalls, multiCalls, easyErrors, multiErrors := 0, 0, [], [];
    }
  }

  /** Counts one easy call and reports a code other than OK to the error
      handler; the code is passed on unchanged. */
  method CheckEasyCode(stats: Stats, code: CurlCode) returns (r: CurlCode)
    modifies stats
    ensures r == code
    ensures stats.easyCalls == old(stats.easyCalls) + 1
    ensures stats.easyErrors == old(stats.easyErrors) + (if code != CurleOk then [code] else [])
    ensures stats.multiCalls == old(stats.multiCalls) && stats.multiErrors == old(stats.multiErrors)
  {
    stats.easyCalls := stats.easyCalls + 1;
    if code != CurleOk {
      stats.easyErrors := stats.easyErrors + [code];
    }
    r := code;
  }

  /** The same for multi calls. */
  method CheckMultiCode(stats: Stats, code: CurlMultiCode) returns (r: CurlMultiCode)
    modifies stats
    ensures r == code
    ensures stats.multiCalls == old(stats.multiCalls) + 1
    ensures stats.multiErrors == old(stats.multiErrors) + (if code != CurlmOk then [code] else [])
    ensures stats.easyCalls == old(stats.easyCalls) && stats.easyErrors == old(stats.easyErrors)
  {
    stats.multiCalls := stats.multiCalls + 1;
    if code != CurlmOk {
      stats.multiErrors := stats.multiErrors + [code];
    }
    r := code;
  }

  /** A libcurl easy handle; multi handles are known by a number. */
  class CurlEasyHandle {
    var activeMultiHandle: Option<nat>
    var queuedForRemoval: bool
    /** How often the handle's options have been reset. */
    var resets: nat

    constructor ()
      ensures activeMultiHandle == None && !queuedForRemoval && resets == 0
    {
      activeMultiHandle, queuedForRemoval, resets := None, false, 0;
    }

    /** Whether the handle has been added to a multi handle. */
    function Active(): (r: bool)
      reads this
      ensures r <==> activeMultiHandle.Some?
    {
      activeMultiHandle.Some?
    }

    /** Resetting the options is only allowed while not added to a multi handle. */
    method Reset()
      requires !Active()
      modifies this
      ensures resets == old(resets) + 1
      ensures activeMultiHandle == old(activeMultiHandle) && queuedForRemoval == old(queuedForRemoval)
    {
      resets := resets + 1;
    }

    /** The multi-handle driver's record of adding (Some) the handle to a
        multi handle or removing it (None). */
    method SetActiveMultiHandle(multi: Option<nat>)
      modifies this
      ensures activeMultiHandle == multi
      ensures queuedForRemoval == old(queuedForRemoval) && resets == old(resets)
    {
      activeMultiHandle := multi;
    }

    /** The request has been queued for removal from its multi handle. */
    method RemoveQueued()
      modifies this
      ensures queuedForRemoval
      ensures forall isExiting :: NoWarning(isExiting)
      ensures activeMultiHandle == old(activeMultiHandle) && resets == old(resets)
    {
      queuedForRemoval := true;
    }

    /** The request is added again after having been queued for removal. */
    method AddQueued()
      modifies this
      ensures !queuedForRemoval
      ensures forall isExiting :: NoWarning(isExiting) == isExiting
      ensures activeMultiHandle == old(activeMultiHandle) && resets == old(resets)
    {
      queuedForRemoval := false;
    }

    /** Whether callbacks are expected to be revoked before removal, so no
        warning is due: the handle is queued for removal or the application
        (`isExiting`) is shutting down. */
    function NoWarning(isExiting: bool): (r: bool)
      reads this
      ensures r <==> queuedForRemoval || isExiting
      ensures !isExiting ==> (r <==> queuedForRemoval)
    {
      queuedForRemoval || isExiting
    }
  }

  /** What has happened to the request, in order: its default options were
      applied, its timeout object was told the result, and its parent was
      told the request finished. */
  datatype Event = DefaultOptionsApplied | TimeoutDone(result: CurlCode) | Finished

  /** The buffered easy request (the only kind ever created) over its easy
      handle. `responder` is set when the request is prepared and cleared
      when it times out. */
  class CurlEasyRequest {
    const handle: CurlEasyHandle
    var headers: seq<string>
    var result: CurlCode
    var timeoutPolicy: Option<TimeoutPolicy>
    var timeout: HttpTimeout?
    var timeoutIsOrphan: bool
    var responder: Option<string>
    var events: seq<Event>

    constructor ()
      ensures fresh(handle) && !handle.Active()
      ensures headers == [] && result == CurleFailedInit && timeoutPolicy == None
      ensures timeout == null && !timeoutIsOrphan && responder == None
      ensures events == [DefaultOptionsApplied]
      ensures !IsFinalized() && !IsValid()
      ensures forall clockCount: u64 :: !HasStalled(clockCount)
    {
      handle := new CurlEasyHandle();
      headers, result, timeoutPolicy := [], CurleFailedInit, None;
      timeout, timeoutIsOrphan, responder := null, false, None;
      events := [DefaultOptionsApplied];
    }

    /** Keeps the code the transfer finished with. */
    method StoreResult(code: CurlCode)
      modifies this
      ensures result == code
      ensures headers == old(headers) && timeoutPolicy == old(timeoutPolicy) && timeout == old(timeout)
      ensures timeoutIsOrphan == old(timeoutIsOrphan) && responder == old(responder) && events == old(events)
    {
      result := code;
    }

    /** The transfer is done: the timeout administration, if any, hears of
        it first, then the parent is told the request finished. */
    method Done(code: CurlCode)
      modifies this
      ensures events == old(events) + (if timeout != null then [TimeoutDone(code)] else []) + [Finished]
      ensures result == old(result) && timeout == old(timeout) && timeoutIsOrphan == old(timeoutIsOrphan)
      ensures headers == old(headers) && timeoutPolicy == old(timeoutPolicy) && responder == old(responder)
    {
      if timeout != null {
        events := events + [TimeoutDone(code)];
      }
      events := events + [Finished];
    }

    /** The timeout object, created (as an orphan, for the request's policy)
        only when there is none yet. */
    method HttpTimeoutObject() returns (t: HttpTimeout)
      modifies this
      ensures timeout == t
      ensures old(timeout) != null ==> t == old(timeout) && timeoutIsOrphan == old(timeoutIsOrphan)
      ensures old(timeout) == null ==> fresh(t) && timeoutIsOrphan && t.policy == timeoutPolicy
      ensures old(timeout) == null ==> forall clockCount: u64 :: !t.HasStalled(clockCount)
      ensures result == old(result) && headers == old(headers) && timeoutPolicy == old(timeoutPolicy)
      ensures responder == old(responder) && events == old(events)
    {
      if timeout == null {
        timeout := new HttpTimeout(timeoutPolicy);
        timeoutIsOrphan := true;
      }
      t := timeout;
    }

    /** No data for too long on the latest connection, if there is one. */
    function HasStalled(clockCount: u64): (r: bool)
      reads this, timeout
      ensures timeout == null ==> !r
      ensures timeout != null ==> (r <==> timeout.HasStalled(clockCount))
    {
      timeout != null && timeout.HasStalled(clockCount)
    }

    /** A request is finalized once it has a timeout policy. */
    function IsFinalized(): (r: bool)
      reads this
      ensures r <==> timeoutPolicy.Some?
    {
      timeoutPolicy.Some?
    }

    /** A request is valid while it has a responder. */
    function IsValid(): (r: bool)
      reads this
      ensures r <==> responder.Some?
    {
      responder.Some?
    }
  }

  /** Multi-handle options the viewer sets. */
  datatype MultiOption = MaxConnects | Pipelining | SocketFunction | TimerFunction | SocketData | TimerData

  /** The argument of a multi-handle option; callbacks and objects are known
      by a number. */
  datatype MultiParam = Long(v: int) | SocketCallback(id: nat) | TimerCallback(id: nat) | ObjectPointer(id: nat)

  datatype ParamKind = LongKind | SocketCallbackKind | TimerCallbackKind | PointerKind

  function KindOf(p: MultiParam): ParamKind
  {
    match p
    case Long(_) => LongKind
    case SocketCallback(_) => SocketCallbackKind
    case TimerCallback(_) => TimerCallbackKind
    case ObjectPointer(_) => PointerKind
  }

  /** The kind of argument libcurl documents for each option. */
  function ExpectedKind(option: MultiOption): ParamKind
  {
    match option
    case MaxConnects => LongKind
    case Pipelining => LongKind
    case SocketFunction => SocketCallbackKind
    case TimerFunction => TimerCallbackKind
    case SocketData => PointerKind
    case TimerData => PointerKind
  }

  /** The options each typed overload of the multi handle's `setopt` admits. */
  predicate Accepts(option: MultiOption, p: MultiParam)
  {
    match p
    case Long(_) => option == MaxConnects || option == Pipelining
    case SocketCallback(_) => option == SocketFunction
    case TimerCallback(_) => option == TimerFunction
    case ObjectPointer(_) => option == SocketData || option == TimerData
  }

  /** The overloads admit exactly the argument kind libcurl expects, so every
      option is set through one overload only. */
  lemma AcceptsExpectedKind(option: MultiOption, p: MultiParam)
    ensures Accepts(option, p) <==> KindOf(p) == ExpectedKind(option)
  {
  }

  /** A libcurl multi handle; `options` records the options handed to libcurl. */
  class CurlMultiHandle {
    var options: seq<(MultiOption, MultiParam)>

    constructor ()
      ensures options == []
    {
      options := [];
    }

    /** Sets an option through the overload matching its argument; the code
        libcurl returns (`libcurlCode`) is checked and passed on. */
    method Setopt(stats: Stats, option: MultiOption, p: MultiParam, libcurlCode: CurlMultiCode)
      returns (r: CurlMultiCode)
      requires Accepts(option, p)
      modifies this, stats
      ensures r == libcurlCode
      ensures options == old(options) + [(option, p)]
      ensures stats.multiCalls == old(stats.multiCalls) + 1
      ensures stats.multiErrors == old(stats.multiErrors) + (if libcurlCode != CurlmOk then [libcurlCode] else [])
      ensures stats.easyCalls == old(stats.easyCalls) && stats.easyErrors == old(stats.easyErrors)
    {
      options := options + [(option, p)];
      r := CheckMultiCode(stats, libcurlCode);
    }
  }
}

/** The inventory importer object that drives the marketplace import API:
    it establishes the session, triggers imports, polls their status on a
    timer and reports changes through optional signals. As for the API, each
    operation is defined on values first (`InitializeStep`, `UpdateStep`, ...)
    and the class `InventoryImporter` is proved to follow those definitions.
    Signal emissions are recorded in order. */
module MarketplaceImporter {
  import opened MarketplaceImport

  datatype Signal =
    | StatusChanged(inProgress: bool)
    | StatusReport(status: Status, results: Content)
    | InitializationError(status: Status, results: Content)

  /** The importer's fields. A signal exists only once a callback has been
      registered for it; until then emitting it does nothing. */
  datatype ImporterState = ImporterState(
    autoTriggerImport: bool,
    importInProgress: bool,
    initialized: bool,
    hasErrorInitSignal: bool,
    hasStatusChangedSignal: bool,
    hasStatusReportSignal: bool)

  const InitialImporter: ImporterState := ImporterState(false, false, false, false, false, false)

  /** Importer fields and API state after a call, the requests issued, the
      signals emitted, and the call's return value (true for calls that
      return nothing). */
  datatype Step = Step(importer: ImporterState, session: ImportState, sent: seq<Request>,
                       signals: seq<Signal>, ok: bool)

  predicate SameSignals(a: ImporterState, b: ImporterState)
  {
    a.hasErrorInitSignal == b.hasErrorInitSignal &&
    a.hasStatusChangedSignal == b.hasStatusChangedSignal &&
    a.hasStatusReportSignal == b.hasStatusReportSignal
  }

  /** Without a session cookie, starts establishing one. */
  function InitializeStep(i: ImporterState, s: ImportState, env: Env): (r: Step)
    requires !i.initialized
    ensures r.importer == i && r.signals == []
    ensures HasCookie(s) ==> r.session == s && r.sent == []
    ensures !HasCookie(s) ==> r.session == Establish(s, env).state && r.sent == [Get(ImportUrl(env), env.mediaHeaders)]
  {
    if !HasCookie(s) then
      var o := Establish(s, env);
      Step(i, o.state, o.sent, [], true)
    else
      Step(i, s, [], [], true)
  }

  /** Forgets the initialization, initializes again and arms the automatic
      import that follows a successful initialization. */
  function ReinitializeStep(i: ImporterState, s: ImportState, env: Env): (r: Step)
    ensures r.importer == i.(initialized := false, autoTriggerImport := true)
    ensures r.session == InitializeStep(i.(initialized := false), s, env).session
    ensures r.sent == (if HasCookie(s) then [] else [Get(ImportUrl(env), env.mediaHeaders)])
    ensures r.signals == []
  {
    var init := InitializeStep(i.(initialized := false), s, env);
    Step(init.importer.(autoTriggerImport := true), init.session, init.sent, [], true)
  }

  /** Triggers an import, or re-initializes (which will trigger it later)
      when there is no session. Either way exactly one request is issued. */
  function ImportTriggerStep(i: ImporterState, s: ImportState, env: Env): (r: Step)
    ensures r.ok <==> HasCookie(s)
    ensures r.ok ==> r.importer == i && r.session == Trigger(s, env).state && r.sent == Trigger(s, env).sent
    ensures !r.ok ==> r.importer == i.(initialized := false, autoTriggerImport := true)
    ensures !r.ok ==> r.session.inProgress && r.session.getPending && r.session.cookie == s.cookie
    ensures !r.ok ==> r.session == Establish(s, env).state && r.sent == [Get(ImportUrl(env), env.mediaHeaders)]
    ensures |r.sent| == 1 && (r.sent[0].Post? <==> r.ok)
    ensures r.signals == []
  {
    var t := Trigger(s, env);
    if t.ok then
      Step(i, t.state, t.sent, [], true)
    else
      var re := ReinitializeStep(i, t.state, env);
      Step(re.importer, re.session, re.sent, [], false)
  }

  /** A poll is due when an import is in progress and no reply is awaited. */
  predicate PollDue(s: ImportState)
  {
    s.inProgress && !ResultPending(s)
  }

  /** A poll that finds no session cookie makes the importer re-initialize. */
  predicate PollFails(s: ImportState)
  {
    PollDue(s) && !HasCookie(s)
  }

  /** The importer sees its import finish before it was initialized, the
      finished request left a cookie, and an import is waiting to be triggered. */
  predicate ConsumesAutoTrigger(i: ImporterState, s: ImportState)
  {
    i.importInProgress && !s.inProgress && !i.initialized && HasCookie(s) && i.autoTriggerImport
  }

  /** The first half of an update: poll if one is due. */
  function PollPhase(i: ImporterState, s: ImportState, env: Env): (r: Step)
    ensures !PollDue(s) ==> r.importer == i && r.session == s && r.sent == []
    ensures PollDue(s) && HasCookie(s) ==> r.importer == i && r.sent == Poll(s, env).sent
    ensures PollFails(s) ==> r.importer == i.(initialized := false, autoTriggerImport := true)
    ensures PollFails(s) ==> r.sent == [Get(ImportUrl(env), env.mediaHeaders)]
    ensures r.session.inProgress == s.inProgress && r.session.cookie == s.cookie
    ensures r.session.resultStatus == s.resultStatus && r.session.results == s.results
    ensures r.importer.importInProgress == i.importInProgress && SameSignals(r.importer, i)
    ensures r.signals == []
  {
    if PollDue(s) then
      var p := Poll(s, env);
      if p.ok then Step(i, p.state, p.sent, [], true)
      else
        var re := ReinitializeStep(i, p.state, env);
        Step(re.importer, re.session, p.sent + re.sent, [], true)
    else
      Step(i, s, [], [], true)
  }

  /** The part of an update that runs when the importer sees its import
      end: report the result, or complete the initialization (triggering an
      armed import), or report an initialization error. */
  function FinishPhase(i: ImporterState, s: ImportState, env: Env): (r: Step)
    ensures i.initialized ==> r.importer == i && r.session == s && r.sent == []
    ensures i.initialized ==> r.signals == if i.hasStatusReportSignal then [StatusReport(s.resultStatus, s.results)] else []
    ensures !i.initialized ==> r.importer.initialized == HasCookie(s)
    ensures !i.initialized && HasCookie(s) ==> r.signals == []
    ensures !i.initialized && !HasCookie(s) ==>
      r.importer == i && r.session == s && r.sent == [] &&
      r.signals == if i.hasErrorInitSignal then [InitializationError(s.resultStatus, s.results)] else []
    ensures r.importer.importInProgress ==
            (if !i.initialized && HasCookie(s) && i.autoTriggerImport then true else i.importInProgress)
    ensures r.importer.autoTriggerImport == (i.autoTriggerImport && !(!i.initialized && HasCookie(s)))
    ensures !i.initialized && HasCookie(s) && i.autoTriggerImport ==>
      r.importer.importInProgress && r.sent == Trigger(s, env).sent && r.session == Trigger(s, env).state
    ensures !i.initialized && HasCookie(s) && !i.autoTriggerImport ==> r.sent == [] && r.importer == i.(initialized := true)
    ensures |r.sent| <= 1 && |r.signals| <= 1 && SameSignals(r.importer, i)
    ensures forall k :: 0 <= k < |r.signals| ==> !r.signals[k].StatusChanged?
  {
    if i.initialized then
      Step(i, s, [], if i.hasStatusReportSignal then [StatusReport(s.resultStatus, s.results)] else [], true)
    else
      var i2 := i.(initialized := HasCookie(s));
      if i2.initialized then
        if i2.autoTriggerImport then
          var t := ImportTriggerStep(i2.(autoTriggerImport := false), s, env);
          Step(t.importer.(importInProgress := t.ok), t.session, t.sent, [], true)
        else
          Step(i2, s, [], [], true)
      else
        Step(i2, s, [], if i2.hasErrorInitSignal then [InitializationError(s.resultStatus, s.results)] else [], true)
  }

  /** The second half of an update, entered when the importer's view of the
      import differs from the API's `inProgress`. */
  function ChangePhase(i: ImporterState, s: ImportState, inProgress: bool, env: Env): (r: Step)
  {
    var i1 := i.(importInProgress := inProgress);
    var r1 := if inProgress then Step(i1, s, [], [], true) else FinishPhase(i1, s, env);
    var changed := if r1.importer.hasStatusChangedSignal then [StatusChanged(r1.importer.importInProgress)] else [];
    Step(r1.importer, r1.session, r1.sent, r1.signals + changed, true)
  }

  /** The change phase: an import seen to start changes nothing but the
      importer's flag; one seen to end completes as `FinishPhase` says; and
      the status-changed signal, if connected, comes last with the final flag. */
  lemma ChangePhaseOutcome(i: ImporterState, s: ImportState, inProgress: bool, env: Env)
    ensures var r := ChangePhase(i, s, inProgress, env);
      && (inProgress ==> r.importer == i.(importInProgress := true) && r.session == s && r.sent == [])
      && (!inProgress ==> r.importer.importInProgress == (!i.initialized && HasCookie(s) && i.autoTriggerImport))
      && (!inProgress ==> r.importer.initialized == (i.initialized || HasCookie(s)))
      && (i.hasStatusChangedSignal <==> |r.signals| > 0 && r.signals[|r.signals| - 1].StatusChanged?)
      && (i.hasStatusChangedSignal ==> r.signals[|r.signals| - 1] == StatusChanged(r.importer.importInProgress))
      && |r.sent| <= 1 && |r.signals| <= 2 && SameSignals(r.importer, i)
  {
  }

  /** One timer tick of the importer. */
  function UpdateStep(i: ImporterState, s: ImportState, env: Env): (r: Step)
    ensures i.importInProgress == s.inProgress ==> r.signals == []
    ensures (i.importInProgress != s.inProgress && i.hasStatusChangedSignal) <==>
            (|r.signals| > 0 && r.signals[|r.signals| - 1].StatusChanged?)
    ensures forall k :: 0 <= k < |r.signals| - 1 ==> !r.signals[k].StatusChanged?
    ensures i.importInProgress != s.inProgress && i.hasStatusChangedSignal ==>
            r.signals[|r.signals| - 1] == StatusChanged(r.importer.importInProgress)
    ensures i.importInProgress == s.inProgress ==> r.importer.importInProgress == i.importInProgress
    ensures i.importInProgress != s.inProgress ==>
            r.importer.importInProgress == (s.inProgress || ConsumesAutoTrigger(i, s))
    ensures r.importer.autoTriggerImport ==
            (if ConsumesAutoTrigger(i, s) then false else i.autoTriggerImport || PollFails(s))
    ensures |r.sent| <= 1 && |r.signals| <= 2 && SameSignals(r.importer, i)
  {
    var p := PollPhase(i, s, env);
    if p.importer.importInProgress == s.inProgress then p
    else
      var c := ChangePhase(p.importer, p.session, s.inProgress, env);
      Step(c.importer, c.session, p.sent + c.sent, c.signals, true)
  }

  /** What an update does to the initialization flag, and that a due poll
      with a session leaves its GET outstanding. */
  lemma UpdateInitialization(i: ImporterState, s: ImportState, env: Env)
    ensures var r := UpdateStep(i, s, env);
      && (PollDue(s) && HasCookie(s) ==> r.session.getPending && r.sent == Poll(s, env).sent)
      && r.importer.initialized ==
         (if PollFails(s) then false
          else if i.importInProgress && !s.inProgress then i.initialized || HasCookie(s)
          else i.initialized)
  {
  }

  /** An update that finds a due poll issues a GET first: the status poll
      when a session exists, otherwise the session GET of the re-initialization. */
  lemma UpdatePollsWhenDue(i: ImporterState, s: ImportState, env: Env)
    requires PollDue(s)
    ensures var r := UpdateStep(i, s, env);
      && |r.sent| == 1 && r.sent[0].Get?
      && (HasCookie(s) ==> r.sent[0].url == ImportUrl(env) + AsString(s.importId))
      && (!HasCookie(s) ==> r.sent[0].url == ImportUrl(env))
  {
  }

  /** The import finished before initialization with a cookie in hand and an
      import armed: the importer becomes initialized, consumes the flag,
      POSTs the import and reports that an import is in progress again. */
  lemma AutoTriggerAfterInitialization(i: ImporterState, s: ImportState, env: Env)
    requires ConsumesAutoTrigger(i, s)
    ensures var r := UpdateStep(i, s, env);
      && r.importer.initialized && !r.importer.autoTriggerImport && r.importer.importInProgress
      && r.sent == Trigger(s, env).sent && r.sent[0].Post?
      && r.session.postPending && r.session.resultStatus == ImportProcessing
      && r.signals == (if i.hasStatusChangedSignal then [StatusChanged(true)] else [])
  {
  }

  /** An initialized importer that sees its import finish reports the result
      and then the change, and issues no request. */
  lemma FinishedImportReported(i: ImporterState, s: ImportState, env: Env)
    requires i.initialized && i.importInProgress && !s.inProgress
    ensures var r := UpdateStep(i, s, env);
      && r.sent == [] && r.session == s
      && r.importer == i.(importInProgress := false)
      && r.signals == (if i.hasStatusReportSignal then [StatusReport(s.resultStatus, s.results)] else [])
                      + (if i.hasStatusChangedSignal then [StatusChanged(false)] else [])
  {
  }

  /** An uninitialized importer whose session request ended without a cookie
      stays uninitialized and reports an initialization error. */
  lemma InitializationFailureReported(i: ImporterState, s: ImportState, env: Env)
    requires !i.initialized && i.importInProgress && !s.inProgress && !HasCookie(s)
    ensures var r := UpdateStep(i, s, env);
      && r.sent == [] && !r.importer.initialized && !r.importer.importInProgress
      && r.signals == (if i.hasErrorInitSignal then [InitializationError(s.resultStatus, s.results)] else [])
                      + (if i.hasStatusChangedSignal then [StatusChanged(false)] else [])
  {
  }

  class InventoryImporter {
    const session: ImportSession
    var autoTriggerImport: bool
    var importInProgress: bool
    var initialized: bool
    var hasErrorInitSignal: bool
    var hasStatusChangedSignal: bool
    var hasStatusReportSignal: bool
    /** Every signal emitted so far, oldest first. */
    var signals: seq<Signal>

    function Fields(): ImporterState
      reads this
    {
      ImporterState(autoTriggerImport, importInProgress, initialized,
                    hasErrorInitSignal, hasStatusChangedSignal, hasStatusReportSignal)
    }

    constructor (session: ImportSession)
      ensures this.session == session && Fields() == InitialImporter && signals == []
    {
      this.session := session;
      autoTriggerImport, importInProgress, initialized := false, false, false;
      hasErrorInitSignal, hasStatusChangedSignal, hasStatusReportSignal := false, false, false;
      signals := [];
    }

    method SetInitializationErrorCallback()
      modifies this
      ensures Fields() == old(Fields()).(hasErrorInitSignal := true) && signals == old(signals)
    {
      hasErrorInitSignal := true;
    }

    method SetStatusChangedCallback()
      modifies this
      ensures Fields() == old(Fields()).(hasStatusChangedSignal := true) && signals == old(signals)
    {
      hasStatusChangedSignal := true;
    }

    method SetStatusReportCallback()
      modifies this
      ensures Fields() == old(Fields()).(hasStatusReportSignal := true) && signals == old(signals)
    {
      hasStatusReportSignal := true;
    }

    method Initialize(env: Env)
      requires !initialized
      modifies this, session
      ensures var r := InitializeStep(old(Fields()), old(session.State()), env);
        && Fields() == r.importer && session.State() == r.session
        && session.requests == old(session.requests) + r.sent && signals == old(signals) + r.signals
    {
      if !session.HasSessionCookie() {
        var _ := session.EstablishMarketplaceSessionCookie(env);
      }
    }

    method ReinitializeAndTriggerImport(env: Env)
      modifies this, session
      ensures var r := ReinitializeStep(old(Fields()), old(session.State()), env);
        && Fields() == r.importer && session.State() == r.session
        && session.requests == old(session.requests) + r.sent && signals == old(signals) + r.signals
    {
      initialized := false;
      Initialize(env);
      autoTriggerImport := true;
    }

    method TriggerImport(env: Env) returns (triggered: bool)
      modifies this, session
      ensures var r := ImportTriggerStep(old(Fields()), old(session.State()), env);
        && Fields() == r.importer && session.State() == r.session && triggered == r.ok
        && session.requests == old(session.requests) + r.sent && signals == old(signals) + r.signals
    {
      triggered := session.TriggerImport(env);
      if !triggered {
        ReinitializeAndTriggerImport(env);
      }
    }

    method UpdateImport(env: Env)
      modifies this, session
      ensures var r := UpdateStep(old(Fields()), old(session.State()), env);
        && Fields() == r.importer && session.State() == r.session
        && session.requests == old(session.requests) + r.sent && signals == old(signals) + r.signals
    {
      var inProgress := PollIfDue(env);
      if importInProgress != inProgress {
        Change(inProgress, env);
      }
    }

    /** The branch of `UpdateImport` taken when the importer's view of the
        import differs from the API's flag `inProgress`. */
    method Change(inProgress: bool, env: Env)
      modifies this, session
      ensures var r := ChangePhase(old(Fields()), old(session.State()), inProgress, env);
        && Fields() == r.importer && session.State() == r.session
        && session.requests == old(session.requests) + r.sent && signals == old(signals) + r.signals
    {
      importInProgress := inProgress;
      if !importInProgress {
        Finish(env);
      }
      if hasStatusChangedSignal {
        signals := signals + [StatusChanged(importInProgress)];
      }
    }

    /** The poll at the start of `UpdateImport`; returns the API's
        in-progress flag as read before polling. */
    method PollIfDue(env: Env) returns (inProgress: bool)
      modifies this, session
      ensures inProgress == old(session.inProgress)
      ensures var r := PollPhase(old(Fields()), old(session.State()), env);
        && Fields() == r.importer && session.State() == r.session
        && session.requests == old(session.requests) + r.sent && signals == old(signals)
    {
      inProgress := session.InProgress();
      if inProgress && !session.IsResultPending() {
        var polling := session.PollStatus(env);
        if !polling {
          ReinitializeAndTriggerImport(env);
        }
      }
    }

    /** The branch of `UpdateImport` taken when the import is seen to end. */
    method Finish(env: Env)
      modifies this, session
      ensures var r := FinishPhase(old(Fields()), old(session.State()), env);
        && Fields() == r.importer && session.State() == r.session
        && session.requests == old(session.requests) + r.sent && signals == old(signals) + r.signals
    {
      if initialized {
        if hasStatusReportSignal {
          signals := signals + [StatusReport(session.resultStatus, session.results)];
        }
      } else {
        initialized := session.HasSessionCookie();
        if initialized {
          if autoTriggerImport {
            autoTriggerImport := false;
            importInProgress := TriggerImport(env);
          }
        } else if hasErrorInitSignal {
          signals := signals + [InitializationError(session.resultStatus, session.results)];
        }
      }
    }
  }
}

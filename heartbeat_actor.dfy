/**
 * The heartbeat actor: registers the mediator with the core, then (when heartbeats are enabled)
 * sends a heartbeat every period and merges the config the core returns into the dynamic config.
 * Failures are logged once per outage: `firstFailure` re-arms the log on every success.
 */
module Heartbeat {
  import opened Wrappers
  import opened Text
  import opened Config
  import opened Messages

  const CORE_API_CONNECTOR := "core-api-connector"
  const CONNECT_FAILURE :=
    "Failed to connect to core. Check that it is running and accessible and that your config is correct."

  /** Java's `long` division, which truncates toward zero. */
  function JavaDiv(a: int, b: int): (q: int)
    requires b > 0
    ensures a >= 0 ==> 0 <= q && q * b <= a < q * b + b
    ensures a < 0 ==> q <= 0 && q * b - b < a <= q * b
  {
    if a >= 0 then a / b else -((-a) / b)
  }

  /** The flags a heartbeat answer updates. */
  datatype Flags = Flags(firstFailure: bool, heartbeatError: bool, forceConfig: bool)

  /**
   * The flags after one heartbeat answer, and whether that answer logs an error: a success
   * re-arms the log and stops forcing the config; a failure logs only while the log is armed.
   */
  function AfterHeartbeat(f: Flags, succeeded: bool): (Flags, bool) {
    if succeeded then (Flags(true, false, false), false)
    else (Flags(false, true, f.forceConfig), f.firstFailure)
  }

  /** The flags after a run of heartbeat answers (true for success). */
  function FlagsAfter(f: Flags, outcomes: seq<bool>): Flags
    decreases |outcomes|
  {
    if |outcomes| == 0 then f else FlagsAfter(AfterHeartbeat(f, outcomes[0]).0, outcomes[1..])
  }

  /** How many errors a run of heartbeat answers logs. */
  function LogsOver(f: Flags, outcomes: seq<bool>): nat
    decreases |outcomes|
  {
    if |outcomes| == 0 then 0
    else (if AfterHeartbeat(f, outcomes[0]).1 then 1 else 0) + LogsOver(AfterHeartbeat(f, outcomes[0]).0, outcomes[1..])
  }

  /**
   * After a non-empty run, the error flag says whether the last heartbeat failed, the log is
   * armed exactly when it succeeded, and the config is still forced exactly when it was forced
   * before and no heartbeat has succeeded.
   */
  lemma {:induction false} FlagsAfterRun(f: Flags, outcomes: seq<bool>)
    requires |outcomes| > 0
    decreases |outcomes|
    ensures FlagsAfter(f, outcomes).heartbeatError <==> !outcomes[|outcomes| - 1]
    ensures FlagsAfter(f, outcomes).firstFailure <==> outcomes[|outcomes| - 1]
    ensures FlagsAfter(f, outcomes).forceConfig <==> f.forceConfig && true !in outcomes
  {
    var next := AfterHeartbeat(f, outcomes[0]).0;
    if |outcomes| > 1 {
      FlagsAfterRun(next, outcomes[1..]);
      assert true in outcomes <==> outcomes[0] || true in outcomes[1..];
    }
  }

  /** A run of failures logs one error if the log was armed, and none otherwise. */
  lemma {:induction false} OneLogPerOutage(f: Flags, n: nat)
    ensures LogsOver(f, seq(n, i => false)) == if n > 0 && f.firstFailure then 1 else 0
    decreases n
  {
    if n > 0 {
      var failures := seq(n, i => false);
      assert failures[1..] == seq(n - 1, i => false);
      OneLogPerOutage(AfterHeartbeat(f, false).0, n - 1);
    }
  }

  /** Every outage is logged: a success followed by a failure always logs that failure. */
  lemma {:induction false} RecoveryRearmsLog(f: Flags, outcomes: seq<bool>)
    requires |outcomes| > 0 && outcomes[|outcomes| - 1]
    ensures LogsOver(f, outcomes + [false]) == LogsOver(f, outcomes) + 1
    decreases |outcomes|
  {
    if |outcomes| == 1 {
      var armed := AfterHeartbeat(f, true).0;
      assert (outcomes + [false])[1..] == [false];
      assert LogsOver(armed, [false]) == 1 + LogsOver(AfterHeartbeat(armed, false).0, []);
      assert LogsOver(f, outcomes) == 0 + LogsOver(armed, []);
    } else {
      assert (outcomes + [false])[1..] == outcomes[1..] + [false];
      RecoveryRearmsLog(AfterHeartbeat(f, outcomes[0]).0, outcomes[1..]);
    }
  }

  class HeartbeatActor {
    const self: ActorRef
    const config: MediatorConfig

    var firstFailure: bool
    var heartbeatError: bool
    var task: Option<ScheduledTask>
    var serverStartTime: int
    var forceConfig: bool
    /** The error lines logged so far. */
    var errorLog: seq<string>
    var outbox: seq<Envelope>

    constructor (self: ActorRef, config: MediatorConfig)
      ensures this.self == self && this.config == config
      ensures firstFailure && !heartbeatError && task.None? && serverStartTime == 0 && !forceConfig
      ensures errorLog == [] && outbox == []
    {
      this.self := self;
      this.config := config;
      firstFailure := true;
      heartbeatError := false;
      task := None;
      serverStartTime := 0;
      forceConfig := false;
      errorLog := [];
      outbox := [];
    }

    function CurrentFlags(): Flags
      reads this
    {
      Flags(firstFailure, heartbeatError, forceConfig)
    }

    function ToCoreConnector(msg: Message): Envelope
      reads this, config
    {
      Envelope(ToPath(config.UserPathFor(CORE_API_CONNECTOR)), msg)
    }

    /** What a scheduled task sends when it fires: a registration to the connector, or a trigger to this actor. */
    function Fired(t: ScheduledTask): (e: Envelope)
      reads this, config
      ensures t.RegistrationRetry? ==> e.msg == RegisterMediatorWithCoreMsg && e.to.ToPath?
      ensures t.HeartbeatTimer? ==> e == Envelope(ToActor(self), HeartbeatTriggerMsg)
    {
      match t
      case RegistrationRetry(_) => ToCoreConnector(RegisterMediatorWithCoreMsg)
      case HeartbeatTimer(_) => Envelope(ToActor(self), HeartbeatTriggerMsg)
    }

    /**
     * Everything a start changes: the clock starts now and the log is armed; registration is sent
     * when asked for and possible, and otherwise heartbeats start when enabled.
     */
    twostate predicate Started(sendRegistration: bool, now: int)
      reads this, config
    {
      && serverStartTime == now && firstFailure
      && heartbeatError == old(heartbeatError) && errorLog == old(errorLog)
      && config.dynamicConfig == old(config.dynamicConfig)
      && (sendRegistration || !config.heartbeatsEnabled ==> task == old(task) && forceConfig == old(forceConfig))
      && (sendRegistration ==>
            outbox == old(outbox) + if config.registrationConfig.Some? then [ToCoreConnector(RegisterMediatorWithCoreMsg)] else [])
      && (!sendRegistration && config.heartbeatsEnabled ==>
            forceConfig && task == Some(HeartbeatTimer(config.heartbeatPeriodSeconds)) &&
            outbox == old(outbox) + [Envelope(ToScheduler, ScheduleMsg(task.value))])
      && (!sendRegistration && !config.heartbeatsEnabled ==> outbox == old(outbox))
    }

    /**
     * Everything a registration answer changes. A success starts heartbeats when enabled; a
     * failure schedules one retry after a period, logging (with the status when there is one)
     * only while the log is armed, and disarms the log.
     */
    twostate predicate RegistrationAnswered(successful: bool, responseStatus: Option<int>, responseBody: Option<string>)
      reads this, config
    {
      && serverStartTime == old(serverStartTime) && heartbeatError == old(heartbeatError)
      && config.dynamicConfig == old(config.dynamicConfig)
      && (successful && config.heartbeatsEnabled ==>
            firstFailure && forceConfig && task == Some(HeartbeatTimer(config.heartbeatPeriodSeconds)) &&
            outbox == old(outbox) + [Envelope(ToScheduler, ScheduleMsg(task.value))])
      && (successful ==> errorLog == old(errorLog))
      && (successful && !config.heartbeatsEnabled ==>
            firstFailure == old(firstFailure) && forceConfig == old(forceConfig) && task == old(task) && outbox == old(outbox))
      && (!successful ==>
            && !firstFailure && forceConfig == old(forceConfig)
            && task == Some(RegistrationRetry(config.heartbeatPeriodSeconds))
            && outbox == old(outbox) + [Envelope(ToScheduler, ScheduleMsg(task.value))]
            && errorLog == old(errorLog) + (if old(firstFailure) then
                 [CONNECT_FAILURE,
                  if responseStatus.Some? then "Response: [" + IntToString(responseStatus.value) + "] " + JavaString(responseBody)
                  else "Response: " + JavaString(responseBody)]
               else []))
    }

    /** Everything a timer tick changes: only the heartbeat, with the whole seconds since start, is sent. */
    twostate predicate Triggered(now: int)
      reads this, config
    {
      && CurrentFlags() == old(CurrentFlags()) && task == old(task) && serverStartTime == old(serverStartTime)
      && errorLog == old(errorLog) && config.dynamicConfig == old(config.dynamicConfig)
      && outbox == old(outbox) + [ToCoreConnector(SendHeartbeatToCoreMsg(JavaDiv(now - serverStartTime, 1000), forceConfig))]
    }

    /**
     * Everything a heartbeat answer changes: the flags move as `AfterHeartbeat` says, a failure is
     * logged while the log is armed, a config update is merged key by key into the dynamic config,
     * and nothing is sent.
     */
    twostate predicate HeartbeatAnswered(response: SendHeartbeatToCoreResponse)
      reads this, config
    {
      && CurrentFlags() == AfterHeartbeat(old(CurrentFlags()), response.requestSucceeded).0
      && errorLog == old(errorLog) +
           (if AfterHeartbeat(old(CurrentFlags()), response.requestSucceeded).1
            then ["Request to core failed: " + JavaString(response.rawResponse)] else [])
      && config.dynamicConfig ==
           (if response.requestSucceeded && response.ReceivedConfigUpdate()
            then MergeConfig(old(config.dynamicConfig), response.config.value)
            else old(config.dynamicConfig))
      && task == old(task) && serverStartTime == old(serverStartTime) && outbox == old(outbox)
    }

    /** Everything a stop changes: the current task, if there is one, is cancelled (it stays recorded). */
    twostate predicate Stopped()
      reads this, config
    {
      && CurrentFlags() == old(CurrentFlags()) && task == old(task) && serverStartTime == old(serverStartTime)
      && errorLog == old(errorLog) && config.dynamicConfig == old(config.dynamicConfig)
      && outbox == old(outbox) + if task.Some? then [Envelope(ToScheduler, CancelMsg(task.value))] else []
    }

    /** Heartbeats every period, starting now, with the config forced until a heartbeat succeeds. */
    method StartHeartbeatTask()
      modifies this`firstFailure, this`forceConfig, this`task, this`outbox
      ensures firstFailure && forceConfig
      ensures task == Some(HeartbeatTimer(config.heartbeatPeriodSeconds))
      ensures outbox == old(outbox) + [Envelope(ToScheduler, ScheduleMsg(task.value))]
    {
      firstFailure := true;
      forceConfig := true;
      task := Some(HeartbeatTimer(config.heartbeatPeriodSeconds));
      outbox := outbox + [Envelope(ToScheduler, ScheduleMsg(task.value))];
    }

    method Start(sendRegistration: bool, now: int)
      modifies this`serverStartTime, this`firstFailure, this`forceConfig, this`task, this`outbox
      ensures Started(sendRegistration, now)
    {
      serverStartTime := now;
      firstFailure := true;
      if sendRegistration {
        if config.registrationConfig.Some? {
          outbox := outbox + [ToCoreConnector(RegisterMediatorWithCoreMsg)];
        }
      } else if config.heartbeatsEnabled {
        StartHeartbeatTask();
      }
    }

    method HandleRegisterResponse(successful: bool, responseStatus: Option<int>, responseBody: Option<string>)
      modifies this`firstFailure, this`forceConfig, this`task, this`errorLog, this`outbox
      ensures RegistrationAnswered(successful, responseStatus, responseBody)
    {
      if successful {
        if config.heartbeatsEnabled {
          StartHeartbeatTask();
        }
      } else {
        if firstFailure {
          errorLog := errorLog + [CONNECT_FAILURE];
          if responseStatus.Some? {
            errorLog := errorLog + ["Response: [" + IntToString(responseStatus.value) + "] " + JavaString(responseBody)];
          } else {
            errorLog := errorLog + ["Response: " + JavaString(responseBody)];
          }
          firstFailure := false;
        }
        task := Some(RegistrationRetry(config.heartbeatPeriodSeconds));
        outbox := outbox + [Envelope(ToScheduler, ScheduleMsg(task.value))];
      }
    }

    /** The uptime a tick reports is the whole seconds elapsed since start. */
    method Trigger(now: int)
      modifies this`outbox
      ensures Triggered(now)
      ensures var uptime := JavaDiv(now - serverStartTime, 1000);
        now >= serverStartTime ==> uptime * 1000 <= now - serverStartTime < uptime * 1000 + 1000
    {
      var uptime := JavaDiv(now - serverStartTime, 1000);
      outbox := outbox + [ToCoreConnector(SendHeartbeatToCoreMsg(uptime, forceConfig))];
    }

    method HandleHeartbeatResponse(response: SendHeartbeatToCoreResponse)
      modifies this`firstFailure, this`heartbeatError, this`forceConfig, this`errorLog, config`dynamicConfig
      ensures HeartbeatAnswered(response)
    {
      if response.requestSucceeded {
        firstFailure := true;
        forceConfig := false;
        if heartbeatError {
          heartbeatError := false;
        }
        if response.ReceivedConfigUpdate() {
          config.dynamicConfig := PutEach(config.dynamicConfig, response.config.value);
        }
      } else {
        heartbeatError := true;
        if firstFailure {
          errorLog := errorLog + ["Request to core failed: " + JavaString(response.rawResponse)];
          firstFailure := false;
        }
      }
    }

    method Stop()
      modifies this`outbox
      ensures Stopped()
    {
      if task.Some? {
        outbox := outbox + [Envelope(ToScheduler, CancelMsg(task.value))];
      }
    }

    /**
     * One message; `now` is the clock reading when it is handled. Each kind has its handler's
     * whole effect, and any other message changes nothing.
     */
    method OnReceive(msg: Message, now: int)
      modifies this, config`dynamicConfig
      ensures msg.HeartbeatStartMsg? ==> Started(msg.sendRegistration, now)
      ensures msg.RegisterResponseMsg? ==> RegistrationAnswered(msg.successful, msg.responseStatus, msg.responseBody)
      ensures msg.HeartbeatTriggerMsg? ==> Triggered(now)
      ensures msg.HeartbeatResponseMsg? ==> HeartbeatAnswered(msg.heartbeat)
      ensures msg.HeartbeatStopMsg? ==> Stopped()
      ensures !(msg.HeartbeatStartMsg? || msg.HeartbeatStopMsg? || msg.RegisterResponseMsg? || msg.HeartbeatResponseMsg? || msg.HeartbeatTriggerMsg?) ==>
        && CurrentFlags() == old(CurrentFlags()) && task == old(task) && serverStartTime == old(serverStartTime)
        && errorLog == old(errorLog) && config.dynamicConfig == old(config.dynamicConfig) && outbox == old(outbox)
    {
      match msg {
        case HeartbeatStartMsg(sendRegistration) => Start(sendRegistration, now);
        case HeartbeatStopMsg => Stop();
        case RegisterResponseMsg(successful, status, body) => HandleRegisterResponse(successful, status, body);
        case HeartbeatResponseMsg(response) => HandleHeartbeatResponse(response);
        case HeartbeatTriggerMsg => Trigger(now);
        case _ =>
      }
    }
  }
}

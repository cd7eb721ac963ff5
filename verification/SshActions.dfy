/** The mutating SSH boundary: one write per call, and what the reported phase says about it.

    A `Channel` stands for one open SSH connection: `written` is what was handed to the device, and the
    script fields say how the connection answers. Texts are real strings, bounded as all command output
    is; what reports a rejection, paging or success is decided by the predicates of the script. */
module SshActions {
  import opened Prelude
  import opened RemediationTypes
  import Output = OutputAccumulator

  datatype Command = ReloadForce | RebalanceBucketmap

  datatype Read = Chunk(text: string) | ReadFails

  datatype Transport = Channelled | PromptDriven | Unsupported

  /** A failing write may or may not have reached the device; `error` is its code if it is an SSH error. */
  datatype WriteAnswer = Returns | Fails(reached: bool, error: Option<string>)

  datatype ChannelScript = ChannelScript(
    transport: Transport,
    cancelledAtStart: bool,
    connected: bool,
    write: WriteAnswer,
    reply: string,
    replyFails: bool,
    cancelled: nat -> bool,
    answers: nat -> Read,
    dead: nat -> bool,
    pollLimit: nat,
    rejects: string -> bool,
    paged: string -> bool,
    confirms: string -> bool)

  /** `Raised` carries the code of the SSH error that leaves the call as an exception. */
  datatype Reply =
    | Result(code: ActionCode, sent: bool, phase: Phase)
    | Raised(error: string)

  const NOT_CONNECTED := "SSH_NOT_CONNECTED"
  const INCOMPATIBLE := "ACTION_RUNTIME_INCOMPATIBLE"
  const LIMIT_EXCEEDED := "OUTPUT_LIMIT_EXCEEDED"

  /** The command is about to be written. */
  predicate Starts(s: ChannelScript) {
    !s.cancelledAtStart && s.connected && !s.transport.Unsupported?
  }

  predicate ReachesDevice(s: ChannelScript) {
    Starts(s) && (s.write.Returns? || s.write.reached)
  }

  // ----- reload force

  /** The text of the first `n` reads. */
  ghost function Joined(s: ChannelScript, n: nat): string {
    if n == 0 then "" else Joined(s, n - 1) + (if s.answers(n - 1).Chunk? then s.answers(n - 1).text else "")
  }

  /** The read loop of `reload force` gets past read `k`. */
  ghost predicate Continues(s: ChannelScript, k: nat) {
    && !s.cancelled(k) && s.answers(k).Chunk? && !s.dead(k)
    && (s.answers(k).text != "" ==> Output.Fits(Joined(s, k + 1)) && !s.rejects(Joined(s, k + 1)))
  }

  /** Some text arrives with read `k`. */
  ghost predicate HeardAt(s: ChannelScript, k: nat) {
    (forall i :: 0 <= i < k ==> Continues(s, i)) && !s.cancelled(k) && s.answers(k).Chunk? && s.answers(k).text != ""
  }

  /** Read `k` is the one whose accumulated text exceeds the limit. */
  ghost predicate OverflowsAt(s: ChannelScript, k: nat) {
    k < s.pollLimit && HeardAt(s, k) && !Output.Fits(Joined(s, k + 1))
  }

  /** The reads end with read `k`, before their time is up. */
  ghost predicate EndsAt(s: ChannelScript, k: nat) {
    k < s.pollLimit && (forall i :: 0 <= i < k ==> Continues(s, i)) && !Continues(s, k)
  }

  /** What was read up to and including read `k` says that the device refused. */
  ghost predicate RefusesAt(s: ChannelScript, k: nat) {
    HeardAt(s, k) && Output.Fits(Joined(s, k + 1)) && s.rejects(Joined(s, k + 1))
  }

  /** The connection is gone at read `k`: it either fails or is found dead after an innocent answer. */
  ghost predicate HangsUpAt(s: ChannelScript, k: nat) {
    && !s.cancelled(k)
    && (s.answers(k).ReadFails?
        || (s.dead(k) && (s.answers(k).text != "" ==> Output.Fits(Joined(s, k + 1)) && !s.rejects(Joined(s, k + 1)))))
  }

  /** What the device answered exceeds the output limit. */
  ghost predicate ReloadOverflows(s: ChannelScript) {
    if s.transport.PromptDriven? then !Output.Fits(s.reply) else exists k :: OverflowsAt(s, k)
  }

  /** The error with which the call of `reload force` leaves instead of yielding a result. */
  ghost function ReloadError(s: ChannelScript): Option<string> {
    if s.cancelledAtStart then Some(CANCELLED)
    else if !s.connected then Some(NOT_CONNECTED)
    else if s.transport.Unsupported? then Some(INCOMPATIBLE)
    else if s.write.Fails? then (if s.transport.Channelled? then s.write.error else None)
    else if ReloadOverflows(s) then Some(LIMIT_EXCEEDED)
    else None
  }

  /** The result code that `reload force` deserves, if its call yields a result. */
  ghost function ReloadCode(s: ChannelScript): (code: ActionCode)
    ensures code in {ReloadRejected, ReloadDispatched, ExpectedDisconnect, ResultUnknownAfterSend}
  {
    if s.write.Fails? then ResultUnknownAfterSend
    else if s.transport.PromptDriven? then (if s.rejects(s.reply) then ReloadRejected else ReloadDispatched)
    else if exists k :: EndsAt(s, k) && RefusesAt(s, k) then ReloadRejected
    else if exists k :: EndsAt(s, k) && HangsUpAt(s, k) then ExpectedDisconnect
    else ResultUnknownAfterSend
  }

  /** Some text arrived before the reads ended. */
  ghost predicate Heard(s: ChannelScript) {
    if s.transport.PromptDriven? then s.reply != ""
    else exists k :: 0 <= k < s.pollLimit && HeardAt(s, k)
  }

  ghost function ReloadPhase(s: ChannelScript): Phase {
    if s.write.Fails? then WriteAttempted else if Heard(s) then ResponseObserved else WriteReturned
  }

  // ----- rebalance

  /** The rebalance command was answered, within the output limit and without paging. */
  ghost predicate Readable(s: ChannelScript) {
    && Starts(s) && s.write.Returns? && !s.cancelled(0) && !s.replyFails
    && Output.Fits(s.reply) && !s.paged(s.reply)
  }

  /** The rebalance command was answered completely, without a rejection, by its success message. */
  ghost predicate Triggers(s: ChannelScript) {
    Readable(s) && !s.rejects(s.reply) && s.confirms(s.reply)
  }

  ghost function RebalanceError(s: ChannelScript): Option<string> {
    if s.cancelledAtStart then Some(CANCELLED)
    else if !s.connected then Some(NOT_CONNECTED)
    else if Starts(s) && (if s.write.Fails? then s.write.error == Some(CANCELLED) else s.cancelled(0)) then Some(CANCELLED)
    else None
  }

  /** The result code that the rebalance deserves, if its call yields a result. */
  ghost function RebalanceCode(s: ChannelScript): (code: ActionCode)
    ensures code in {RebalanceTriggered, RebalanceRejected, RebalanceUnconfirmed, RebalanceResultUnknown}
  {
    if Triggers(s) then RebalanceTriggered
    else if Readable(s) && s.rejects(s.reply) then RebalanceRejected
    else if Starts(s) && s.write.Returns? && !s.replyFails && Output.Fits(s.reply) then RebalanceUnconfirmed
    else RebalanceResultUnknown
  }

  ghost function RebalancePhase(s: ChannelScript): Phase {
    if !Starts(s) || s.write.Fails? then WriteAttempted
    else if s.replyFails || !Output.Fits(s.reply) || s.reply == "" then WriteReturned
    else ResponseObserved
  }

  class Channel {
    const script: ChannelScript
    var written: seq<Command>

    constructor (script: ChannelScript)
      ensures this.script == script && written == []
    {
      this.script := script;
      written := [];
    }

    /** Hands the command to the connection; a raising write may or may not have reached the device. */
    method Write(command: Command) returns (returned: bool)
      modifies this
      ensures returned <==> script.write.Returns?
      ensures written == if returned || script.write.reached then old(written) + [command] else old(written)
    {
      returned := script.write.Returns?;
      if returned || script.write.reached {
        written := written + [command];
      }
    }

    /** At most one write, and one exactly if the command reaches the device; what the call then says is
        the error, or the result code and phase, that the answers deserve. */
    method RunReloadForce() returns (reply: Reply)
      modifies this
      ensures written == old(written) + if ReachesDevice(script) then [ReloadForce] else []
      ensures match ReloadError(script)
              case Some(error) => reply == Raised(error)
              case None => reply == Result(ReloadCode(script), true, ReloadPhase(script))
    {
      if script.cancelledAtStart {
        return Raised(CANCELLED);
      }
      if !script.connected {
        return Raised(NOT_CONNECTED);
      }
      if script.transport.Unsupported? {
        return Raised(INCOMPATIBLE);
      }
      var returned := Write(ReloadForce);
      if !returned {
        if script.transport.Channelled? && script.write.error.Some? {
          return Raised(script.write.error.value);
        }
        return Result(ResultUnknownAfterSend, true, WriteAttempted);
      }
      if script.transport.PromptDriven? {
        if !Output.Fits(script.reply) {
          return Raised(LIMIT_EXCEEDED);
        }
        var seen := if script.reply != "" then ResponseObserved else WriteReturned;
        if script.rejects(script.reply) {
          return Result(ReloadRejected, true, seen);
        }
        return Result(ReloadDispatched, true, seen);
      }
      reply := ReadReloadAnswer();
    }

    method ReadReloadAnswer() returns (reply: Reply)
      requires script.write.Returns? && Starts(script) && script.transport.Channelled?
      ensures match ReloadError(script)
              case Some(error) => reply == Raised(error)
              case None => reply == Result(ReloadCode(script), true, ReloadPhase(script))
    {
      hide Output.Fits;
      var phase, output, k := WriteReturned, "", 0;
      while k < script.pollLimit
        invariant k <= script.pollLimit
        invariant output == Joined(script, k)
        invariant forall i :: 0 <= i < k ==> Continues(script, i)
        invariant phase == if exists i :: 0 <= i < k && HeardAt(script, i) then ResponseObserved else WriteReturned
      {
        if script.cancelled(k) {
          ReadsEnd(script, k);
          return Result(ResultUnknownAfterSend, true, phase);
        }
        if script.answers(k).ReadFails? {
          ReadsEnd(script, k);
          return Result(ExpectedDisconnect, true, phase);
        }
        var chunk := script.answers(k).text;
        assert Joined(script, k + 1) == output + chunk;
        output := output + chunk;
        if chunk != "" {
          phase := ResponseObserved;
          assert HeardAt(script, k);
          if !Output.Fits(output) {
            ReadsEnd(script, k);
            return Raised(LIMIT_EXCEEDED);
          }
          if script.rejects(output) {
            ReadsEnd(script, k);
            return Result(ReloadRejected, true, phase);
          }
        }
        if script.dead(k) {
          ReadsEnd(script, k);
          return Result(ExpectedDisconnect, true, phase);
        }
        k := k + 1;
      }
      ReadsEnd(script, k);
      reply := Result(ResultUnknownAfterSend, true, phase);
    }

    /** At most one write, and one exactly if the command reaches the device; only a cancellation or a
        missing connection leaves the call as an error, everything else is a result. */
    method RunRebalance() returns (reply: Reply)
      modifies this
      ensures written == old(written) + if ReachesDevice(script) then [RebalanceBucketmap] else []
      ensures match RebalanceError(script)
              case Some(error) => reply == Raised(error)
              case None => reply == Result(RebalanceCode(script), true, RebalancePhase(script))
    {
      hide Output.Fits;
      if script.cancelledAtStart {
        return Raised(CANCELLED);
      }
      if !script.connected {
        return Raised(NOT_CONNECTED);
      }
      if script.transport.Unsupported? {
        return Result(RebalanceResultUnknown, true, WriteAttempted);
      }
      var returned := Write(RebalanceBucketmap);
      if !returned {
        if script.write.error == Some(CANCELLED) {
          return Raised(CANCELLED);
        }
        return Result(RebalanceResultUnknown, true, WriteAttempted);
      }
      if script.cancelled(0) {
        return Raised(CANCELLED);
      }
      if script.replyFails || !Output.Fits(script.reply) {
        return Result(RebalanceResultUnknown, true, WriteReturned);
      }
      var phase := if script.reply != "" then ResponseObserved else WriteReturned;
      if script.paged(script.reply) {
        return Result(RebalanceUnconfirmed, true, phase);
      }
      if script.rejects(script.reply) {
        return Result(RebalanceRejected, true, phase);
      }
      if script.confirms(script.reply) {
        return Result(RebalanceTriggered, true, phase);
      }
      reply := Result(RebalanceUnconfirmed, true, phase);
    }
  }

  // ----- what the calls tell

  /** A result other than "unknown" proves that the device has the command. */
  lemma ReloadAnswerProvesWrite(s: ChannelScript)
    ensures ReloadError(s).None? && ReloadCode(s) != ResultUnknownAfterSend ==> ReachesDevice(s)
  {
  }

  lemma RebalanceAnswerProvesWrite(s: ChannelScript)
    ensures RebalanceError(s).None? && RebalanceCode(s) != RebalanceResultUnknown ==> ReachesDevice(s)
  {
  }

  lemma TriggeredIff(s: ChannelScript)
    ensures RebalanceCode(s) == RebalanceTriggered <==> Triggers(s)
  {
  }

  /** A prompt-driven device refuses or dispatches; otherwise the first read that does not simply go on decides,
      and if there is none in time, or it finds the wait cancelled, the result is unknown. */
  lemma ReloadResultMeans(s: ChannelScript, k: nat)
    requires Starts(s) && s.write.Returns? && ReloadError(s).None?
    requires k <= s.pollLimit && (forall i :: 0 <= i < k ==> Continues(s, i)) && (k < s.pollLimit ==> !Continues(s, k))
    ensures ReloadCode(s) ==
      if s.transport.PromptDriven? then (if s.rejects(s.reply) then ReloadRejected else ReloadDispatched)
      else if k == s.pollLimit || s.cancelled(k) then ResultUnknownAfterSend
      else if s.answers(k).Chunk? && s.answers(k).text != "" && s.rejects(Joined(s, k + 1)) then ReloadRejected
      else ExpectedDisconnect
  {
    hide Output.Fits;
    ReadsEnd(s, k);
  }

  /** The result of a rebalance that was answered in full: unconfirmed if the answer is paged or says neither. */
  lemma RebalanceResultMeans(s: ChannelScript)
    requires RebalanceError(s).None?
    ensures
      var answered := !s.transport.Unsupported? && s.write.Returns? && !s.replyFails && Output.Fits(s.reply);
      RebalanceCode(s) == if !answered then RebalanceResultUnknown
                          else if s.paged(s.reply) then RebalanceUnconfirmed
                          else if s.rejects(s.reply) then RebalanceRejected
                          else if s.confirms(s.reply) then RebalanceTriggered else RebalanceUnconfirmed
  {
  }

  /** The device has the reload command but the caller gets an error and never learns that it was sent:
      exactly if the answer overflows the output limit, or the write itself ends in an SSH error. */
  lemma ReloadVanishesIff(s: ChannelScript)
    ensures ReachesDevice(s) && ReloadError(s).Some?
      <==> Starts(s) && if s.write.Returns? then ReloadOverflows(s)
                        else s.write.reached && s.transport.Channelled? && s.write.error.Some?
  {
  }

  /** It happens: an answer one character longer than the limit. */
  lemma ReloadCanVanish() returns (s: ChannelScript)
    ensures s.write.Returns? && ReachesDevice(s) && ReloadError(s) == Some(LIMIT_EXCEEDED)
  {
    var answer: string := seq(Output.MAX_CHARACTERS + 1, _ => 'x');
    s := ChannelScript(PromptDriven, false, true, Returns, answer, false, _ => false, _ => ReadFails, _ => false, 0,
                       _ => false, _ => false, _ => false);
  }

  /** The rebalance reached the device but the call leaves with an error: only by a cancellation. */
  lemma RebalanceVanishesIff(s: ChannelScript)
    ensures ReachesDevice(s) && RebalanceError(s).Some?
      <==> Starts(s) && if s.write.Returns? then s.cancelled(0) else s.write.reached && s.write.error == Some(CANCELLED)
  {
  }

  /** The reads end at `k`, for a reason or because their time is up, and nowhere else; what can be said of
      the whole answer is what can be said of that read. */
  lemma ReadsEnd(s: ChannelScript, k: nat)
    requires k <= s.pollLimit && forall i :: 0 <= i < k ==> Continues(s, i)
    requires k < s.pollLimit ==> !Continues(s, k)
    ensures (exists m :: OverflowsAt(s, m)) <==> OverflowsAt(s, k)
    ensures (exists m :: EndsAt(s, m) && RefusesAt(s, m)) <==> k < s.pollLimit && RefusesAt(s, k)
    ensures (exists m :: EndsAt(s, m) && HangsUpAt(s, m)) <==> k < s.pollLimit && HangsUpAt(s, k)
    ensures (exists m :: 0 <= m < s.pollLimit && HeardAt(s, m))
      <==> (exists m :: 0 <= m < k && HeardAt(s, m)) || (k < s.pollLimit && HeardAt(s, k))
  {
    hide Continues, RefusesAt, HangsUpAt, Joined, Output.Fits;
    forall m: nat | m < s.pollLimit && m != k
      ensures !EndsAt(s, m) && !OverflowsAt(s, m) && (m > k ==> !HeardAt(s, m))
    {
      if m < k {
        assert Continues(s, m);
        NotBoth(s, m);
      }
    }
    if k < s.pollLimit {
      assert EndsAt(s, k);
    }
  }

  lemma NotBoth(s: ChannelScript, k: nat)
    requires Continues(s, k)
    ensures !OverflowsAt(s, k)
  {
  }
}

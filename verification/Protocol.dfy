/** The wire-to-wire pipeline around the dispatcher (src/astropath/data_plane/protocol.py):
    authentication gate, opcode routing, the error replies that are rebuilt from the wire, and the
    way into the dispatcher.

    What the library's parser and TSIG check make of a message is the oracle `Parsed`. */
module Protocol {
  import opened Wrappers
  import opened Names
  import Rt = Routing
  import D = Dispatch
  import M = Dispatcher
  import W = Wire

  // TSIG error codes, section 3 of RFC 8945
  const BADSIG := 16
  const BADKEY := 17
  const BADTIME := 18

  datatype SecretKey = SecretKey(name: Name, algorithm: string, secret: string)

  /** Looked up by canonical name: names compare without regard to letter case. */
  type Keyring = map<Name, SecretKey>

  datatype Signature = Signature(key: SecretKey, requestMac: W.Bytes, error: int, originalId: nat)

  /** `Bare` is an error reply rebuilt from the wire; `Response` answers a parsed query and is
      signed by the library exactly when the query carried a verified TSIG. */
  datatype Answer =
    | Dropped
    | Bare(id: nat, opcode: nat, rcode: D.Rcode, signature: Option<Signature>)
    | Response(signed: bool, rcode: D.Rcode)

  datatype Outcome = Answered(answer: Answer) | Dispatching(update: D.UpdateMessage)

  function PlainErrorReply(wire: W.Bytes, rcode: D.Rcode): Answer {
    var ctx := W.Extract(wire);
    if ctx == None then Dropped else Bare(ctx.value.id, ctx.value.opcode, rcode, None)
  }

  function SignedErrorReply(wire: W.Bytes, keyring: Keyring, rcode: D.Rcode, tsigError: int): Answer {
    var ctx := W.Extract(wire);
    if ctx == None then Dropped
    else if ctx.value.key == None then Bare(ctx.value.id, ctx.value.opcode, rcode, None)
    else
      var owner := Canonical(ctx.value.key.value.owner);
      if owner !in keyring then Bare(ctx.value.id, ctx.value.opcode, rcode, None)
      else
        Bare(ctx.value.id, ctx.value.opcode, rcode,
             Some(Signature(keyring[owner], ctx.value.key.value.mac, tsigError, ctx.value.id)))
  }

  datatype Reason = UnknownKey | BadSignature | BadTime | BadKey | Absent

  /** The failure counted for a message, if any; a wrong algorithm is folded into BADKEY. */
  function FailureOf(parsed: D.Parsed): Option<Reason> {
    match parsed
    case UnknownKey => Some(UnknownKey)
    case BadSignature => Some(BadSignature)
    case BadTime => Some(BadTime)
    case BadKey | BadAlgorithm => Some(BadKey)
    case Malformed => None
    case Query(hadTsig, _, _) => if hadTsig then None else Some(Absent)
  }

  function Gate(parsed: D.Parsed, wire: W.Bytes, keyring: Keyring): Outcome {
    match parsed
    case UnknownKey => Answered(PlainErrorReply(wire, D.NOTAUTH))
    case BadSignature => Answered(SignedErrorReply(wire, keyring, D.NOTAUTH, BADSIG))
    case BadTime => Answered(SignedErrorReply(wire, keyring, D.NOTAUTH, BADTIME))
    case BadKey | BadAlgorithm => Answered(SignedErrorReply(wire, keyring, D.NOTAUTH, BADKEY))
    case Malformed => Answered(Dropped)
    case Query(hadTsig, opcode, update) =>
      if !hadTsig then Answered(Response(false, D.NOTAUTH))
      else if opcode != D.OPCODE_UPDATE then Answered(Response(true, D.REFUSED))
      else Dispatching(update)
  }

  class TsigMetrics {
    var failures: map<Reason, nat>
    var badTimes: nat

    constructor ()
      ensures failures == map[] && badTimes == 0
    {
      failures, badTimes := map[], 0;
    }

    function Failures(reason: Reason): nat
      reads this
    {
      if reason in failures then failures[reason] else 0
    }

    /** Count one failure; clock skew also has a counter of its own. */
    method RecordFailure(reason: Reason)
      modifies this
      ensures failures == old(failures)[reason := old(Failures(reason)) + 1]
      ensures badTimes == old(badTimes) + (if reason == BadTime then 1 else 0)
    {
      failures := failures[reason := Failures(reason) + 1];
      if reason == BadTime {
        badTimes := badTimes + 1;
      }
    }
  }

  /** The pipeline up to the dispatcher: one counter moves on a failure, none otherwise. */
  method ProcessQuery(parsed: D.Parsed, wire: W.Bytes, keyring: Keyring, metrics: TsigMetrics)
    returns (outcome: Outcome)
    modifies metrics
    ensures outcome == Gate(parsed, wire, keyring)
    ensures forall reason :: metrics.Failures(reason) ==
                               old(metrics.Failures(reason)) + (if FailureOf(parsed) == Some(reason) then 1 else 0)
    ensures metrics.badTimes == old(metrics.badTimes) + (if parsed == D.BadTime then 1 else 0)
    ensures metrics.Failures(UnknownKey) == old(metrics.Failures(UnknownKey)) + (if parsed.UnknownKey? then 1 else 0)
    ensures metrics.Failures(BadSignature) ==
            old(metrics.Failures(BadSignature)) + (if parsed.BadSignature? then 1 else 0)
    ensures metrics.Failures(BadTime) == old(metrics.Failures(BadTime)) + (if parsed.BadTime? then 1 else 0)
    ensures metrics.Failures(BadKey) ==
            old(metrics.Failures(BadKey)) + (if parsed.BadKey? || parsed.BadAlgorithm? then 1 else 0)
    ensures metrics.Failures(Absent) ==
            old(metrics.Failures(Absent)) + (if parsed.Query? && !parsed.hadTsig then 1 else 0)
  {
    match parsed {
      case UnknownKey =>
        metrics.RecordFailure(UnknownKey);
        return Answered(PlainErrorReply(wire, D.NOTAUTH));
      case BadSignature =>
        metrics.RecordFailure(BadSignature);
        return Answered(SignedErrorReply(wire, keyring, D.NOTAUTH, BADSIG));
      case BadTime =>
        metrics.RecordFailure(BadTime);
        return Answered(SignedErrorReply(wire, keyring, D.NOTAUTH, BADTIME));
      case BadKey | BadAlgorithm =>
        metrics.RecordFailure(BadKey);
        return Answered(SignedErrorReply(wire, keyring, D.NOTAUTH, BADKEY));
      case Malformed =>
        return Answered(Dropped);
      case Query(hadTsig, opcode, update) =>
        if !hadTsig {
          metrics.RecordFailure(Absent);
          return Answered(Response(false, D.NOTAUTH));
        }
        if opcode != D.OPCODE_UPDATE {
          return Answered(Response(true, D.REFUSED));
        }
        return Dispatching(update);
    }
  }

  /** The error code a rejected signature is answered with: section 3 of RFC 8945. */
  function TsigErrorOf(parsed: D.Parsed): Option<int> {
    match parsed
    case BadSignature => Some(16)
    case BadTime => Some(18)
    case BadKey | BadAlgorithm => Some(17)
    case _ => None
  }

  /** When the TSIG of an encoded request fails, the reply echoes the request's id
      and opcode with NOTAUTH, and is signed over the request's own MAC with the server's key of
      that name and the error code of the failure; it is unsigned when the server has no such
      key or verification did not know it, and there is none exactly when the request cannot be
      read back. */
  lemma FailureRepliesEchoRequest(m: W.Message, parsed: D.Parsed, keyring: Keyring)
    requires W.Encodable(m) && (TsigErrorOf(parsed).Some? || parsed.UnknownKey?)
    ensures var answer := Gate(parsed, W.Encode(m), keyring).answer;
            var last := W.LastKey(W.Records(m), None);
            if !W.Readable(W.Records(m)) then answer == Dropped
            else if !parsed.UnknownKey? && last.Some? && Canonical(last.value.owner) in keyring then
              answer == Bare(m.id, W.Opcode(m), D.NOTAUTH,
                             Some(Signature(keyring[Canonical(last.value.owner)], last.value.mac,
                                            TsigErrorOf(parsed).value, m.id)))
            else answer == Bare(m.id, W.Opcode(m), D.NOTAUTH, None)
  {
    W.ExtractRoundTrip(m);
  }

  /** What reaches the dispatcher is a verified UPDATE, and a message that admission calls
      unverified is one whose failure is counted or that does not parse. */
  lemma GateAgreesWithAdmission(parsed: D.Parsed, wire: W.Bytes, keyring: Keyring,
                                table: map<Name, Rt.Route<D.Provider>>)
    ensures Gate(parsed, wire, keyring).Dispatching? ==>
              parsed == D.Query(true, D.OPCODE_UPDATE, Gate(parsed, wire, keyring).update)
    ensures Gate(parsed, wire, keyring).Answered? ==>
              !D.Admit(parsed, table).Call?
              && (D.Admit(parsed, table).Reply? ==>
                    Gate(parsed, wire, keyring).answer == Response(true, D.Admit(parsed, table).rcode))
    ensures D.Admit(parsed, table).Unverified? <==> FailureOf(parsed).Some? || parsed.Malformed?
  {
  }

  /** An UPDATE for a zone under a configured one, that keeps to the allowlist. */
  ghost predicate MayCall(parsed: D.Parsed, table: map<Name, Rt.Route<D.Provider>>)
    requires parsed.Query?
  {
    && parsed.opcode == 5 && parsed.update.zones != []
    && var route := Rt.MatchFrom(table, Canonical(parsed.update.zones[0]));
       route.Some? && D.Permitted(parsed.update, route.value)
  }

  /** Whatever else is wrong with a verified message, it is REFUSED. */
  lemma RefusedUnlessPermitted(parsed: D.Parsed, table: map<Name, Rt.Route<D.Provider>>)
    requires parsed.Query? && parsed.hadTsig
    ensures if MayCall(parsed, table) then D.Admit(parsed, table).Call?
            else D.Admit(parsed, table) == D.Reply(D.REFUSED)
  {
    D.AdmitsExactlyPermitted(parsed, table);
  }

  /** The whole way from a parsed message to its wait for the lock, on the real objects: the
      dispatcher's locks move as in the machine's arrival step with the verdict of `Admit`, so
      every message, whatever it holds, is such an arrival; and a message that makes no provider
      call gets its answer here. */
  method HandleUntilLock(parsed: D.Parsed, wire: W.Bytes, keyring: Keyring, metrics: TsigMetrics,
                         dispatcher: M.ChallengeDispatcher, routing: Rt.RoutingTable<D.Provider>,
                         tid: nat, ghost s: M.State)
    returns (answer: Option<Answer>)
    requires dispatcher.Shows(s) && tid !in s.tasks
    modifies metrics, dispatcher`locks
    ensures dispatcher.Shows(M.Do(s, M.Arrive(tid, D.Admit(parsed, routing.byZone))))
    ensures match D.Admit(parsed, routing.byZone)
            case Call(_) => answer == None
            case Reply(rcode) => answer == Some(Response(true, rcode))
            case Unverified => answer.Some? && Gate(parsed, wire, keyring) == Answered(answer.value)
    ensures forall reason :: metrics.Failures(reason) ==
                               old(metrics.Failures(reason)) + (if FailureOf(parsed) == Some(reason) then 1 else 0)
    // and in literal terms: who is refused, and how
    ensures parsed.Malformed? ==> answer == Some(Dropped)
    ensures parsed.Query? && !parsed.hadTsig ==> answer == Some(Response(false, D.NOTAUTH))
    ensures parsed.Query? && parsed.hadTsig ==>
              answer == if MayCall(parsed, routing.byZone) then None else Some(Response(true, D.REFUSED))
  {
    if parsed.Query? && parsed.hadTsig { RefusedUnlessPermitted(parsed, routing.byZone); }
    GateAgreesWithAdmission(parsed, wire, keyring, routing.byZone);
    var outcome := ProcessQuery(parsed, wire, keyring, metrics);
    if outcome.Answered? {
      return Some(outcome.answer);
    }
    var verdict := dispatcher.Dispatch(tid, outcome.update, routing, s);
    if verdict.Reply? {
      return Some(Response(true, verdict.rcode));
    }
    return None;
  }
}

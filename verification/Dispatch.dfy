/** The synchronous front of the dispatcher (src/astropath/data_plane/dispatcher.py): zone
    routing, the write-surface allowlist and the normalization of TXT values, together with the
    authentication gate in front of it (src/astropath/data_plane/protocol.py).

    Nothing here awaits: by the time a request waits for its record's lock, everything below
    has been decided. */
module Dispatch {
  import opened Wrappers
  import opened Names
  import opened Routing
  import Route53

  const TXT := 16
  const CLASS_NONE := 254
  const CLASS_ANY := 255
  const OPCODE_UPDATE := 5
  const MAX_TXT_LEN := 255

  // ---------------------------------------------------------------- providers

  /** What a provider object does, as a value: Route 53 holds several values per record, Hurricane
      Electric one.  The objects themselves, and which zones share one, are in `Assembly`. */
  datatype Provider =
    | AmazonRoute53(hostedZone: string, ttl: int)
    | HurricaneElectric(placeholder: string)
  {
    predicate SupportsMultivalue() { AmazonRoute53? }
  }

  // ---------------------------------------------------------------- the write surface

  datatype Rdata = Txt(strings: seq<seq<byte>>) | OtherRdata

  /** One rrset of the update section; `deleting` is its RFC 2136 update class, if any. */
  datatype UpdateRrset = UpdateRrset(owner: Name, rdtype: int, deleting: Option<int>, rdatas: seq<Rdata>)

  datatype UpdateMessage = UpdateMessage(zones: seq<Name>, updates: seq<UpdateRrset>)

  datatype Violation =
    | NotOneRrset | NotTxtType | WrongOwner | UnknownClass
    | NoValue | SeveralValues | NotTxtData | NotAscii | EmptyValue | ValueTooLong

  function ClassifyAction(rrset: UpdateRrset): Result<Route53.Action, Violation> {
    match rrset.deleting
    case None => Ok(Route53.Present)
    case Some(cls) =>
      if cls == CLASS_NONE || cls == CLASS_ANY then Ok(Route53.Cleanup) else Err(UnknownClass)
  }

  function ValidateWriteSurface(msg: UpdateMessage, route: Route<Provider>): Result<Route53.Action, Violation> {
    if |msg.updates| != 1 then Err(NotOneRrset)
    else
      var rrset := msg.updates[0];
      if rrset.rdtype != TXT then Err(NotTxtType)
      else if Canonical(rrset.owner) != route.recordName then Err(WrongOwner)
      else ClassifyAction(rrset)
  }

  function Join(strings: seq<seq<byte>>): seq<byte> {
    if strings == [] then [] else Join(strings[..|strings| - 1]) + strings[|strings| - 1]
  }

  /** The content of a TXT rdata is its character-strings, one after the other. */
  lemma {:induction false} JoinConcats(a: seq<seq<byte>>, b: seq<seq<byte>>)
    ensures Join([]) == [] && Join(a + b) == Join(a) + Join(b)
    ensures |a| == 1 ==> Join(a) == a[0]
  {
    if b == [] {
      assert a + b == a;
    } else {
      assert (a + b)[..|a + b| - 1] == a + b[..|b| - 1];
      JoinConcats(a, b[..|b| - 1]);
    }
    if |a| == 1 { assert Join(a[..0]) == []; }
  }

  predicate IsAscii(raw: seq<byte>) {
    forall i :: 0 <= i < |raw| ==> raw[i] < 128
  }

  function Decode(raw: seq<byte>): (s: string)
    ensures |s| == |raw| && forall i :: 0 <= i < |raw| ==> s[i] == raw[i] as char
  {
    seq(|raw|, i requires 0 <= i < |raw| => raw[i] as char)
  }

  function NormalizeOne(rdata: Rdata): Result<string, Violation> {
    match rdata
    case OtherRdata => Err(NotTxtData)
    case Txt(strings) =>
      var raw := Join(strings);
      if !IsAscii(raw) then Err(NotAscii)
      else if raw == [] then Err(EmptyValue)
      else if |raw| > MAX_TXT_LEN then Err(ValueTooLong)
      else Ok(Decode(raw))
  }

  /** All values, or the violation of the first bad one. */
  function NormalizeEach(rdatas: seq<Rdata>): (r: Result<seq<string>, Violation>) {
    if rdatas == [] then Ok([])
    else
      var before := NormalizeEach(rdatas[..|rdatas| - 1]);
      if before.Err? then before
      else
        match NormalizeOne(rdatas[|rdatas| - 1])
        case Err(v) => Err(v)
        case Ok(token) => Ok(before.value + [token])
  }

  function NormalizeTxtValues(rdatas: seq<Rdata>, action: Route53.Action, allowMultivalue: bool)
    : Result<seq<string>, Violation>
  {
    if rdatas == [] then (if action == Route53.Cleanup then Ok([]) else Err(NoValue))
    else if |rdatas| > 1 && !allowMultivalue then Err(SeveralValues)
    else NormalizeEach(rdatas)
  }

  method NormalizeValues(rdatas: seq<Rdata>, action: Route53.Action, allowMultivalue: bool)
    returns (r: Result<seq<string>, Violation>)
    ensures r == NormalizeTxtValues(rdatas, action, allowMultivalue)
  {
    if rdatas == [] {
      return if action == Route53.Cleanup then Ok([]) else Err(NoValue);
    }
    if |rdatas| > 1 && !allowMultivalue {
      return Err(SeveralValues);
    }
    var values := [];
    var i := 0;
    while i < |rdatas|
      invariant 0 <= i <= |rdatas| && NormalizeEach(rdatas[..i]) == Ok(values)
    {
      assert rdatas[..i + 1][..i] == rdatas[..i];
      var one := NormalizeOne(rdatas[i]);
      if one.Err? {
        FirstErrorStays(rdatas, i + 1);
        return Err(one.error);
      }
      values := values + [one.value];
      i := i + 1;
    }
    assert rdatas[..i] == rdatas;
    return Ok(values);
  }

  lemma {:induction false} FirstErrorStays(rdatas: seq<Rdata>, n: nat)
    requires n <= |rdatas| && NormalizeEach(rdatas[..n]).Err?
    ensures NormalizeEach(rdatas) == NormalizeEach(rdatas[..n])
  {
    if n < |rdatas| {
      var before := rdatas[..|rdatas| - 1];
      assert before[..n] == rdatas[..n];
      FirstErrorStays(before, n);
    } else {
      assert rdatas[..n] == rdatas;
    }
  }

  /** A TXT rdata that carries one acceptable token. */
  ghost predicate GoodRdata(rdata: Rdata) {
    && rdata.Txt? && 1 <= |Join(rdata.strings)| <= 255
    && forall i :: 0 <= i < |Join(rdata.strings)| ==> Join(rdata.strings)[i] < 128
  }

  lemma {:induction false} NormalizeEachExact(rdatas: seq<Rdata>)
    ensures NormalizeEach(rdatas).Ok? <==> forall i :: 0 <= i < |rdatas| ==> GoodRdata(rdatas[i])
    ensures NormalizeEach(rdatas).Ok? ==>
              |NormalizeEach(rdatas).value| == |rdatas| &&
              forall i :: 0 <= i < |rdatas| ==> NormalizeEach(rdatas).value[i] == Decode(Join(rdatas[i].strings))
  {
    if rdatas != [] { NormalizeEachExact(rdatas[..|rdatas| - 1]); }
  }

  // ---------------------------------------------------------------- the gate

  /** What parsing and TSIG verification make of one inbound message. */
  datatype Parsed =
    | UnknownKey | BadSignature | BadTime | BadKey | BadAlgorithm | Malformed
    | Query(hadTsig: bool, opcode: int, update: UpdateMessage)

  datatype Rcode = NOERROR | SERVFAIL | REFUSED | NOTAUTH

  /** One provider call to make.  `owner` is the canonical record name the lock is keyed by. */
  datatype Job = Job(parsed: Parsed, route: Route<Provider>, owner: Name, op: Route53.Operation)

  /** `Unverified` is a message that fails authentication or does not parse; how it is answered,
      if at all, is the business of the module `Protocol`. */
  datatype Verdict = Unverified | Reply(rcode: Rcode) | Call(job: Job)

  function TtlOf(provider: Provider): int {
    if provider.AmazonRoute53? then provider.ttl else 0
  }

  /** Everything between parsing a message and waiting for the record's lock. */
  function Admit(parsed: Parsed, table: map<Name, Route<Provider>>): Verdict {
    match parsed
    case UnknownKey | BadSignature | BadTime | BadKey | BadAlgorithm | Malformed => Unverified
    case Query(hadTsig, opcode, msg) =>
      if !hadTsig then Unverified
      else if opcode != OPCODE_UPDATE then Reply(REFUSED)
      else if msg.zones == [] then Reply(REFUSED)
      else
        var route := MatchFrom(table, Canonical(msg.zones[0]));
        if route == None then Reply(REFUSED)
        else
          var action := ValidateWriteSurface(msg, route.value);
          if action.Err? then Reply(REFUSED)
          else
            var rrset := msg.updates[0];
            var values := NormalizeTxtValues(rrset.rdatas, action.value, route.value.provider.SupportsMultivalue());
            if values.Err? then Reply(REFUSED)
            else
              Call(Job(parsed, route.value, Canonical(rrset.owner),
                       Route53.Operation(action.value, TtlOf(route.value.provider), values.value)))
  }

  /** The allowlist, stated on the request: one TXT rrset owned by the route's record, added or
      deleted, whose values are single good tokens, several only where the provider can. */
  ghost predicate Permitted(msg: UpdateMessage, route: Route<Provider>) {
    && |msg.updates| == 1
    && var rrset := msg.updates[0];
       && rrset.rdtype == 16
       && Canonical(rrset.owner) == route.recordName
       && rrset.deleting in {None, Some(254), Some(255)}
       && (rrset.rdatas == [] ==> rrset.deleting != None)
       && (|rrset.rdatas| > 1 ==> route.provider.AmazonRoute53?)
       && forall i :: 0 <= i < |rrset.rdatas| ==> GoodRdata(rrset.rdatas[i])
  }

  /** A message leads to a provider call exactly when it is a verified UPDATE for
      a configured zone that keeps to the allowlist; everything else is answered or dropped. */
  lemma AdmitsExactlyPermitted(parsed: Parsed, table: map<Name, Route<Provider>>)
    ensures Admit(parsed, table).Call? <==>
              && parsed.Query? && parsed.hadTsig && parsed.opcode == 5 && parsed.update.zones != []
              && var route := MatchFrom(table, Canonical(parsed.update.zones[0]));
                 route.Some? && Permitted(parsed.update, route.value)
  {
    if parsed.Query? && |parsed.update.updates| == 1 {
      NormalizeEachExact(parsed.update.updates[0].rdatas);
    }
  }

  /** What any admitted call is entitled to do. */
  ghost predicate Entitled(job: Job) {
    && job.parsed.Query? && job.parsed.hadTsig && job.parsed.opcode == 5
    && |job.parsed.update.updates| == 1
    && var rrset := job.parsed.update.updates[0];
       && rrset.rdtype == 16
       && job.owner == Canonical(rrset.owner) == job.route.recordName
       && (job.op.action == Route53.Present <==> rrset.deleting == None)
       && |job.op.tokens| == |rrset.rdatas|
       && (job.op.action == Route53.Present ==> job.op.tokens != [])
       && (job.route.provider.HurricaneElectric? ==> |job.op.tokens| <= 1)
       && (job.route.provider.AmazonRoute53? ==> job.op.ttl == job.route.provider.ttl)
       && (forall i :: 0 <= i < |rrset.rdatas| ==>
             GoodRdata(rrset.rdatas[i]) && job.op.tokens[i] == Decode(Join(rrset.rdatas[i].strings)))
  }

  lemma AdmittedIsEntitled(parsed: Parsed, table: map<Name, Route<Provider>>)
    requires Admit(parsed, table).Call?
    ensures var job := Admit(parsed, table).job;
            && Entitled(job) && job.parsed == parsed
            && Some(job.route) == MatchFrom(table, Canonical(parsed.update.zones[0]))
  {
    NormalizeEachExact(parsed.update.updates[0].rdatas);
  }
}

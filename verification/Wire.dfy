/** Recovering the request context straight from the wire
    (`_extract_tsig_context`, src/astropath/data_plane/protocol.py:79-109).

    The walk is over a byte cursor: header, questions, then every record, remembering the owner
    and MAC of the last TSIG record.  Reading a name follows compression pointers, each strictly
    before the last, and resumes after the furthest byte read, as the cursor library does. */
module Wire {
  import opened Wrappers
  import opened Names

  type Bytes = seq<byte>

  const TSIG := 250
  const MAX_NAME := 255
  /** The cursor library refuses a TSIG error field that is not an extended rcode. */
  const MAX_RCODE := 4095

  // ---------------------------------------------------------------- reading

  function U16At(wire: Bytes, pos: nat): nat
    requires pos + 2 <= |wire|
  {
    wire[pos] as int * 256 + wire[pos + 1] as int
  }

  function WireLength(n: Name): nat {
    if n == [] then 1 else |n[0]| + 1 + WireLength(n[1..])
  }

  datatype NameRead = NameRead(name: Name, next: nat)

  /** Labels from `cur` up to a zero byte.  `biggest` bounds the next pointer target, `far` is
      one past the furthest byte read so far. */
  function ReadLabels(wire: Bytes, end: nat, cur: nat, biggest: nat, far: nat): (r: Option<NameRead>)
    requires far <= end <= |wire|
    ensures r.Some? ==> far <= r.value.next <= end && (cur >= far ==> far < r.value.next)
    decreases biggest, end - cur
  {
    if cur >= end then None
    else
      var count := wire[cur] as int;
      var far' := if far < cur + 1 then cur + 1 else far;
      if count == 0 then Some(NameRead([], far'))
      else if count < 64 then
        if cur + 1 + count > end then None
        else
          var after := cur + 1 + count;
          var rest := ReadLabels(wire, end, after, biggest, if far' < after then after else far');
          if rest == None then None
          else Some(NameRead([wire[cur + 1..after]] + rest.value.name, rest.value.next))
      else if count >= 192 then
        if cur + 2 > end then None
        else
          var target := (count - 192) * 256 + wire[cur + 1] as int;
          if target >= biggest || target > end then None
          else ReadLabels(wire, end, target, target, if far' < cur + 2 then cur + 2 else far')
      else None
  }

  /** A name that starts at `pos`; names of more than 255 octets are refused. */
  function ReadName(wire: Bytes, end: nat, pos: nat): (r: Option<NameRead>)
    requires pos <= end <= |wire|
    ensures r.Some? ==> pos < r.value.next <= end
  {
    var read := ReadLabels(wire, end, pos, pos, pos);
    if read.Some? && WireLength(read.value.name) <= MAX_NAME then read else None
  }

  predicate ShortLabels(n: Name) {
    forall i :: 0 <= i < |n| ==> 1 <= |n[i]| <= 63
  }

  lemma OneMoreShort(l: Label, rest: Name)
    requires 1 <= |l| <= 63 && ShortLabels(rest)
    ensures ShortLabels([l] + rest)
  {
  }

  lemma {:induction false} LabelsAreShort(wire: Bytes, end: nat, cur: nat, biggest: nat, far: nat)
    requires far <= end <= |wire| && ReadLabels(wire, end, cur, biggest, far).Some?
    ensures ShortLabels(ReadLabels(wire, end, cur, biggest, far).value.name)
    decreases biggest, end - cur
  {
    var count := wire[cur] as int;
    var far' := if far < cur + 1 then cur + 1 else far;
    if 0 < count < 64 {
      var after := cur + 1 + count;
      var far2 := if far' < after then after else far';
      LabelsAreShort(wire, end, after, biggest, far2);
      OneMoreShort(wire[cur + 1..after], ReadLabels(wire, end, after, biggest, far2).value.name);
    } else if count >= 192 {
      var target := (count - 192) * 256 + wire[cur + 1] as int;
      LabelsAreShort(wire, end, target, target, if far' < cur + 2 then cur + 2 else far');
    }
  }

  /** Whatever the bytes, a name read has labels of 1 to 63 octets and at most 255 in all. */
  lemma NamesAreShort(wire: Bytes, end: nat, pos: nat)
    requires pos <= end <= |wire| && ReadName(wire, end, pos).Some?
    ensures WireLength(ReadName(wire, end, pos).value.name) <= 255 && ShortLabels(ReadName(wire, end, pos).value.name)
  {
    LabelsAreShort(wire, end, pos, pos, pos);
  }

  /** A two-byte length and that many bytes. */
  function ReadCounted(wire: Bytes, end: nat, pos: nat): (r: Option<Bytes>)
    requires pos <= end <= |wire|
    ensures r.Some? ==> pos + 2 + |r.value| <= end
  {
    if pos + 2 > end || pos + 2 + U16At(wire, pos) > end then None
    else Some(wire[pos + 2..pos + 2 + U16At(wire, pos)])
  }

  /** The MAC of a TSIG rdata that fills `pos..end` exactly. */
  function ReadTsigMac(wire: Bytes, end: nat, pos: nat): Option<Bytes>
    requires pos <= end <= |wire|
  {
    var algorithm := ReadName(wire, end, pos);
    if algorithm == None then None
    else
      var p := algorithm.value.next + 8;  // time signed, fudge
      if p > end then None
      else
        var mac := ReadCounted(wire, end, p);
        if mac == None then None
        else
          var q := p + 2 + |mac.value|;  // original id, error
          if q + 4 > end then None
          else
            var other := ReadCounted(wire, end, q + 4);
            if other == None || q + 4 + 2 + |other.value| != end || U16At(wire, q + 2) > MAX_RCODE then None
            else mac
  }

  /** A TSIG rdata is accepted exactly when its fields fill it to the last byte and its error is an
      extended rcode; `p` is where the name of the algorithm ends. */
  lemma TsigFillsRdata(wire: Bytes, end: nat, pos: nat, algorithm: Name, p: nat)
    requires pos <= end <= |wire| && ReadName(wire, end, pos) == Some(NameRead(algorithm, p))
    ensures ReadTsigMac(wire, end, pos).Some? <==>
            p + 10 <= end && p + 16 + U16At(wire, p + 8) <= end &&
            var q := p + 10 + U16At(wire, p + 8);
            q + 6 + U16At(wire, q + 4) == end && U16At(wire, q + 2) <= 4095
    ensures ReadTsigMac(wire, end, pos).Some? ==>
              p + 10 + U16At(wire, p + 8) <= end
              && ReadTsigMac(wire, end, pos).value == wire[p + 10..p + 10 + U16At(wire, p + 8)]
  {
  }

  datatype Key = Key(owner: Name, mac: Bytes)

  datatype RecordRead = RecordRead(key: Option<Key>, next: nat)

  /** One record: where the next one starts, and its owner and MAC if it is a TSIG. */
  function ReadRecord(wire: Bytes, pos: nat): (r: Option<RecordRead>)
    requires pos <= |wire|
    ensures r.Some? ==> pos < r.value.next <= |wire|
  {
    var owner := ReadName(wire, |wire|, pos);
    if owner == None || owner.value.next + 10 > |wire| then None
    else
      var p := owner.value.next;
      var start, rdlen := p + 10, U16At(wire, p + 8);
      if start + rdlen > |wire| then None
      else if U16At(wire, p) != TSIG then Some(RecordRead(None, start + rdlen))
      else
        var mac := ReadTsigMac(wire, start + rdlen, start);
        if mac == None then None else Some(RecordRead(Some(Key(owner.value.name, mac.value)), start + rdlen))
  }

  function SkipQuestions(wire: Bytes, n: nat, pos: nat): (r: Option<nat>)
    requires pos <= |wire|
    ensures r.Some? ==> pos <= r.value <= |wire|
  {
    if n == 0 then Some(pos)
    else
      var qname := ReadName(wire, |wire|, pos);
      if qname == None || qname.value.next + 4 > |wire| then None
      else SkipQuestions(wire, n - 1, qname.value.next + 4)
  }

  /** Walk `n` records; the outer option is failure, the inner the last TSIG seen. */
  function WalkRecords(wire: Bytes, n: nat, pos: nat, key: Option<Key>): Option<Option<Key>>
    requires pos <= |wire|
  {
    if n == 0 then Some(key)
    else
      var record := ReadRecord(wire, pos);
      if record == None then None
      else WalkRecords(wire, n - 1, record.value.next, if record.value.key.Some? then record.value.key else key)
  }

  datatype Context = Context(id: nat, opcode: nat, key: Option<Key>)

  function Extract(wire: Bytes): Option<Context> {
    if |wire| < 12 then None
    else
      var start := SkipQuestions(wire, U16At(wire, 4), 12);
      if start == None then None
      else
        var key := WalkRecords(wire, U16At(wire, 6) + U16At(wire, 8) + U16At(wire, 10), start.value, None);
        if key == None then None
        else Some(Context(U16At(wire, 0), U16At(wire, 2) / 2048 % 16, key.value))
  }

  method SkipQuestionSection(wire: Bytes, qd: nat) returns (current: Option<nat>)
    requires |wire| >= 12
    ensures current == SkipQuestions(wire, qd, 12)
  {
    var at: nat, i: nat := 12, 0;
    while i < qd
      invariant i <= qd && at <= |wire|
      invariant SkipQuestions(wire, qd - i, at) == SkipQuestions(wire, qd, 12)
    {
      var qname := ReadName(wire, |wire|, at);
      if qname == None || qname.value.next + 4 > |wire| {
        return None;
      }
      at := qname.value.next + 4;
      i := i + 1;
    }
    return Some(at);
  }

  method WalkRecordSections(wire: Bytes, records: nat, start: nat) returns (last: Option<Option<Key>>)
    requires start <= |wire|
    ensures last == WalkRecords(wire, records, start, None)
  {
    var at: nat, key: Option<Key>, i: nat := start, None, 0;
    while i < records
      invariant i <= records && at <= |wire|
      invariant WalkRecords(wire, records - i, at, key) == WalkRecords(wire, records, start, None)
    {
      var record := ReadRecord(wire, at);
      if record == None {
        return None;
      }
      if record.value.key.Some? {
        key := record.value.key;
      }
      at := record.value.next;
      i := i + 1;
    }
    return Some(key);
  }

  /** The walk itself.  Every index is in bounds, on any bytes. */
  method ExtractTsigContext(wire: Bytes) returns (ctx: Option<Context>)
    ensures ctx == Extract(wire)
  {
    if |wire| < 12 {
      return None;
    }
    var id, flags, qd := U16At(wire, 0), U16At(wire, 2), U16At(wire, 4);
    var records := U16At(wire, 6) + U16At(wire, 8) + U16At(wire, 10);
    var start := SkipQuestionSection(wire, qd);
    if start == None {
      return None;
    }
    var key := WalkRecordSections(wire, records, start.value);
    if key == None {
      return None;
    }
    return Some(Context(id, flags / 2048 % 16, key.value));
  }

  // ---------------------------------------------------------------- encoding (RFC 1035, 2136, 8945)

  function U16(n: nat): (r: Bytes)
    requires n < 0x1_0000
    ensures |r| == 2
  {
    [n / 256, n % 256]
  }

  function U32(n: nat): (r: Bytes)
    requires n < 0x1_0000_0000
    ensures |r| == 4
  {
    U16(n / 0x1_0000) + U16(n % 0x1_0000)
  }

  /** Network byte order: section 2.3.2 of RFC 1035. */
  lemma MostSignificantFirst(n: nat, wire: Bytes, pos: nat)
    requires n < 0x1_0000 && pos + 2 <= |wire|
    ensures U16(n)[0] as int * 256 + U16(n)[1] as int == n
    ensures wire[pos..pos + 2] == U16(n) ==> U16At(wire, pos) == n
  {
    assert wire[pos..pos + 2][0] == wire[pos] && wire[pos..pos + 2][1] == wire[pos + 1];
  }

  predicate EncodableName(n: Name) {
    WireLength(n) <= 255 && forall i :: 0 <= i < |n| ==> 1 <= |n[i]| < 64
  }

  function EncodeName(n: Name): (r: Bytes)
    requires forall i :: 0 <= i < |n| ==> 1 <= |n[i]| < 64
    ensures |r| == WireLength(n)
  {
    if n == [] then [0] else [|n[0]|] + n[0] + EncodeName(n[1..])
  }

  datatype Question = Question(qname: Name, qtype: nat, qclass: nat)

  /** Section 4.2 of RFC 8945. */
  datatype TsigData = TsigData(
    algorithm: Name, timeSigned: Bytes, fudge: nat, mac: Bytes, originalId: nat, error: nat, other: Bytes)

  datatype Rdata = Tsig(tsig: TsigData) | Opaque(rtype: nat, bytes: Bytes)

  datatype Record = Record(owner: Name, rclass: nat, ttl: nat, rdata: Rdata)

  datatype Message = Message(
    id: nat, flags: nat,
    questions: seq<Question>, answers: seq<Record>, authority: seq<Record>, additional: seq<Record>)

  predicate EncodableTsig(t: TsigData) {
    && EncodableName(t.algorithm) && |t.timeSigned| == 6 && t.fudge < 0x1_0000
    && |t.mac| < 0x1_0000 && t.originalId < 0x1_0000 && t.error < 0x1_0000 && |t.other| < 0x1_0000
  }

  function Counted(b: Bytes): (r: Bytes)
    requires |b| < 0x1_0000
    ensures |r| == 2 + |b|
  {
    U16(|b|) + b
  }

  function EncodeTsigTail(t: TsigData): (r: Bytes)
    requires EncodableTsig(t)
    ensures |r| == 6 + |t.other|
  {
    U16(t.originalId) + U16(t.error) + Counted(t.other)
  }

  function TsigLength(t: TsigData): nat {
    WireLength(t.algorithm) + 16 + |t.mac| + |t.other|
  }

  function EncodeTsig(t: TsigData): (r: Bytes)
    requires EncodableTsig(t)
    ensures |r| == TsigLength(t)
  {
    EncodeName(t.algorithm) + (t.timeSigned + U16(t.fudge) + (Counted(t.mac) + EncodeTsigTail(t)))
  }

  predicate EncodableRecord(r: Record) {
    && EncodableName(r.owner) && r.rclass < 0x1_0000 && r.ttl < 0x1_0000_0000
    && match r.rdata
       case Tsig(t) => EncodableTsig(t) && TsigLength(t) < 0x1_0000
       case Opaque(rtype, bytes) => rtype < 0x1_0000 && rtype != 250 && |bytes| < 0x1_0000
  }

  function EncodeRdata(r: Record): (b: Bytes)
    requires EncodableRecord(r)
    ensures |b| < 0x1_0000
  {
    match r.rdata
    case Tsig(t) => EncodeTsig(t)
    case Opaque(_, bytes) => bytes
  }

  function TypeOf(r: Record): nat {
    if r.rdata.Tsig? then 250 else r.rdata.rtype
  }

  function EncodeFixed(r: Record): (b: Bytes)
    requires EncodableRecord(r)
    ensures |b| == 10
  {
    U16(TypeOf(r)) + U16(r.rclass) + U32(r.ttl) + U16(|EncodeRdata(r)|)
  }

  function EncodeRecord(r: Record): (b: Bytes)
    requires EncodableRecord(r)
    ensures |b| == WireLength(r.owner) + 10 + |EncodeRdata(r)|
  {
    EncodeName(r.owner) + (EncodeFixed(r) + EncodeRdata(r))
  }

  predicate EncodableQuestion(q: Question) {
    EncodableName(q.qname) && q.qtype < 0x1_0000 && q.qclass < 0x1_0000
  }

  function EncodeQuestion(q: Question): (b: Bytes)
    requires EncodableQuestion(q)
  {
    EncodeName(q.qname) + (U16(q.qtype) + U16(q.qclass))
  }

  predicate EncodableQuestions(qs: seq<Question>) {
    qs == [] || (EncodableQuestion(qs[0]) && EncodableQuestions(qs[1..]))
  }

  predicate EncodableRecords(rs: seq<Record>) {
    rs == [] || (EncodableRecord(rs[0]) && EncodableRecords(rs[1..]))
  }

  function EncodeQuestions(qs: seq<Question>): Bytes
    requires EncodableQuestions(qs)
  {
    if qs == [] then [] else EncodeQuestion(qs[0]) + EncodeQuestions(qs[1..])
  }

  function EncodeRecords(rs: seq<Record>): Bytes
    requires EncodableRecords(rs)
  {
    if rs == [] then [] else EncodeRecord(rs[0]) + EncodeRecords(rs[1..])
  }

  function Records(m: Message): seq<Record> {
    m.answers + m.authority + m.additional
  }

  predicate Encodable(m: Message) {
    && m.id < 0x1_0000 && m.flags < 0x1_0000
    && |m.questions| < 0x1_0000 && |m.answers| < 0x1_0000 && |m.authority| < 0x1_0000 && |m.additional| < 0x1_0000
    && EncodableQuestions(m.questions) && EncodableRecords(Records(m))
  }

  function EncodeHeader(m: Message): (b: Bytes)
    requires Encodable(m)
    ensures |b| == 12
  {
    U16(m.id) + U16(m.flags) + U16(|m.questions|) + U16(|m.answers|) + U16(|m.authority|) + U16(|m.additional|)
  }

  function Encode(m: Message): Bytes
    requires Encodable(m)
  {
    EncodeHeader(m) + (EncodeQuestions(m.questions) + EncodeRecords(Records(m)))
  }

  function Opcode(m: Message): nat { m.flags / 2048 % 16 }

  /** The opcode is bits 1 to 4 of the flags word: section 4.1.1 of RFC 1035. */
  lemma OpcodeIsItsBits(m: Message, response: nat, opcode: nat, rest: nat)
    requires response < 2 && opcode < 16 && rest < 2048
    requires m.flags == response * 32768 + opcode * 2048 + rest
    ensures Opcode(m) == opcode
  {
    assert m.flags / 2048 == response * 16 + opcode;
  }

  /** A TSIG record can be read when its error field is an rcode. */
  predicate ReadableRecord(r: Record) {
    r.rdata.Tsig? ==> r.rdata.tsig.error <= 4095
  }

  predicate Readable(rs: seq<Record>) {
    rs == [] || (ReadableRecord(rs[0]) && Readable(rs[1..]))
  }

  function KeyOf(r: Record): Option<Key> {
    if r.rdata.Tsig? then Some(Key(r.owner, r.rdata.tsig.mac)) else None
  }

  /** Owner and MAC of the last TSIG record, or `before` when there is none. */
  function LastKey(rs: seq<Record>, before: Option<Key>): Option<Key> {
    if rs == [] then before
    else LastKey(rs[1..], if rs[0].rdata.Tsig? then KeyOf(rs[0]) else before)
  }

  // ---------------------------------------------------------------- the round trip

  ghost predicate ByteAt(wire: Bytes, pos: nat, bytes: Bytes, i: nat)
    requires i < |bytes| && pos + |bytes| <= |wire|
  {
    wire[pos + i] == bytes[i]
  }

  /** `bytes` stands in `wire` at `pos`. */
  ghost predicate At(wire: Bytes, pos: nat, bytes: Bytes) {
    pos + |bytes| <= |wire| && forall i: nat :: i < |bytes| ==> ByteAt(wire, pos, bytes, i)
  }

  lemma AtSplit(wire: Bytes, pos: nat, a: Bytes, b: Bytes)
    requires At(wire, pos, a + b)
    ensures At(wire, pos, a) && At(wire, pos + |a|, b)
  {
    var ab, second := a + b, pos + |a|;
    forall i: nat | i < |a| ensures ByteAt(wire, pos, a, i) { assert ByteAt(wire, pos, ab, i); }
    forall i: nat | i < |b| ensures ByteAt(wire, second, b, i) { assert ByteAt(wire, pos, ab, |a| + i); }
  }

  lemma AtIsSlice(wire: Bytes, pos: nat, b: Bytes)
    requires At(wire, pos, b)
    ensures wire[pos..pos + |b|] == b
  {
    var slice := wire[pos..pos + |b|];
    forall i: nat | i < |b| ensures slice[i] == b[i] { assert ByteAt(wire, pos, b, i); }
  }

  lemma AtU16(wire: Bytes, pos: nat, n: nat)
    requires n < 0x1_0000 && At(wire, pos, U16(n))
    ensures U16At(wire, pos) == n
  {
    assert ByteAt(wire, pos, U16(n), 0) && ByteAt(wire, pos, U16(n), 1);
  }

  lemma {:induction false} ReadLabelsBack(wire: Bytes, end: nat, pos: nat, biggest: nat, n: Name)
    requires forall i :: 0 <= i < |n| ==> 1 <= |n[i]| < 64
    requires pos + WireLength(n) <= end <= |wire| && At(wire, pos, EncodeName(n))
    ensures ReadLabels(wire, end, pos, biggest, pos) == Some(NameRead(n, pos + WireLength(n)))
    decreases |n|
  {
    if n == [] {
      assert ByteAt(wire, pos, EncodeName(n), 0);
    } else {
      var l := n[0];
      AtSplit(wire, pos, [|l|] + l, EncodeName(n[1..]));
      AtSplit(wire, pos, [|l|], l);
      assert ByteAt(wire, pos, [|l|], 0);
      AtIsSlice(wire, pos + 1, l);
      ReadLabelsBack(wire, end, pos + 1 + |l|, biggest, n[1..]);
      assert [l] + n[1..] == n;
    }
  }

  lemma ReadNameBack(wire: Bytes, end: nat, pos: nat, n: Name)
    requires EncodableName(n) && pos + WireLength(n) <= end <= |wire| && At(wire, pos, EncodeName(n))
    ensures ReadName(wire, end, pos) == Some(NameRead(n, pos + WireLength(n)))
  {
    ReadLabelsBack(wire, end, pos, pos, n);
  }

  // ---------------------------------------------------------------- compressed names

  predicate ValidLabels(n: Name) {
    forall i :: 0 <= i < |n| ==> 1 <= |n[i]| < 64
  }

  /** Labels without the final zero, and a pointer to where a name goes on. */
  function EncodeLabels(n: Name): (r: Bytes)
    requires ValidLabels(n)
    ensures |r| + 1 == WireLength(n)
  {
    if n == [] then [] else [|n[0]|] + n[0] + EncodeLabels(n[1..])
  }

  function Pointer(target: nat): (r: Bytes)
    requires target < 0x4000
    ensures |r| == 2
  {
    [192 + target / 256, target % 256]
  }

  /** A name that ends before what has been read already is read without moving on. */
  lemma {:induction false} ReadBehind(wire: Bytes, end: nat, cur: nat, biggest: nat, far: nat, n: Name)
    requires ValidLabels(n) && cur + WireLength(n) <= far <= end <= |wire| && At(wire, cur, EncodeName(n))
    ensures ReadLabels(wire, end, cur, biggest, far) == Some(NameRead(n, far))
    decreases |n|
  {
    if n == [] {
      assert ByteAt(wire, cur, EncodeName(n), 0);
    } else {
      var l := n[0];
      AtSplit(wire, cur, [|l|] + l, EncodeName(n[1..]));
      AtSplit(wire, cur, [|l|], l);
      assert ByteAt(wire, cur, [|l|], 0);
      AtIsSlice(wire, cur + 1, l);
      ReadBehind(wire, end, cur + 1 + |l|, biggest, far, n[1..]);
      assert [l] + n[1..] == n;
    }
  }

  lemma ReadPointer(wire: Bytes, end: nat, pos: nat, biggest: nat, target: nat, tail: Name)
    requires pos + 2 <= end <= |wire| && target < 0x4000 && target < biggest && At(wire, pos, Pointer(target))
    requires ValidLabels(tail) && target + WireLength(tail) <= pos && At(wire, target, EncodeName(tail))
    ensures ReadLabels(wire, end, pos, biggest, pos) == Some(NameRead(tail, pos + 2))
  {
    assert ByteAt(wire, pos, Pointer(target), 0) && ByteAt(wire, pos, Pointer(target), 1);
    ReadBehind(wire, end, target, target, pos + 2, tail);
  }

  lemma LabelLayout(wire: Bytes, pos: nat, l: Label, rest: Bytes)
    requires 1 <= |l| < 64 && At(wire, pos, ([|l|] + l) + rest)
    ensures At(wire, pos + 1 + |l|, rest)
    ensures pos + 1 + |l| <= |wire| && wire[pos] == |l| && wire[pos + 1..pos + 1 + |l|] == l
  {
    AtSplit(wire, pos, [|l|] + l, rest);
    AtSplit(wire, pos, [|l|], l);
    assert ByteAt(wire, pos, [|l|], 0);
    AtIsSlice(wire, pos + 1, l);
  }

  /** The label `l` stands at `pos`, length byte first. */
  ghost predicate LabelAt(wire: Bytes, pos: nat, l: Label) {
    1 <= |l| < 64 && pos + 1 + |l| <= |wire| && wire[pos] == |l| && wire[pos + 1..pos + 1 + |l|] == l
  }

  lemma ReadOneLabel(wire: Bytes, end: nat, pos: nat, next: nat, biggest: nat, l: Label, rest: NameRead)
    requires LabelAt(wire, pos, l) && next == pos + 1 + |l| <= end <= |wire|
    requires ReadLabels(wire, end, next, biggest, next) == Some(rest)
    ensures ReadLabels(wire, end, pos, biggest, pos) == Some(NameRead([l] + rest.name, rest.next))
  {
  }

  /** The labels stand from `pos` up to `after`. */
  ghost predicate LabelsAt(wire: Bytes, pos: nat, after: nat, head: Name)
    decreases |head|
  {
    if head == [] then pos == after
    else LabelAt(wire, pos, head[0]) && LabelsAt(wire, pos + 1 + |head[0]|, after, head[1..])
  }

  lemma {:induction false} LabelsStand(wire: Bytes, pos: nat, head: Name)
    requires ValidLabels(head) && At(wire, pos, EncodeLabels(head))
    ensures LabelsAt(wire, pos, pos + WireLength(head) - 1, head)
    decreases |head|
  {
    if head != [] {
      var l, others := head[0], head[1..];
      FirstLabelStands(wire, pos, l, EncodeLabels(others));
      LabelsStand(wire, pos + 1 + |l|, others);
    }
  }

  lemma FirstLabelStands(wire: Bytes, pos: nat, l: Label, rest: Bytes)
    requires 1 <= |l| < 64 && At(wire, pos, [|l|] + l + rest)
    ensures LabelAt(wire, pos, l) && At(wire, pos + 1 + |l|, rest)
  {
    LabelLayout(wire, pos, l, rest);
  }

  lemma HeadFirst(head: Name, tail: Name)
    requires head != []
    ensures [head[0]] + (head[1..] + tail) == head + tail
  {
  }

  /** Reading labels goes on with whatever is read after them, at `after`. */
  lemma {:induction false} ReadLabelsThen(wire: Bytes, end: nat, pos: nat, after: nat, biggest: nat, head: Name,
                                          rest: NameRead)
    requires LabelsAt(wire, pos, after, head) && pos <= after <= end <= |wire|
    requires ReadLabels(wire, end, after, biggest, after) == Some(rest)
    ensures ReadLabels(wire, end, pos, biggest, pos) == Some(NameRead(head + rest.name, rest.next))
    decreases |head|
  {
    if head == [] {
      assert head + rest.name == rest.name;
    } else {
      var l, others := head[0], head[1..];
      var next := pos + 1 + |l|;
      LabelsEnd(wire, next, after, others);
      ReadLabelsThen(wire, end, next, after, biggest, others, rest);
      ReadOneLabel(wire, end, pos, next, biggest, l, NameRead(others + rest.name, rest.next));
      HeadFirst(head, rest.name);
    }
  }

  lemma {:induction false} LabelsEnd(wire: Bytes, pos: nat, after: nat, head: Name)
    requires LabelsAt(wire, pos, after, head)
    ensures pos <= after
    decreases |head|
  {
    if head != [] { LabelsEnd(wire, pos + 1 + |head[0]|, after, head[1..]); }
  }

  lemma CompressedLayout(wire: Bytes, pos: nat, after: nat, head: Name, target: nat)
    requires ValidLabels(head) && target < 0x4000 && after == pos + WireLength(head) - 1
    requires At(wire, pos, EncodeLabels(head) + Pointer(target))
    ensures LabelsAt(wire, pos, after, head) && At(wire, after, Pointer(target))
  {
    AtSplit(wire, pos, EncodeLabels(head), Pointer(target));
    LabelsStand(wire, pos, head);
  }

  lemma ReadLabelsAndPointer(wire: Bytes, end: nat, pos: nat, after: nat, head: Name, target: nat, tail: Name)
    requires LabelsAt(wire, pos, after, head) && target < 0x4000 && At(wire, after, Pointer(target))
    requires ValidLabels(tail) && target + WireLength(tail) <= pos <= after && after + 2 <= end <= |wire|
    requires At(wire, target, EncodeName(tail))
    ensures ReadLabels(wire, end, pos, pos, pos) == Some(NameRead(head + tail, after + 2))
  {
    ReadPointer(wire, end, after, pos, target, tail);
    ReadLabelsThen(wire, end, pos, after, pos, head, NameRead(tail, after + 2));
  }

  /** Section 4.1.4 of RFC 1035: labels followed by a pointer to an earlier name are read as the
      labels and that name, and reading goes on after the pointer, at `after + 2`. */
  lemma CompressedNameIsRead(wire: Bytes, end: nat, pos: nat, after: nat, head: Name, target: nat, tail: Name)
    requires ValidLabels(head) && ValidLabels(tail) && WireLength(head + tail) <= 255
    requires after == pos + WireLength(head) - 1 && pos <= after && after + 2 <= end <= |wire| && target < 0x4000
    requires At(wire, pos, EncodeLabels(head) + Pointer(target))
    requires target + WireLength(tail) <= pos && At(wire, target, EncodeName(tail))
    ensures ReadName(wire, end, pos) == Some(NameRead(head + tail, after + 2))
  {
    CompressedLayout(wire, pos, after, head, target);
    ReadLabelsAndPointer(wire, end, pos, after, head, target, tail);
  }

  lemma ReadCountedBack(wire: Bytes, end: nat, pos: nat, b: Bytes)
    requires |b| < 0x1_0000 && pos + 2 + |b| <= end <= |wire| && At(wire, pos, Counted(b))
    ensures ReadCounted(wire, end, pos) == Some(b)
  {
    AtSplit(wire, pos, U16(|b|), b);
    AtU16(wire, pos, |b|);
    AtIsSlice(wire, pos + 2, b);
  }

  lemma TsigTailBack(wire: Bytes, q: nat, t: TsigData)
    requires EncodableTsig(t) && At(wire, q, EncodeTsigTail(t))
    ensures U16At(wire, q + 2) == t.error
    ensures ReadCounted(wire, q + 6 + |t.other|, q + 4) == Some(t.other)
  {
    AtSplit(wire, q, U16(t.originalId) + U16(t.error), Counted(t.other));
    AtSplit(wire, q, U16(t.originalId), U16(t.error));
    AtU16(wire, q + 2, t.error);
    ReadCountedBack(wire, q + 6 + |t.other|, q + 4, t.other);
  }

  lemma TsigLayout(wire: Bytes, pos: nat, t: TsigData)
    requires EncodableTsig(t) && At(wire, pos, EncodeTsig(t))
    ensures var p := pos + WireLength(t.algorithm);
            At(wire, pos, EncodeName(t.algorithm)) && At(wire, p + 8, Counted(t.mac)) &&
            At(wire, p + 10 + |t.mac|, EncodeTsigTail(t))
  {
    var stamp, rest := t.timeSigned + U16(t.fudge), Counted(t.mac) + EncodeTsigTail(t);
    AtSplit(wire, pos, EncodeName(t.algorithm), stamp + rest);
    var p := pos + WireLength(t.algorithm);
    AtSplit(wire, p, stamp, rest);
    AtSplit(wire, p + 8, Counted(t.mac), EncodeTsigTail(t));
  }

  /** The TSIG reader put together from what each of its reads returns: the MAC starts at `p`,
      the original id at `q`. */
  lemma TsigFromParts(wire: Bytes, end: nat, pos: nat, algorithm: NameRead, p: nat, q: nat, mac: Bytes, other: Bytes,
                      error: nat)
    requires pos <= end <= |wire| && ReadName(wire, end, pos) == Some(algorithm)
    requires p == algorithm.next + 8 <= end && ReadCounted(wire, end, p) == Some(mac)
    requires q == p + 2 + |mac| && end == q + 6 + |other|
    requires U16At(wire, q + 2) == error && ReadCounted(wire, end, q + 4) == Some(other)
    ensures ReadTsigMac(wire, end, pos) == if error <= MAX_RCODE then Some(mac) else None
  {
  }

  /** A TSIG rdata at `pos..end`: its MAC starts at `p`, its original id at `q`. */
  ghost predicate TsigAt(wire: Bytes, end: nat, pos: nat, t: TsigData, p: nat, q: nat) {
    && EncodableTsig(t) && At(wire, pos, EncodeTsig(t)) && end == pos + TsigLength(t)
    && p == pos + WireLength(t.algorithm) + 8 && q == p + 2 + |t.mac|
  }

  lemma TsigAlgorithmBack(wire: Bytes, end: nat, pos: nat, t: TsigData, p: nat, q: nat)
    requires TsigAt(wire, end, pos, t, p, q)
    ensures end <= |wire| && ReadName(wire, end, pos) == Some(NameRead(t.algorithm, p - 8))
  {
    TsigLayout(wire, pos, t);
    ReadNameBack(wire, end, pos, t.algorithm);
  }

  lemma TsigMacBack(wire: Bytes, end: nat, pos: nat, t: TsigData, p: nat, q: nat)
    requires TsigAt(wire, end, pos, t, p, q)
    ensures p <= end <= |wire| && ReadCounted(wire, end, p) == Some(t.mac)
  {
    TsigLayout(wire, pos, t);
    ReadCountedBack(wire, end, p, t.mac);
  }

  lemma TsigEndBack(wire: Bytes, end: nat, pos: nat, t: TsigData, p: nat, q: nat)
    requires TsigAt(wire, end, pos, t, p, q)
    ensures end == q + 6 + |t.other| <= |wire| && U16At(wire, q + 2) == t.error
              && ReadCounted(wire, end, q + 4) == Some(t.other)
  {
    TsigLayout(wire, pos, t);
    TsigTailBack(wire, q, t);
  }

  lemma ReadTsigBack(wire: Bytes, end: nat, pos: nat, t: TsigData)
    requires EncodableTsig(t) && At(wire, pos, EncodeTsig(t)) && end == pos + TsigLength(t)
    ensures end <= |wire| && ReadTsigMac(wire, end, pos) == if t.error <= MAX_RCODE then Some(t.mac) else None
  {
    var p := pos + WireLength(t.algorithm) + 8;
    var q := p + 2 + |t.mac|;
    TsigAlgorithmBack(wire, end, pos, t, p, q);
    TsigMacBack(wire, end, pos, t, p, q);
    TsigEndBack(wire, end, pos, t, p, q);
    TsigFromParts(wire, end, pos, NameRead(t.algorithm, p - 8), p, q, t.mac, t.other, t.error);
  }

  lemma FixedBack(wire: Bytes, p: nat, r: Record)
    requires EncodableRecord(r) && At(wire, p, EncodeFixed(r))
    ensures U16At(wire, p) == TypeOf(r) && U16At(wire, p + 8) == |EncodeRdata(r)|
  {
    AtSplit(wire, p, U16(TypeOf(r)) + U16(r.rclass) + U32(r.ttl), U16(|EncodeRdata(r)|));
    AtSplit(wire, p, U16(TypeOf(r)) + U16(r.rclass), U32(r.ttl));
    AtSplit(wire, p, U16(TypeOf(r)), U16(r.rclass));
    AtU16(wire, p, TypeOf(r));
    AtU16(wire, p + 8, |EncodeRdata(r)|);
  }

  lemma RecordLayout(wire: Bytes, pos: nat, r: Record)
    requires EncodableRecord(r) && At(wire, pos, EncodeRecord(r))
    ensures var p := pos + WireLength(r.owner);
            At(wire, pos, EncodeName(r.owner)) && At(wire, p, EncodeFixed(r)) && At(wire, p + 10, EncodeRdata(r))
  {
    AtSplit(wire, pos, EncodeName(r.owner), EncodeFixed(r) + EncodeRdata(r));
    AtSplit(wire, pos + WireLength(r.owner), EncodeFixed(r), EncodeRdata(r));
  }

  /** A record from its fields; `mac` is what its rdata gives when it is a TSIG. */
  function RecordFrom(owner: Name, rtype: nat, mac: Option<Bytes>, next: nat): Option<RecordRead> {
    if rtype != TSIG then Some(RecordRead(None, next))
    else if mac == None then None
    else Some(RecordRead(Some(Key(owner, mac.value)), next))
  }

  lemma RecordFromParts(wire: Bytes, pos: nat, owner: Name, p: nat, start: nat, next: nat, rtype: nat,
                        mac: Option<Bytes>)
    requires pos <= |wire| && ReadName(wire, |wire|, pos) == Some(NameRead(owner, p))
    requires start == p + 10 <= next <= |wire| && U16At(wire, p) == rtype && U16At(wire, p + 8) == next - start
    requires rtype == TSIG ==> ReadTsigMac(wire, next, start) == mac
    ensures ReadRecord(wire, pos) == RecordFrom(owner, rtype, mac, next)
  {
  }

  /** A record at `pos`: its owner ends at `p`, its rdata fills `start..next`. */
  ghost predicate RecordAt(wire: Bytes, pos: nat, r: Record, p: nat, start: nat, next: nat) {
    && EncodableRecord(r) && At(wire, pos, EncodeRecord(r))
    && p == pos + WireLength(r.owner) && start == p + 10 && next == start + |EncodeRdata(r)|
  }

  lemma RecordHeadBack(wire: Bytes, pos: nat, r: Record, p: nat, start: nat, next: nat)
    requires RecordAt(wire, pos, r, p, start, next)
    ensures ReadName(wire, |wire|, pos) == Some(NameRead(r.owner, p))
    ensures next <= |wire| && U16At(wire, p) == TypeOf(r) && U16At(wire, p + 8) == next - start
  {
    RecordLayout(wire, pos, r);
    ReadNameBack(wire, |wire|, pos, r.owner);
    FixedBack(wire, p, r);
  }

  function MacOf(r: Record): Option<Bytes> {
    if r.rdata.Tsig? && ReadableRecord(r) then Some(r.rdata.tsig.mac) else None
  }

  lemma TsigRdataAt(wire: Bytes, pos: nat, r: Record, p: nat, start: nat, next: nat)
    requires RecordAt(wire, pos, r, p, start, next) && r.rdata.Tsig?
    ensures At(wire, start, EncodeTsig(r.rdata.tsig)) && next == start + TsigLength(r.rdata.tsig)
  {
    RecordLayout(wire, pos, r);
  }

  lemma RdataBack(wire: Bytes, pos: nat, r: Record, p: nat, start: nat, next: nat)
    requires RecordAt(wire, pos, r, p, start, next) && r.rdata.Tsig?
    ensures next <= |wire| && ReadTsigMac(wire, next, start) == MacOf(r)
  {
    TsigRdataAt(wire, pos, r, p, start, next);
    ReadTsigBack(wire, next, start, r.rdata.tsig);
  }

  lemma RecordOf(r: Record, next: nat)
    requires EncodableRecord(r)
    ensures RecordFrom(r.owner, TypeOf(r), MacOf(r), next) ==
              if ReadableRecord(r) then Some(RecordRead(KeyOf(r), next)) else None
  {
  }

  lemma RecordFieldsBack(wire: Bytes, pos: nat, r: Record, p: nat, start: nat, next: nat)
    requires RecordAt(wire, pos, r, p, start, next)
    ensures ReadRecord(wire, pos) == RecordFrom(r.owner, TypeOf(r), MacOf(r), next)
  {
    RecordHeadBack(wire, pos, r, p, start, next);
    if r.rdata.Tsig? { RdataBack(wire, pos, r, p, start, next); }
    RecordFromParts(wire, pos, r.owner, p, start, next, TypeOf(r), MacOf(r));
  }

  lemma ReadRecordBack(wire: Bytes, pos: nat, r: Record)
    requires EncodableRecord(r) && At(wire, pos, EncodeRecord(r))
    ensures ReadRecord(wire, pos) ==
              if ReadableRecord(r) then Some(RecordRead(KeyOf(r), pos + |EncodeRecord(r)|)) else None
  {
    var p, next := pos + WireLength(r.owner), pos + |EncodeRecord(r)|;
    RecordFieldsBack(wire, pos, r, p, p + 10, next);
    RecordOf(r, next);
  }

  lemma {:induction false} SkipQuestionsBack(wire: Bytes, pos: nat, qs: seq<Question>)
    requires EncodableQuestions(qs)
    requires At(wire, pos, EncodeQuestions(qs))
    ensures SkipQuestions(wire, |qs|, pos) == Some(pos + |EncodeQuestions(qs)|)
    decreases |qs|
  {
    if qs != [] {
      var q := qs[0];
      AtSplit(wire, pos, EncodeQuestion(q), EncodeQuestions(qs[1..]));
      AtSplit(wire, pos, EncodeName(q.qname), U16(q.qtype) + U16(q.qclass));
      ReadNameBack(wire, |wire|, pos, q.qname);
      SkipQuestionsBack(wire, pos + |EncodeQuestion(q)|, qs[1..]);
    }
  }

  /** A record's encoding and what reading it yields: failure, no TSIG, or its key. */
  datatype Mark = Mark(chunk: Bytes, reading: Option<Option<Key>>)

  /** Reading at `pos` yields what the mark says. */
  ghost predicate ReadsAt(wire: Bytes, pos: nat, mark: Mark)
    requires pos <= |wire|
  {
    ReadRecord(wire, pos) ==
      if mark.reading == None then None else Some(RecordRead(mark.reading.value, pos + |mark.chunk|))
  }

  ghost predicate ReadsAs(mark: Mark) {
    forall wire: Bytes, pos: nat :: At(wire, pos, mark.chunk) ==> ReadsAt(wire, pos, mark)
  }

  function MarkOf(r: Record): Mark
    requires EncodableRecord(r)
  {
    Mark(EncodeRecord(r), if ReadableRecord(r) then Some(KeyOf(r)) else None)
  }

  lemma MarkReads(r: Record, mark: Mark)
    requires EncodableRecord(r) && mark == MarkOf(r)
    ensures ReadsAs(mark)
  {
    forall wire: Bytes, pos: nat | At(wire, pos, mark.chunk) ensures ReadsAt(wire, pos, mark) {
      ReadRecordBack(wire, pos, r);
    }
  }

  function Flatten(marks: seq<Mark>): Bytes {
    if marks == [] then [] else marks[0].chunk + Flatten(marks[1..])
  }

  function Outcome(marks: seq<Mark>, key: Option<Key>): Option<Option<Key>> {
    if marks == [] then Some(key)
    else if marks[0].reading == None then None
    else Outcome(marks[1..], if marks[0].reading.value.Some? then marks[0].reading.value else key)
  }

  ghost predicate AllRead(marks: seq<Mark>) {
    forall mark :: mark in marks ==> ReadsAs(mark)
  }

  lemma {:induction false} WalkMarks(wire: Bytes, pos: nat, marks: seq<Mark>, key: Option<Key>)
    requires AllRead(marks) && At(wire, pos, Flatten(marks))
    ensures WalkRecords(wire, |marks|, pos, key) == Outcome(marks, key)
    decreases |marks|
  {
    if marks != [] {
      var first, rest := marks[0], marks[1..];
      AtSplit(wire, pos, first.chunk, Flatten(rest));
      WalkOne(wire, pos, first, |rest|, key);
      if first.reading.Some? {
        assert AllRead(rest);
        WalkMarks(wire, pos + |first.chunk|, rest, if first.reading.value.Some? then first.reading.value else key);
      }
    }
  }

  lemma WalkOne(wire: Bytes, pos: nat, mark: Mark, n: nat, key: Option<Key>)
    requires ReadsAs(mark) && At(wire, pos, mark.chunk)
    ensures WalkRecords(wire, n + 1, pos, key) ==
              if mark.reading == None then None
              else WalkRecords(wire, n, pos + |mark.chunk|,
                               if mark.reading.value.Some? then mark.reading.value else key)
  {
    assert ReadsAt(wire, pos, mark);
  }

  lemma {:induction false} MarksOf(rs: seq<Record>, key: Option<Key>) returns (marks: seq<Mark>)
    requires EncodableRecords(rs)
    ensures |marks| == |rs| && Flatten(marks) == EncodeRecords(rs)
    ensures AllRead(marks)
    ensures Outcome(marks, key) == if Readable(rs) then Some(LastKey(rs, key)) else None
    decreases |rs|
  {
    if rs == [] {
      marks := [];
    } else {
      MarkReads(rs[0], MarkOf(rs[0]));
      var rest := MarksOf(rs[1..], if rs[0].rdata.Tsig? then KeyOf(rs[0]) else key);
      marks := [MarkOf(rs[0])] + rest;
      assert marks[1..] == rest;
    }
  }

  lemma WalkRecordsBack(wire: Bytes, pos: nat, rs: seq<Record>, key: Option<Key>)
    requires EncodableRecords(rs) && At(wire, pos, EncodeRecords(rs))
    ensures WalkRecords(wire, |rs|, pos, key) == if Readable(rs) then Some(LastKey(rs, key)) else None
  {
    var marks := MarksOf(rs, key);
    WalkMarks(wire, pos, marks, key);
  }

  lemma WholeAt(wire: Bytes)
    ensures At(wire, 0, wire)
  {
    assert forall i: nat :: i < |wire| ==> ByteAt(wire, 0, wire, i);
  }

  lemma HeaderBack(m: Message, wire: Bytes)
    requires Encodable(m) && At(wire, 0, EncodeHeader(m))
    ensures U16At(wire, 0) == m.id && U16At(wire, 2) == m.flags && U16At(wire, 4) == |m.questions|
    ensures U16At(wire, 6) == |m.answers| && U16At(wire, 8) == |m.authority| && U16At(wire, 10) == |m.additional|
  {
    var front := U16(m.id) + U16(m.flags) + U16(|m.questions|);
    AtSplit(wire, 0, front + U16(|m.answers|) + U16(|m.authority|), U16(|m.additional|));
    AtSplit(wire, 0, front + U16(|m.answers|), U16(|m.authority|));
    AtSplit(wire, 0, front, U16(|m.answers|));
    AtSplit(wire, 0, U16(m.id) + U16(m.flags), U16(|m.questions|));
    AtSplit(wire, 0, U16(m.id), U16(m.flags));
    AtU16(wire, 0, m.id);
    AtU16(wire, 2, m.flags);
    AtU16(wire, 4, |m.questions|);
    AtU16(wire, 6, |m.answers|);
    AtU16(wire, 8, |m.authority|);
    AtU16(wire, 10, |m.additional|);
  }

  /** The three parts of an encoded message stand where the walk looks for them. */
  lemma MessageLayout(m: Message)
    requires Encodable(m)
    ensures var wire := Encode(m);
            At(wire, 0, EncodeHeader(m)) && At(wire, 12, EncodeQuestions(m.questions)) &&
            At(wire, 12 + |EncodeQuestions(m.questions)|, EncodeRecords(Records(m)))
  {
    WholeAt(Encode(m));
    AtSplit(Encode(m), 0, EncodeHeader(m), EncodeQuestions(m.questions) + EncodeRecords(Records(m)));
    AtSplit(Encode(m), 12, EncodeQuestions(m.questions), EncodeRecords(Records(m)));
  }

  lemma SectionsBack(m: Message, wire: Bytes, first: nat)
    requires Encodable(m) && first == 12 + |EncodeQuestions(m.questions)|
    requires At(wire, 12, EncodeQuestions(m.questions)) && At(wire, first, EncodeRecords(Records(m)))
    ensures SkipQuestions(wire, |m.questions|, 12) == Some(first)
    ensures WalkRecords(wire, |Records(m)|, first, None) ==
              if Readable(Records(m)) then Some(LastKey(Records(m), None)) else None
  {
    SkipQuestionsBack(wire, 12, m.questions);
    WalkRecordsBack(wire, first, Records(m), None);
  }

  lemma ExtractParts(wire: Bytes, qd: nat, records: nat, first: nat, last: Option<Option<Key>>)
    requires |wire| >= 12 && first <= |wire|
    requires qd == U16At(wire, 4) && records == U16At(wire, 6) + U16At(wire, 8) + U16At(wire, 10)
    requires SkipQuestions(wire, qd, 12) == Some(first) && WalkRecords(wire, records, first, None) == last
    ensures Extract(wire) ==
              if last == None then None else Some(Context(U16At(wire, 0), U16At(wire, 2) / 2048 % 16, last.value))
  {
  }

  /** For every message with uncompressed names, the walk over its encoding
      recovers its id, its opcode and the owner and MAC of its last TSIG record (nothing when it
      has none), exactly when every TSIG error field is an rcode; otherwise it gives up. */
  lemma ExtractRoundTrip(m: Message)
    requires Encodable(m)
    ensures Extract(Encode(m)) ==
              if Readable(Records(m)) then Some(Context(m.id, Opcode(m), LastKey(Records(m), None))) else None
  {
    var wire, first := Encode(m), 12 + |EncodeQuestions(m.questions)|;
    MessageLayout(m);
    HeaderBack(m, wire);
    SectionsBack(m, wire, first);
    ExtractParts(wire, |m.questions|, |Records(m)|, first, WalkRecords(wire, |Records(m)|, first, None));
  }
}

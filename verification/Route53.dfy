/** The Route 53 provider (src/astropath/providers/route53.py): one TXT record set that holds
    several challenge values, changed by read-modify-write.

    The hosted zone is the class `HostedZone`; the two operations are methods of the class
    `Route53Provider`.  What each would do to the record set, run alone, is the function
    `Alone`, and the set-algebra lemmas say what that is.  Record-set values are the quoted
    strings Route 53 stores. */
module Route53 {
  import opened Wrappers

  // ---------------------------------------------------------------- quoting

  /** Python's `s.replace(c, sub)` for a single character. */
  function Replace(s: string, c: char, sub: string): (r: string) {
    if s == "" then "" else (if s[0] == c then sub else [s[0]]) + Replace(s[1..], c, sub)
  }

  function Quote(token: string): (r: string) {
    "\"" + Replace(Replace(token, '\\', "\\\\"), '"', "\\\"") + "\""
  }

  /** Reading a character-string back: drop each escaping backslash. */
  function Unescape(s: string): (r: string) {
    if s == "" then ""
    else if s[0] == '\\' && |s| > 1 then [s[1]] + Unescape(s[2..])
    else [s[0]] + Unescape(s[1..])
  }

  lemma {:induction false} ReplaceAppend(s: string, t: string, c: char, sub: string)
    ensures Replace(s + t, c, sub) == Replace(s, c, sub) + Replace(t, c, sub)
  {
    if s == "" {
      assert s + t == t;
    } else {
      assert (s + t)[1..] == s[1..] + t;
      ReplaceAppend(s[1..], t, c, sub);
    }
  }

  lemma {:induction false} UnescapeEscaped(token: string)
    ensures Unescape(Replace(Replace(token, '\\', "\\\\"), '"', "\\\"")) == token
  {
    if token != "" {
      var c, rest := token[0], token[1..];
      var inner := if c == '\\' then "\\\\" else [c];
      var tail := Replace(rest, '\\', "\\\\");
      ReplaceAppend(inner, tail, '"', "\\\"");
      var head := Replace(inner, '"', "\\\"");
      if c == '\\' {
        assert Replace(inner[1..], '"', "\\\"") == "\\" + Replace("", '"', "\\\"");
        assert head == "\\\\";
      } else {
        assert head == if c == '"' then "\\\"" else [c];
      }
      UnescapeEscaped(rest);
      var end := Replace(tail, '"', "\\\"");
      assert (head + end)[|head|..] == end;
    }
  }

  /** Every quote is escaped, and every backslash escapes something. */
  predicate WellEscaped(s: string) {
    s == ""
    || (s[0] == '\\' && |s| >= 2 && WellEscaped(s[2..]))
    || (s[0] != '\\' && s[0] != '"' && WellEscaped(s[1..]))
  }

  lemma {:induction false} EscapedIsWellEscaped(token: string)
    ensures WellEscaped(Replace(Replace(token, '\\', "\\\\"), '"', "\\\""))
  {
    if token != "" {
      var c, tail := token[0], Replace(token[1..], '\\', "\\\\");
      var inner := if c == '\\' then "\\\\" else [c];
      ReplaceAppend(inner, tail, '"', "\\\"");
      EscapedIsWellEscaped(token[1..]);
      var head, end := Replace(inner, '"', "\\\""), Replace(tail, '"', "\\\"");
      if c == '\\' {
        assert Replace(inner[1..], '"', "\\\"") == "\\" + Replace("", '"', "\\\"");
        assert head == "\\\\";
      } else {
        assert head == if c == '"' then "\\\"" else [c];
      }
      assert (head + end)[|head|..] == end;
    }
  }

  /** A stored value is a well-formed character-string that reads back as its token. */
  lemma QuoteIsCharacterString(token: string)
    ensures var q := Quote(token);
            && |q| >= 2 && q[0] == '"' && q[|q| - 1] == '"'
            && WellEscaped(q[1..|q| - 1]) && Unescape(q[1..|q| - 1]) == token
  {
    var q := Quote(token);
    assert q[1..|q| - 1] == Replace(Replace(token, '\\', "\\\\"), '"', "\\\"");
    EscapedIsWellEscaped(token);
    UnescapeEscaped(token);
  }

  /** Distinct tokens are stored as distinct values, so removing one never removes another. */
  lemma QuoteInjective(s: string, t: string)
    ensures Quote(s) == Quote(t) <==> s == t
  {
    var qs, qt := Quote(s), Quote(t);
    assert qs[1..|qs| - 1] == Replace(Replace(s, '\\', "\\\\"), '"', "\\\"");
    assert qt[1..|qt| - 1] == Replace(Replace(t, '\\', "\\\\"), '"', "\\\"");
    UnescapeEscaped(s);
    UnescapeEscaped(t);
  }

  function QuoteAll(tokens: seq<string>): (r: seq<string>)
    ensures |r| == |tokens| && forall i :: 0 <= i < |r| ==> r[i] == Quote(tokens[i])
  {
    seq(|tokens|, i requires 0 <= i < |tokens| => Quote(tokens[i]))
  }

  lemma QuotedIn(t: string, tokens: seq<string>)
    ensures Quote(t) in QuoteAll(tokens) <==> t in tokens
  {
    if Quote(t) in QuoteAll(tokens) {
      var i :| 0 <= i < |tokens| && QuoteAll(tokens)[i] == Quote(t);
      QuoteInjective(t, tokens[i]);
    }
    if t in tokens {
      var i :| 0 <= i < |tokens| && tokens[i] == t;
      assert QuoteAll(tokens)[i] == Quote(t);
    }
  }

  // ---------------------------------------------------------------- one operation

  /** A TXT record set as read back; an alias record set has neither TTL nor values. */
  datatype RRset = RRset(ttl: Option<int>, values: seq<string>)

  datatype Change = Upsert(ttl: int, values: seq<string>) | Delete(ttl: int, values: seq<string>)

  datatype Action = Present | Cleanup

  datatype Operation = Operation(action: Action, ttl: int, tokens: seq<string>)

  function RecordValues(existing: Option<RRset>): seq<string> {
    if existing.Some? then existing.value.values else []
  }

  /** `current` followed by the values of `extra` that are not there yet. */
  function Merge(current: seq<string>, extra: seq<string>): (r: seq<string>) {
    if extra == [] then current
    else
      var before := Merge(current, extra[..|extra| - 1]);
      var v := extra[|extra| - 1];
      if v in before then before else before + [v]
  }

  function Without(current: seq<string>, removed: seq<string>): (r: seq<string>) {
    if current == [] then []
    else
      var before := Without(current[..|current| - 1], removed);
      var v := current[|current| - 1];
      if v in removed then before else before + [v]
  }

  /** The change an operation submits for what it has read, if any. */
  function Plan(op: Operation, existing: Option<RRset>): Option<Change> {
    var current := RecordValues(existing);
    match op.action
    case Present =>
      var merged := Merge(current, QuoteAll(op.tokens));
      if merged == current then None else Some(Upsert(op.ttl, merged))
    case Cleanup =>
      if existing == None then None
      else
        var remaining := if op.tokens == [] then [] else Without(current, QuoteAll(op.tokens));
        if op.tokens != [] && remaining == current then None
        else if remaining != [] then Some(Upsert(op.ttl, remaining))
        else Some(Delete(if existing.value.ttl.Some? then existing.value.ttl.value else op.ttl, current))
  }

  /** How Route 53 answers a change: `None` when it rejects it.  An UPSERT needs a value, a
      DELETE must echo the stored record set exactly. */
  function Execute(existing: Option<RRset>, change: Change): Option<Option<RRset>> {
    if change.values == [] then None
    else
      match change
      case Upsert(ttl, values) => Some(Some(RRset(Some(ttl), values)))
      case Delete(ttl, values) => if existing == Some(RRset(Some(ttl), values)) then Some(None) else None
  }

  /** The record set after the operation has run alone and its change, if any, was not lost. */
  function Alone(op: Operation, existing: Option<RRset>): Option<RRset> {
    var plan := Plan(op, existing);
    if plan.Some? && Execute(existing, plan.value).Some? then Execute(existing, plan.value).value else existing
  }

  lemma {:induction false} MergeIsUnion(current: seq<string>, extra: seq<string>)
    ensures current <= Merge(current, extra)
    ensures forall v :: v in Merge(current, extra) <==> v in current || v in extra
    ensures forall i, j :: |current| <= j < |Merge(current, extra)| && 0 <= i < j ==>
                             Merge(current, extra)[i] != Merge(current, extra)[j]
  {
    if extra != [] {
      var init, v := extra[..|extra| - 1], extra[|extra| - 1];
      MergeIsUnion(current, init);
      assert extra == init + [v];
    }
  }

  lemma {:induction false} MergeAbsorbs(current: seq<string>, extra: seq<string>)
    requires forall v :: v in extra ==> v in current
    ensures Merge(current, extra) == current
  {
    if extra != [] { MergeAbsorbs(current, extra[..|extra| - 1]); }
  }

  lemma {:induction false} WithoutIsDifference(current: seq<string>, removed: seq<string>)
    ensures forall v :: v in Without(current, removed) <==> v in current && v !in removed
    ensures |Without(current, removed)| <= |current|
    ensures Without(current, removed) == current <==> forall v :: v in current ==> v !in removed
  {
    if current != [] {
      var init, v := current[..|current| - 1], current[|current| - 1];
      WithoutIsDifference(init, removed);
      assert current == init + [v];
      if forall w :: w in current ==> w !in removed { assert forall w :: w in init ==> w in current; }
    }
  }

  /** Present leaves the merged values, under its own TTL if they changed. */
  lemma PresentMerges(op: Operation, existing: Option<RRset>)
    requires op.action == Present
    ensures var merged := Merge(RecordValues(existing), QuoteAll(op.tokens));
            && RecordValues(Alone(op, existing)) == merged
            && (Plan(op, existing) == None <==> merged == RecordValues(existing))
            && (merged != RecordValues(existing) ==> Alone(op, existing).value.ttl == Some(op.ttl))
  {
    MergeIsUnion(RecordValues(existing), QuoteAll(op.tokens));
  }

  /** Present unites: the old values in place, then the new ones, none of the new twice. */
  lemma PresentIsUnion(op: Operation, existing: Option<RRset>)
    requires op.action == Present
    ensures var stored, now := RecordValues(existing), RecordValues(Alone(op, existing));
            && stored <= now
            && (forall v :: v in now <==> v in stored || exists t :: t in op.tokens && v == Quote(t))
            && (forall i, j :: |stored| <= j < |now| && 0 <= i < j ==> now[i] != now[j])
  {
    PresentMerges(op, existing);
    MergeIsUnion(RecordValues(existing), QuoteAll(op.tokens));
    forall v ensures v in QuoteAll(op.tokens) <==> exists t :: t in op.tokens && v == Quote(t) {
      QuotedValue(v, op.tokens);
    }
  }

  lemma QuotedValue(v: string, tokens: seq<string>)
    ensures v in QuoteAll(tokens) <==> exists t :: t in tokens && v == Quote(t)
  {
    if v in QuoteAll(tokens) {
      var i :| 0 <= i < |tokens| && QuoteAll(tokens)[i] == v;
      assert tokens[i] in tokens;
    }
    if t :| t in tokens && v == Quote(t) { QuotedIn(t, tokens); }
  }

  /** Which tokens a record holds after a present, and when the present submits nothing: then
      even the TTL stays. */
  lemma PresentedTokens(op: Operation, existing: Option<RRset>)
    requires op.action == Present
    ensures forall t :: Quote(t) in RecordValues(Alone(op, existing)) <==>
              Quote(t) in RecordValues(existing) || t in op.tokens
    ensures Plan(op, existing) == None <==> forall t :: t in op.tokens ==> Quote(t) in RecordValues(existing)
  {
    var current, quoted := RecordValues(existing), QuoteAll(op.tokens);
    PresentMerges(op, existing);
    MergeIsUnion(current, quoted);
    forall t ensures Quote(t) in quoted <==> t in op.tokens { QuotedIn(t, op.tokens); }
    if forall t :: t in op.tokens ==> Quote(t) in current {
      forall v | v in quoted ensures v in current { QuotedValue(v, op.tokens); }
      MergeAbsorbs(current, quoted);
    }
  }

  /** Cleanup subtracts: exactly the named values go, the rest keep their order; naming none
      (class ANY) deletes the record set, and so does naming all that is left. */
  lemma CleanupIsDifference(op: Operation, existing: Option<RRset>)
    requires op.action == Cleanup && existing.Some? && existing.value.ttl.Some? && existing.value.values != []
    ensures var now := Alone(op, existing);
            && (op.tokens == [] ==> now == None)
            && (op.tokens != [] ==> RecordValues(now) == Without(existing.value.values, QuoteAll(op.tokens)))
            && (op.tokens != [] ==>
                  forall t :: Quote(t) in RecordValues(now) <==> Quote(t) in existing.value.values && t !in op.tokens)
            && (now == None <==> RecordValues(now) == [])
  {
    var stored, removed := existing.value.values, QuoteAll(op.tokens);
    WithoutIsDifference(stored, removed);
    forall t ensures Quote(t) in Without(stored, removed) <==> Quote(t) in stored && t !in op.tokens {
      QuotedIn(t, op.tokens);
    }
  }

  /** Repeating an operation submits no change at all. */
  lemma RepeatingIsSilent(op: Operation, existing: Option<RRset>)
    requires existing.Some? ==> existing.value.ttl.Some? && existing.value.values != []
    ensures Plan(op, Alone(op, existing)) == None
  {
    if op.action == Present {
      PresentedTokens(op, existing);
      PresentedTokens(op, Alone(op, existing));
    } else if existing.Some? {
      var left := Without(existing.value.values, QuoteAll(op.tokens));
      WithoutIsDifference(existing.value.values, QuoteAll(op.tokens));
      WithoutIsDifference(left, QuoteAll(op.tokens));
    }
  }

  /** Every submitted change has values, and a DELETE echoes the stored ones and their TTL;
      so Route 53 rejects an operation exactly when it would delete an alias record set. */
  lemma ChangesAreWellFormed(op: Operation, existing: Option<RRset>)
    requires existing.Some? && existing.value.ttl.Some? ==> existing.value.values != []
    ensures match Plan(op, existing)
            case None => true
            case Some(Upsert(ttl, values)) => ttl == op.ttl && values != []
            case Some(Delete(ttl, values)) =>
              op.action == Cleanup && existing.Some? && values == existing.value.values &&
              (existing.value.ttl.Some? ==> existing.value.ttl == Some(ttl))
    ensures var plan := Plan(op, existing);
            plan.Some? ==>
              (Execute(existing, plan.value) == None <==> plan.value.Delete? && existing.value.ttl == None)
  {
    MergeIsUnion(RecordValues(existing), QuoteAll(op.tokens));
  }

  // ---------------------------------------------------------------- the hosted zone

  datatype Key = Key(name: string, rtype: string)

  ghost predicate StrictTotalOrder(less: (Key, Key) -> bool) {
    && (forall a :: !less(a, a))
    && (forall a, b :: a != b ==> less(a, b) || less(b, a))
    && (forall a, b, c :: less(a, b) && less(b, c) ==> less(a, c))
  }

  ghost predicate FirstFrom(records: map<Key, RRset>, less: (Key, Key) -> bool, start: Key, k: Key) {
    k in records && !less(k, start) && forall k' :: k' in records && !less(k', start) ==> !less(k', k)
  }

  function Lookup(records: map<Key, RRset>, name: string): Option<RRset> {
    if Key(name, "TXT") in records then Some(records[Key(name, "TXT")]) else None
  }

  function Store(records: map<Key, RRset>, name: string, content: Option<RRset>): map<Key, RRset> {
    if content.Some? then records[Key(name, "TXT") := content.value] else records - {Key(name, "TXT")}
  }

  lemma StoringWhatIsThere(records: map<Key, RRset>, name: string)
    ensures Store(records, name, Lookup(records, name)) == records
  {
  }

  /** What the network does to one API call. */
  datatype Fault = NoFault | LostBefore | LostAfter

  class HostedZone {
    var records: map<Key, RRset>
    const less: (Key, Key) -> bool

    constructor (records: map<Key, RRset>, less: (Key, Key) -> bool)
      ensures this.records == records && this.less == less
    {
      this.records, this.less := records, less;
    }

    /** ListResourceRecordSets with one item: the first record set at or after `start`. */
    method ListOne(start: Key) returns (first: Option<Key>)
      requires StrictTotalOrder(less)
      ensures first == None <==> forall k :: k in records ==> less(k, start)
      ensures first.Some? ==> FirstFrom(records, less, start, first.value)
    {
      first := None;
      var left := records.Keys;
      while left != {}
        invariant left <= records.Keys
        invariant first == None ==> forall k :: k in records.Keys - left ==> less(k, start)
        invariant first.Some? ==>
          && first.value in records && !less(first.value, start)
          && forall k :: k in records.Keys - left && !less(k, start) ==> !less(k, first.value)
        decreases left
      {
        var k :| k in left;
        left := left - {k};
        if !less(k, start) && (first == None || less(k, first.value)) {
          first := Some(k);
        }
      }
    }

    /** ChangeResourceRecordSets: applied or not, acknowledged or not. */
    method ChangeRecordSet(name: string, change: Change, fault: Fault) returns (acknowledged: bool)
      modifies this
      ensures var outcome := Execute(old(Lookup(records, name)), change);
              && records == (if fault != LostBefore && outcome.Some?
                             then Store(old(records), name, outcome.value) else old(records))
              && acknowledged == (fault == NoFault && outcome.Some?)
    {
      var outcome := Execute(Lookup(records, name), change);
      if fault != LostBefore && outcome.Some? {
        records := Store(records, name, outcome.value);
      }
      acknowledged := fault == NoFault && outcome.Some?;
    }
  }

  datatype Poll = Pending | InSync | Failed

  /** INSYNC is seen before any failed poll and within the attempt bound. */
  ghost predicate Propagates(polls: seq<Poll>, maxPolls: nat)
    requires |polls| >= maxPolls
  {
    exists i :: 0 <= i < maxPolls && polls[i] == InSync && forall j :: 0 <= j < i ==> polls[j] == Pending
  }

  class Route53Provider {
    const ttl: int
    const awaitInsync: bool
    const maxPolls: nat

    constructor (ttl: int, awaitInsync: bool, maxPolls: nat)
      ensures this.ttl == ttl && this.awaitInsync == awaitInsync && this.maxPolls == maxPolls
    {
      this.ttl, this.awaitInsync, this.maxPolls := ttl, awaitInsync, maxPolls;
    }

    method MergeValues(current: seq<string>, extra: seq<string>) returns (merged: seq<string>)
      ensures merged == Merge(current, extra)
    {
      merged := current;
      var i := 0;
      while i < |extra|
        invariant 0 <= i <= |extra| && merged == Merge(current, extra[..i])
      {
        assert extra[..i + 1][..i] == extra[..i];
        if extra[i] !in merged {
          merged := merged + [extra[i]];
        }
        i := i + 1;
      }
      assert extra[..i] == extra;
    }

    method RemainingValues(current: seq<string>, removed: seq<string>) returns (remaining: seq<string>)
      ensures remaining == Without(current, removed)
    {
      remaining := [];
      var i := 0;
      while i < |current|
        invariant 0 <= i <= |current| && remaining == Without(current[..i], removed)
      {
        assert current[..i + 1][..i] == current[..i];
        if current[i] !in removed {
          remaining := remaining + [current[i]];
        }
        i := i + 1;
      }
      assert current[..i] == current;
    }

    /** `_read_rrset`: a one-item listing finds the record set if and only if it exists. */
    method ReadRrset(zone: HostedZone, name: string) returns (existing: Option<RRset>)
      requires StrictTotalOrder(zone.less)
      ensures existing == Lookup(zone.records, name)
    {
      var first := zone.ListOne(Key(name, "TXT"));
      if first.Some? && first.value == Key(name, "TXT") {
        return Some(zone.records[first.value]);
      }
      assert Key(name, "TXT") !in zone.records;
      return None;
    }

    /** Poll until INSYNC; `polls[i]` is the answer to poll `i`. */
    method WaitInsync(polls: seq<Poll>) returns (ok: bool)
      requires |polls| >= maxPolls
      ensures ok <==> Propagates(polls, maxPolls)
    {
      var i := 0;
      while i < maxPolls
        invariant 0 <= i <= maxPolls && forall j :: 0 <= j < i ==> polls[j] == Pending
      {
        if polls[i] == Failed {
          return false;
        }
        if polls[i] == InSync {
          return true;
        }
        i := i + 1;
      }
      return false;
    }

    /** `_change`: submit, and when configured wait for propagation. */
    method SubmitChange(zone: HostedZone, name: string, change: Change, fault: Fault, polls: seq<Poll>)
      returns (ok: bool)
      requires |polls| >= maxPolls
      modifies zone
      ensures var outcome := Execute(old(Lookup(zone.records, name)), change);
              && zone.records == (if fault != LostBefore && outcome.Some?
                                  then Store(old(zone.records), name, outcome.value) else old(zone.records))
              && (ok <==> fault == NoFault && outcome.Some? && (awaitInsync ==> Propagates(polls, maxPolls)))
    {
      ok := zone.ChangeRecordSet(name, change, fault);
      if ok && awaitInsync {
        ok := WaitInsync(polls);
      }
    }

    /** What an operation leaves and answers, with every fault the network can add.  A change
        that was not lost makes the record set what the operation alone makes of it; nothing
        else in the zone is touched; the answer is an error only for a fault or a rejection. */
    ghost predicate Outcome(op: Operation, before: map<Key, RRset>, after: map<Key, RRset>, name: string,
                            listFails: bool, fault: Fault, polls: seq<Poll>, ok: bool)
      requires |polls| >= maxPolls
    {
      var existing := Lookup(before, name);
      var plan := Plan(op, existing);
      && after == (if listFails || fault == LostBefore then before else Store(before, name, Alone(op, existing)))
      && (ok <==> !listFails &&
                  (plan.Some? ==> fault == NoFault && Execute(existing, plan.value).Some? &&
                                  (awaitInsync ==> Propagates(polls, maxPolls))))
    }

    method PresentValues(zone: HostedZone, name: string, tokens: seq<string>,
                         listFails: bool, fault: Fault, polls: seq<Poll>)
      returns (ok: bool)
      requires |polls| >= maxPolls && StrictTotalOrder(zone.less)
      modifies zone
      ensures Outcome(Operation(Present, ttl, tokens), old(zone.records), zone.records, name, listFails, fault,
                polls, ok)
    {
      if listFails {
        return false;
      }
      StoringWhatIsThere(zone.records, name);
      var existing := ReadRrset(zone, name);
      var current := RecordValues(existing);
      var merged := MergeValues(current, QuoteAll(tokens));
      if merged == current {
        return true;
      }
      ok := SubmitChange(zone, name, Upsert(ttl, merged), fault, polls);
    }

    method CleanupValues(zone: HostedZone, name: string, tokens: seq<string>,
                         listFails: bool, fault: Fault, polls: seq<Poll>)
      returns (ok: bool)
      requires |polls| >= maxPolls && StrictTotalOrder(zone.less)
      modifies zone
      ensures Outcome(Operation(Cleanup, ttl, tokens), old(zone.records), zone.records, name, listFails, fault,
                polls, ok)
    {
      if listFails {
        return false;
      }
      StoringWhatIsThere(zone.records, name);
      var existing := ReadRrset(zone, name);
      if existing == None {
        return true;
      }
      var current := RecordValues(existing);
      var remaining := [];
      if tokens != [] {
        remaining := RemainingValues(current, QuoteAll(tokens));
        if remaining == current {
          return true;
        }
      }
      if remaining != [] {
        ok := SubmitChange(zone, name, Upsert(ttl, remaining), fault, polls);
      } else {
        var storedTtl := if existing.value.ttl.Some? then existing.value.ttl.value else ttl;
        ok := SubmitChange(zone, name, Delete(storedTtl, current), fault, polls);
      }
    }
  }
}

/** Credentials at rest: the ordered keylist (src/astropath/crypto.py) and the bulk rotation of
    every stored secret (src/astropath/rotation.py), with the documented procedure of prepending
    a key, rotating and dropping the old ones.

    The cipher is ideal: a token is the key, the timestamp and the plaintext it was made from,
    and only that key reads it. */
module Rotation {
  import opened Wrappers

  type Key = string

  datatype Token = Token(key: Key, stamp: int, plain: string)

  // ---------------------------------------------------------------- the keylist

  datatype KekError = EmptyKeylist | InvalidKey(position: nat)

  /** `_build_fernets`: every key must be well formed; the first bad one is named by position. */
  method BuildFernets(keys: seq<Key>, wellFormed: Key -> bool) returns (r: Result<seq<Key>, KekError>)
    ensures r == Err(EmptyKeylist) <==> keys == []
    ensures r.Ok? <==> keys != [] && forall i :: 0 <= i < |keys| ==> wellFormed(keys[i])
    ensures r.Ok? ==> r.value == keys
    ensures r.Err? && r.error.InvalidKey? ==>
              var i := r.error.position;
              i < |keys| && !wellFormed(keys[i]) && forall j :: 0 <= j < i ==> wellFormed(keys[j])
  {
    if keys == [] {
      return Err(EmptyKeylist);
    }
    var fernets := [];
    var i := 0;
    while i < |keys|
      invariant 0 <= i <= |keys| && fernets == keys[..i] && forall j :: 0 <= j < i ==> wellFormed(keys[j])
    {
      if !wellFormed(keys[i]) {
        return Err(InvalidKey(i));
      }
      fernets := fernets + [keys[i]];
      i := i + 1;
    }
    return Ok(fernets);
  }

  /** Primary first; every key reads. */
  datatype Kek = Kek(primary: Key, retired: seq<Key>) {
    predicate Reads(t: Token) {
      t.key == primary || t.key in retired
    }

    function Encrypt(plain: string, now: int): Token {
      Token(primary, now, plain)
    }

    function Decrypt(t: Token): Option<string> {
      if Reads(t) then Some(t.plain) else None
    }

    /** Re-encrypt under the primary key, keeping the creation timestamp. */
    function Rotate(t: Token): Option<Token> {
      if Reads(t) then Some(Token(primary, t.stamp, t.plain)) else None
    }
  }

  // ---------------------------------------------------------------- one bulk rotation

  datatype RotationCounts = RotationCounts(backends: nat, domains: nat, tsigKeys: nat)

  /** The committed rows: backends and TSIG keys always hold a token, domains may hold NULL. */
  class Database {
    var backends: seq<Token>
    var domains: seq<Option<Token>>
    var tsigKeys: seq<Token>

    constructor (backends: seq<Token>, domains: seq<Option<Token>>, tsigKeys: seq<Token>)
      ensures this.backends == backends && this.domains == domains && this.tsigKeys == tsigKeys
    {
      this.backends, this.domains, this.tsigKeys := backends, domains, tsigKeys;
    }

    /** The machine's rows are these. */
    ghost predicate Shows(s: State)
      reads this
    {
      HoldsRows(s.rows, backends, domains, tsigKeys)
    }
  }

  ghost predicate AllReadable(kek: Kek, tokens: seq<Token>) {
    forall i :: 0 <= i < |tokens| ==> kek.Reads(tokens[i])
  }

  ghost predicate AllNonNullReadable(kek: Kek, tokens: seq<Option<Token>>) {
    forall i :: 0 <= i < |tokens| && tokens[i].Some? ==> kek.Reads(tokens[i].value)
  }

  /** Same plaintext and timestamp, now under the primary key. */
  predicate Migrated(kek: Kek, before: Token, after: Token) {
    after.key == kek.primary && after.stamp == before.stamp && after.plain == before.plain
  }

  ghost predicate AllMigrated(kek: Kek, before: seq<Token>, after: seq<Token>) {
    |after| == |before| && forall i :: 0 <= i < |before| ==> Migrated(kek, before[i], after[i])
  }

  ghost predicate NonNullMigrated(kek: Kek, before: seq<Option<Token>>, after: seq<Option<Token>>) {
    |after| == |before| &&
    forall i :: 0 <= i < |before| ==>
      (before[i] == None ==> after[i] == None) &&
      (before[i].Some? ==> after[i].Some? && Migrated(kek, before[i].value, after[i].value))
  }

  function NonNulls(tokens: seq<Option<Token>>): nat {
    if tokens == [] then 0
    else NonNulls(tokens[..|tokens| - 1]) + (if tokens[|tokens| - 1].Some? then 1 else 0)
  }

  lemma {:induction false} NonNullsCounts(tokens: seq<Option<Token>>)
    ensures NonNulls(tokens) == |set i | 0 <= i < |tokens| && tokens[i].Some?|
  {
    if tokens != [] {
      var n := |tokens| - 1;
      NonNullsCounts(tokens[..n]);
      var before := set i | 0 <= i < n && tokens[..n][i].Some?;
      var all := set i | 0 <= i < |tokens| && tokens[i].Some?;
      assert all == if tokens[n].Some? then before + {n} else before;
    }
  }

  /** Rotate loaded rows in place, or stop at the first that cannot be read. */
  method RotateRows(kek: Kek, rows: array<Token>) returns (ok: bool)
    modifies rows
    ensures ok <==> AllReadable(kek, old(rows[..]))
    ensures ok ==> AllMigrated(kek, old(rows[..]), rows[..])
  {
    ghost var before := rows[..];
    var i := 0;
    while i < rows.Length
      invariant 0 <= i <= rows.Length
      invariant forall j :: 0 <= j < i ==> kek.Reads(before[j]) && Migrated(kek, before[j], rows[j])
      invariant forall j :: i <= j < rows.Length ==> rows[j] == before[j]
    {
      var rotated := kek.Rotate(rows[i]);
      if rotated == None {
        assert !kek.Reads(before[i]);
        return false;
      }
      rows[i] := rotated.value;
      i := i + 1;
    }
    return true;
  }

  method RotateNullableRows(kek: Kek, rows: array<Option<Token>>) returns (ok: bool, count: nat)
    modifies rows
    ensures ok <==> AllNonNullReadable(kek, old(rows[..]))
    ensures ok ==> NonNullMigrated(kek, old(rows[..]), rows[..]) && count == NonNulls(old(rows[..]))
  {
    ghost var before := rows[..];
    var i := 0;
    count := 0;
    while i < rows.Length
      invariant 0 <= i <= rows.Length && count == NonNulls(before[..i])
      invariant forall j :: 0 <= j < i ==>
                  (before[j] == None ==> rows[j] == None) &&
                  (before[j].Some? ==>
                     kek.Reads(before[j].value) && rows[j].Some? && Migrated(kek, before[j].value, rows[j].value))
      invariant forall j :: i <= j < rows.Length ==> rows[j] == before[j]
    {
      assert before[..i + 1][..i] == before[..i];
      if rows[i].Some? {
        var rotated := kek.Rotate(rows[i].value);
        if rotated == None {
          assert !kek.Reads(before[i].value);
          return false, count;
        }
        rows[i] := rotated;
        count := count + 1;
      }
      i := i + 1;
    }
    assert before[..i] == before;
    return true, count;
  }

  /** The bulk pass commits if and only if every stored token is readable; then
      every token is under the primary key with its plaintext and timestamp kept, every NULL is
      still NULL, and the counts are exact; otherwise nothing at all is committed.  Either way it does
      what the machine's pass does when nothing comes between its steps. */
  method RotateStoredSecrets(db: Database, kek: Kek, ghost s: State) returns (r: Option<RotationCounts>)
    requires db.Shows(s) && s.kek == kek && s.pass == None
    modifies db
    ensures db.Shows(PassAlone(s))
    ensures r.Some? <==> AllReadable(kek, old(db.backends)) && AllNonNullReadable(kek, old(db.domains))
                         && AllReadable(kek, old(db.tsigKeys))
    ensures r.Some? ==>
              && AllMigrated(kek, old(db.backends), db.backends)
              && NonNullMigrated(kek, old(db.domains), db.domains)
              && AllMigrated(kek, old(db.tsigKeys), db.tsigKeys)
              && r.value == RotationCounts(|old(db.backends)|, NonNulls(old(db.domains)), |old(db.tsigKeys)|)
    ensures r == None ==>
              db.backends == old(db.backends) && db.domains == old(db.domains) && db.tsigKeys == old(db.tsigKeys)
  {
    ghost var backs, doms, keys := db.backends, db.domains, db.tsigKeys;
    var backends := new Token[|db.backends|](i requires 0 <= i < |db.backends| reads db => db.backends[i]);
    assert backends[..] == db.backends;
    var ok := RotateRows(kek, backends);
    if !ok {
      PassFails(s, backs, doms, keys);
      return None;
    }
    var domains := new Option<Token>[|db.domains|](i requires 0 <= i < |db.domains| reads db => db.domains[i]);
    assert domains[..] == db.domains;
    var rotatedDomains: nat;
    ok, rotatedDomains := RotateNullableRows(kek, domains);
    if !ok {
      PassFails(s, backs, doms, keys);
      return None;
    }
    var tsigKeys := new Token[|db.tsigKeys|](i requires 0 <= i < |db.tsigKeys| reads db => db.tsigKeys[i]);
    assert tsigKeys[..] == db.tsigKeys;
    ok := RotateRows(kek, tsigKeys);
    if !ok {
      PassFails(s, backs, doms, keys);
      return None;
    }
    db.backends, db.domains, db.tsigKeys := backends[..], domains[..], tsigKeys[..];  // commit
    PassSucceeds(s, backs, doms, keys, db.backends, db.domains, db.tsigKeys);
    return Some(RotationCounts(backends.Length, rotatedDomains, tsigKeys.Length));
  }

  // ---------------------------------------------------------------- the procedure, over whole runs

  /** A stored secret: its table (0 backends, 1 domains, 2 TSIG keys) and its row. */
  datatype Id = Id(table: nat, row: nat)

  /** A rotation between its first query and its commit: how many tables it has selected, the
      rewritten tokens of the earlier ones, which the session has already flushed, and those of
      the last one, which it has not.  A query flushes what is pending; a flushed row stays
      locked until the transaction ends. */
  datatype Pass = Pass(selected: nat, flushed: map<Id, Token>, pending: map<Id, Token>) {
    function Rewritten(): map<Id, Token> {
      flushed + pending
    }
  }

  /** `written` remembers the plaintext last written to each row; `migrated`, that a rotation
      has committed since the primary key became primary. */
  datatype State = State(
    kek: Kek, rows: map<Id, Option<Token>>, written: map<Id, Option<string>>,
    pass: Option<Pass>, migrated: bool)

  datatype Step =
    | Prepend(key: Key)                       // new primary; the service restarts
    | DropRetired                             // keep only the primary; the service restarts
    | Write(id: Id, plain: Option<string>, now: int)
    | Remove(id: Id)
    | BeginPass
    | SelectTable
    | CommitPass
    | AbandonPass

  /** A writer of a flushed row waits for the pass to end. */
  predicate Locked(s: State, id: Id) {
    s.pass.Some? && id in s.pass.value.flushed
  }

  predicate Enabled(s: State, step: Step) {
    match step
    case DropRetired => s.migrated
    case Write(id, _, _) => !Locked(s, id)
    case Remove(id) => !Locked(s, id)
    case BeginPass => s.pass == None
    case SelectTable => s.pass.Some? && s.pass.value.selected < 3
    case CommitPass => s.pass.Some? && s.pass.value.selected == 3
    case AbandonPass => s.pass.Some?
    case _ => true
  }

  /** The non-null tokens of a table. */
  function Selected(rows: map<Id, Option<Token>>, table: nat): map<Id, Token> {
    map id | id in rows && id.table == table && rows[id].Some? :: rows[id].value
  }

  function Rotated(kek: Kek, tokens: map<Id, Token>): map<Id, Token> {
    map id | id in tokens :: Token(kek.primary, tokens[id].stamp, tokens[id].plain)
  }

  /** A flush fails when one of its rows is gone. */
  predicate CanFlush(s: State)
    requires s.pass.Some?
  {
    forall id :: id in s.pass.value.pending ==> id in s.rows
  }

  /** Flush what is pending, then read and rewrite the next table; an unreadable token raises. */
  function NextTable(s: State): Option<Pass>
    requires s.pass.Some?
  {
    var pass, tokens := s.pass.value, Selected(s.rows, s.pass.value.selected);
    if CanFlush(s) && forall id :: id in tokens ==> s.kek.Reads(tokens[id])
    then Some(Pass(pass.selected + 1, pass.Rewritten(), Rotated(s.kek, tokens)))
    else None
  }

  function Stored(tokens: map<Id, Token>): map<Id, Option<Token>> {
    map id | id in tokens :: Some(tokens[id])
  }

  function Do(s: State, step: Step): State
    requires Enabled(s, step)
  {
    match step
    case Prepend(key) => s.(kek := Kek(key, [s.kek.primary] + s.kek.retired), pass := None, migrated := false)
    case DropRetired => s.(kek := Kek(s.kek.primary, []), pass := None)
    case Write(id, plain, now) =>
      s.(rows := s.rows[id := if plain.Some? then Some(s.kek.Encrypt(plain.value, now)) else None],
         written := s.written[id := plain])
    case Remove(id) => s.(rows := s.rows - {id}, written := s.written - {id})
    case BeginPass => s.(pass := Some(Pass(0, map[], map[])))
    case SelectTable => s.(pass := NextTable(s))
    case CommitPass =>
      if CanFlush(s) then s.(rows := s.rows + Stored(s.pass.value.Rewritten()), pass := None, migrated := true)
      else s.(pass := None)
    case AbandonPass => s.(pass := None)
  }

  ghost predicate Legal(s0: State, steps: seq<Step>)
    decreases |steps|, 0
  {
    steps == [] ||
    (Legal(s0, steps[..|steps| - 1]) && Enabled(After(s0, steps[..|steps| - 1]), steps[|steps| - 1]))
  }

  ghost function After(s0: State, steps: seq<Step>): State
    requires Legal(s0, steps)
    decreases |steps|, 1
  {
    if steps == [] then s0 else Do(After(s0, steps[..|steps| - 1]), steps[|steps| - 1])
  }

  function Fresh(key: Key): State {
    State(Kek(key, []), map[], map[], None, true)
  }

  // ---------------------------------------------------------------- a pass that runs alone

  predicate IsRow(backends: seq<Token>, domains: seq<Option<Token>>, tsigKeys: seq<Token>, id: Id) {
    id.row < (match id.table case 0 => |backends| case 1 => |domains| case 2 => |tsigKeys| case _ => 0)
  }

  function RowOf(backends: seq<Token>, domains: seq<Option<Token>>, tsigKeys: seq<Token>, id: Id): Option<Token>
    requires IsRow(backends, domains, tsigKeys, id)
  {
    match id.table
    case 0 => Some(backends[id.row])
    case 1 => domains[id.row]
    case _ => Some(tsigKeys[id.row])
  }

  ghost predicate HoldsRows(rows: map<Id, Option<Token>>, backends: seq<Token>, domains: seq<Option<Token>>,
                            tsigKeys: seq<Token>)
  {
    && (forall id :: id in rows <==> IsRow(backends, domains, tsigKeys, id))
    && (forall id :: id in rows ==> rows[id] == RowOf(backends, domains, tsigKeys, id))
  }

  function QueryNext(s: State): State {
    if Enabled(s, SelectTable) then Do(s, SelectTable) else s
  }

  /** Begin, three queries and the commit, up to the step that raises. */
  function PassAlone(s: State): State
    requires s.pass == None
  {
    CommitIfRead(ReadTables(s, 3))
  }

  function ReadTables(s: State, n: nat): State
    requires s.pass == None
  {
    if n == 0 then Do(s, BeginPass) else QueryNext(ReadTables(s, n - 1))
  }

  function CommitIfRead(s: State): State {
    if Enabled(s, CommitPass) then Do(s, CommitPass) else s
  }

  ghost predicate ReadableBelow(s: State, n: nat) {
    forall id :: id in s.rows && id.table < n ==> Readable(s, id)
  }

  /** The non-null tokens of the first `n` tables. */
  function SelectedBelow(rows: map<Id, Option<Token>>, n: nat): map<Id, Token> {
    map id | id in rows && id.table < n && rows[id].Some? :: rows[id].value
  }

  /** `s'` is `s` with a pass that has made `n` queries, or none if one has met an unreadable token. */
  ghost predicate HasRead(s: State, n: nat, s': State) {
    && s'.rows == s.rows && s'.kek == s.kek
    && if ReadableBelow(s, n) then
         && s'.pass.Some? && s'.pass.value.selected == n
         && s'.pass.value.Rewritten() == Rotated(s.kek, SelectedBelow(s.rows, n)) && CanFlush(s')
       else s'.pass == None
  }

  lemma SelectedNext(s: State, n: nat)
    ensures SelectedBelow(s.rows, n + 1) == SelectedBelow(s.rows, n) + Selected(s.rows, n)
    ensures Rotated(s.kek, SelectedBelow(s.rows, n + 1))
              == Rotated(s.kek, SelectedBelow(s.rows, n)) + Rotated(s.kek, Selected(s.rows, n))
    ensures ReadableBelow(s, n + 1) <==>
              ReadableBelow(s, n) && forall id :: id in Selected(s.rows, n) ==> s.kek.Reads(Selected(s.rows, n)[id])
  {
    assert forall id :: id in Selected(s.rows, n) ==> id in s.rows && s.rows[id] == Some(Selected(s.rows, n)[id]);
    if ReadableBelow(s, n) && forall id :: id in Selected(s.rows, n) ==> s.kek.Reads(Selected(s.rows, n)[id]) {
      forall id | id in s.rows && id.table < n + 1 ensures Readable(s, id) {
        if id.table == n && s.rows[id].Some? { assert id in Selected(s.rows, n); }
      }
    }
    if ReadableBelow(s, n + 1) {
      forall id | id in Selected(s.rows, n) ensures s.kek.Reads(Selected(s.rows, n)[id]) { assert Readable(s, id); }
    }
  }

  lemma QueryReads(s: State, n: nat, s': State)
    requires HasRead(s, n, s') && n < 3
    ensures HasRead(s, n + 1, QueryNext(s'))
  {
    SelectedNext(s, n);
  }

  lemma {:induction false} TablesAreRead(s: State, n: nat)
    requires s.pass == None && n <= 3
    ensures HasRead(s, n, ReadTables(s, n))
  {
    if n == 0 {
      assert SelectedBelow(s.rows, 0) == map[];
    } else {
      TablesAreRead(s, n - 1);
      QueryReads(s, n - 1, ReadTables(s, n - 1));
    }
  }

  lemma CommitRotates(s: State, read: State, id: Id)
    requires HasRead(s, 3, read) && id in s.rows && id.table < 3
    ensures CommitIfRead(read).rows.Keys == s.rows.Keys
    ensures CommitIfRead(read).rows[id] ==
              if ReadableBelow(s, 3) && s.rows[id].Some?
              then Some(Token(s.kek.primary, s.rows[id].value.stamp, s.rows[id].value.plain))
              else s.rows[id]
  {
    if ReadableBelow(s, 3) {
      var tokens := Rotated(s.kek, SelectedBelow(s.rows, 3));
      assert CommitIfRead(read).rows == s.rows + Stored(tokens);
    }
  }

  /** After a pass that runs alone every row is rotated, if all were readable, or none is. */
  lemma PassAloneRotates(s: State)
    requires s.pass == None && forall id :: id in s.rows ==> id.table < 3
    ensures PassAlone(s).rows.Keys == s.rows.Keys
    ensures forall id :: id in s.rows ==>
              PassAlone(s).rows[id] ==
                if ReadableBelow(s, 3) && s.rows[id].Some?
                then Some(Token(s.kek.primary, s.rows[id].value.stamp, s.rows[id].value.plain))
                else s.rows[id]
  {
    var read := ReadTables(s, 3);
    TablesAreRead(s, 3);
    CommitKeepsKeys(s, read);
    forall id | id in s.rows
      ensures CommitIfRead(read).rows[id] ==
                if ReadableBelow(s, 3) && s.rows[id].Some?
                then Some(Token(s.kek.primary, s.rows[id].value.stamp, s.rows[id].value.plain))
                else s.rows[id]
    {
      CommitRotates(s, read, id);
    }
  }

  lemma CommitKeepsKeys(s: State, read: State)
    requires HasRead(s, 3, read)
    ensures CommitIfRead(read).rows.Keys == s.rows.Keys
  {
  }

  /** It is a run of the machine. */
  lemma PassAloneIsRun(s0: State, steps: seq<Step>) returns (more: seq<Step>)
    requires Legal(s0, steps) && After(s0, steps).pass == None
    ensures steps <= more && Legal(s0, more) && After(s0, more) == PassAlone(After(s0, steps))
  {
    more := ReadingIsRun(s0, steps, 3);
    if Enabled(After(s0, more), CommitPass) {
      OneMoreStep(s0, more, CommitPass);
      more := more + [CommitPass];
    }
  }

  lemma {:induction false} ReadingIsRun(s0: State, steps: seq<Step>, n: nat) returns (more: seq<Step>)
    requires Legal(s0, steps) && After(s0, steps).pass == None
    ensures steps <= more && Legal(s0, more) && After(s0, more) == ReadTables(After(s0, steps), n)
  {
    if n == 0 {
      OneMoreStep(s0, steps, BeginPass);
      more := steps + [BeginPass];
    } else {
      var before := ReadingIsRun(s0, steps, n - 1);
      more := NextQuery(s0, before);
    }
  }

  lemma NextQuery(s0: State, steps: seq<Step>) returns (more: seq<Step>)
    requires Legal(s0, steps)
    ensures steps <= more && Legal(s0, more) && After(s0, more) == QueryNext(After(s0, steps))
  {
    more := steps;
    if Enabled(After(s0, steps), SelectTable) {
      OneMoreStep(s0, steps, SelectTable);
      more := steps + [SelectTable];
    }
  }

  lemma AllReadableRows(s: State, backends: seq<Token>, domains: seq<Option<Token>>, tsigKeys: seq<Token>)
    requires HoldsRows(s.rows, backends, domains, tsigKeys)
    ensures forall id :: id in s.rows ==> id.table < 3
    ensures ReadableBelow(s, 3) <==>
              AllReadable(s.kek, backends) && AllNonNullReadable(s.kek, domains) && AllReadable(s.kek, tsigKeys)
  {
    if ReadableBelow(s, 3) {
      forall i | 0 <= i < |backends| ensures s.kek.Reads(backends[i]) { assert Readable(s, Id(0, i)); }
      forall i | 0 <= i < |domains| && domains[i].Some? ensures s.kek.Reads(domains[i].value) {
        assert Readable(s, Id(1, i));
      }
      forall i | 0 <= i < |tsigKeys| ensures s.kek.Reads(tsigKeys[i]) { assert Readable(s, Id(2, i)); }
    }
  }

  lemma PassFails(s: State, backends: seq<Token>, domains: seq<Option<Token>>, tsigKeys: seq<Token>)
    requires HoldsRows(s.rows, backends, domains, tsigKeys) && s.pass == None
    requires !(AllReadable(s.kek, backends) && AllNonNullReadable(s.kek, domains) && AllReadable(s.kek, tsigKeys))
    ensures HoldsRows(PassAlone(s).rows, backends, domains, tsigKeys)
  {
    AllReadableRows(s, backends, domains, tsigKeys);
    PassAloneRotates(s);
  }

  lemma PassSucceeds(s: State, backends: seq<Token>, domains: seq<Option<Token>>, tsigKeys: seq<Token>,
                     backends': seq<Token>, domains': seq<Option<Token>>, tsigKeys': seq<Token>)
    requires HoldsRows(s.rows, backends, domains, tsigKeys) && s.pass == None
    requires AllReadable(s.kek, backends) && AllNonNullReadable(s.kek, domains) && AllReadable(s.kek, tsigKeys)
    requires AllMigrated(s.kek, backends, backends') && NonNullMigrated(s.kek, domains, domains')
    requires AllMigrated(s.kek, tsigKeys, tsigKeys')
    ensures HoldsRows(PassAlone(s).rows, backends', domains', tsigKeys')
  {
    AllReadableRows(s, backends, domains, tsigKeys);
    PassAloneRotates(s);
    forall id | id in s.rows
      ensures IsRow(backends', domains', tsigKeys', id)
                && PassAlone(s).rows[id] == RowOf(backends', domains', tsigKeys', id)
    {
      assert s.rows[id] == RowOf(backends, domains, tsigKeys, id);
      match id.table {
        case 0 => assert Migrated(s.kek, backends[id.row], backends'[id.row]);
        case 1 => if domains[id.row].Some? { assert Migrated(s.kek, domains[id.row].value, domains'[id.row].value); }
        case _ => assert Migrated(s.kek, tsigKeys[id.row], tsigKeys'[id.row]);
      }
    }
  }

  // ---------------------------------------------------------------- nothing becomes unreadable

  ghost predicate UnderPrimary(s: State, id: Id)
    requires id in s.rows
  {
    s.rows[id].Some? ==> s.rows[id].value.key == s.kek.primary
  }

  ghost predicate Readable(s: State, id: Id)
    requires id in s.rows
  {
    s.rows[id].Some? ==> s.kek.Reads(s.rows[id].value)
  }

  ghost predicate Invariant(s: State) {
    && s.rows.Keys == s.written.Keys
    && (forall id :: id in s.rows ==> Readable(s, id) && id.table < 3)
    && (s.migrated ==> forall id :: id in s.rows ==> UnderPrimary(s, id))
    && (s.pass.Some? ==> PassOk(s, s.pass.value))
  }

  /** What the pass has rewritten is under the primary key; a row of a selected table has been
      rewritten or is under the primary anyway; a flushed row is there. */
  ghost predicate PassOk(s: State, pass: Pass) {
    && pass.selected <= 3
    && (forall id :: id in pass.Rewritten() ==> pass.Rewritten()[id].key == s.kek.primary)
    && (forall id :: id in s.rows && id.table < pass.selected ==> id in pass.Rewritten() || UnderPrimary(s, id))
    && (forall id :: id in pass.flushed ==> id in s.rows)
  }

  lemma NextTableOk(s: State)
    requires Invariant(s) && Enabled(s, SelectTable) && NextTable(s).Some?
    ensures PassOk(s, NextTable(s).value)
  {
    var pass, next := s.pass.value, NextTable(s).value;
    forall id | id in s.rows && id.table < next.selected ensures id in next.Rewritten() || UnderPrimary(s, id) {
      if id.table < pass.selected { assert id in pass.Rewritten() || UnderPrimary(s, id); }
    }
    forall id | id in next.Rewritten() ensures next.Rewritten()[id].key == s.kek.primary {
      if id in pass.Rewritten() { assert pass.Rewritten()[id].key == s.kek.primary; }
    }
  }

  lemma CommitKeepsInvariant(s: State)
    requires Invariant(s) && Enabled(s, CommitPass)
    ensures Invariant(Do(s, CommitPass))
  {
    if CanFlush(s) {
      var s', tokens := Do(s, CommitPass), s.pass.value.Rewritten();
      forall id | id in s'.rows ensures id in s.rows && Readable(s', id) && UnderPrimary(s', id) && id.table < 3 {
        if id in tokens { assert id in s.rows; } else { assert UnderPrimary(s, id); }
      }
    }
  }

  lemma WriteKeepsInvariant(s: State, step: Step)
    requires Invariant(s) && Enabled(s, step) && ((step.Write? && step.id.table < 3) || step.Remove?)
    ensures Invariant(Do(s, step))
  {
    var s' := Do(s, step);
    forall id | id in s'.rows ensures Readable(s', id) && id.table < 3 && (s.migrated ==> UnderPrimary(s', id)) {
      if id in s.rows { assert Readable(s, id); }
    }
    if s.pass.Some? {
      var pass := s.pass.value;
      forall id | id in s'.rows && id.table < pass.selected ensures id in pass.Rewritten() || UnderPrimary(s', id) {
        if id in s.rows { assert id in pass.Rewritten() || UnderPrimary(s, id); }
      }
    }
  }

  lemma StepKeepsInvariant(s: State, step: Step)
    requires Invariant(s) && Enabled(s, step) && (step.Write? ==> step.id.table < 3)
    ensures Invariant(Do(s, step))
  {
    var s' := Do(s, step);
    match step {
      case Write(_, _, _) => WriteKeepsInvariant(s, step);
      case Remove(_) => WriteKeepsInvariant(s, step);
      case CommitPass => CommitKeepsInvariant(s);
      case _ =>
        if step.SelectTable? && s'.pass.Some? { NextTableOk(s); }
        forall id | id in s'.rows ensures Readable(s', id) { assert Readable(s, id); }
    }
  }

  ghost predicate ThreeTables(steps: seq<Step>) {
    forall i :: 0 <= i < |steps| && steps[i].Write? ==> steps[i].id.table < 3
  }

  lemma {:induction false} EveryRunKeepsInvariant(key: Key, steps: seq<Step>)
    requires Legal(Fresh(key), steps) && ThreeTables(steps)
    ensures Invariant(After(Fresh(key), steps))
  {
    if steps != [] {
      var before := steps[..|steps| - 1];
      EveryRunKeepsInvariant(key, before);
      StepKeepsInvariant(After(Fresh(key), before), steps[|steps| - 1]);
    }
  }

  /** However writes, removals, prepends, passes and permitted drops interleave,
      also with writes in the middle of a pass, every stored token can be decrypted at every
      moment; and once a pass has committed under the current primary, the primary alone
      suffices. */
  lemma NothingBecomesUnreadable(key: Key, steps: seq<Step>, id: Id)
    requires Legal(Fresh(key), steps) && ThreeTables(steps)
    requires id in After(Fresh(key), steps).rows && After(Fresh(key), steps).rows[id].Some?
    ensures var s := After(Fresh(key), steps);
            && s.kek.Decrypt(s.rows[id].value).Some?
            && (s.migrated ==> Kek(s.kek.primary, []).Decrypt(s.rows[id].value).Some?)
  {
    EveryRunKeepsInvariant(key, steps);
    assert Readable(After(Fresh(key), steps), id);
  }

  // ---------------------------------------------------------------- which keys there are

  /** The keys in use after a run: the newest first, those before the last drop gone. */
  function Keylist(first: Key, steps: seq<Step>): seq<Key> {
    if steps == [] then [first]
    else
      var before := Keylist(first, steps[..|steps| - 1]);
      match steps[|steps| - 1]
      case Prepend(key) => [key] + before
      case DropRetired => if before == [] then before else [before[0]]
      case _ => before
  }

  /** At every moment the key prepended last is the primary, under which every write is made, and
      the others are still read until the next drop. */
  lemma {:induction false} KeylistIsExact(key: Key, steps: seq<Step>)
    requires Legal(Fresh(key), steps)
    ensures var kek := After(Fresh(key), steps).kek; [kek.primary] + kek.retired == Keylist(key, steps)
    ensures forall plain, now :: After(Fresh(key), steps).kek.Encrypt(plain, now)
              == Token(Keylist(key, steps)[0], now, plain)
    ensures forall t: Token :: After(Fresh(key), steps).kek.Decrypt(t) ==
              if t.key in Keylist(key, steps) then Some(t.plain) else None
  {
    if steps != [] { KeylistIsExact(key, steps[..|steps| - 1]); }
  }

  // ---------------------------------------------------------------- the last plaintext written

  /** The row decrypts to the plaintext last written to it, NULL to NULL. */
  ghost predicate UpToDate(s: State, id: Id)
    requires id in s.rows && id in s.written
  {
    match s.rows[id]
    case None => s.written[id] == None
    case Some(t) => s.kek.Reads(t) && s.written[id] == Some(t.plain)
  }

  ghost predicate AllUpToDate(s: State) {
    s.rows.Keys == s.written.Keys && forall id :: id in s.rows ==> UpToDate(s, id)
  }

  /** No row that the pass has read has been given another plaintext since. */
  predicate NothingOverwritten(s: State)
    requires s.pass.Some?
  {
    var tokens := s.pass.value.Rewritten();
    forall id :: id in tokens && id in s.rows ==> s.rows[id].Some? && s.rows[id].value.plain == tokens[id].plain
  }

  lemma CommitKeepsUpToDateIff(s: State)
    requires Invariant(s) && AllUpToDate(s) && Enabled(s, CommitPass) && CanFlush(s)
    ensures AllUpToDate(Do(s, CommitPass)) <==> NothingOverwritten(s)
  {
    var s', tokens := Do(s, CommitPass), s.pass.value.Rewritten();
    CommitKeepsInvariant(s);
    if NothingOverwritten(s) {
      forall id | id in s'.rows ensures UpToDate(s', id) { assert UpToDate(s, id) && Readable(s', id); }
    } else {
      var id :| id in tokens && id in s.rows && !(s.rows[id].Some? && s.rows[id].value.plain == tokens[id].plain);
      assert UpToDate(s, id) && !UpToDate(s', id);
    }
  }

  /** Only the commit of a pass can lose a write, and it does so exactly when a row no longer
      has the plaintext that the pass read: the commit puts the old plaintext back. */
  lemma StepKeepsUpToDateIff(s: State, step: Step)
    requires Invariant(s) && AllUpToDate(s) && Enabled(s, step) && (step.Write? ==> step.id.table < 3)
    ensures AllUpToDate(Do(s, step)) <==> (step.CommitPass? && CanFlush(s) ==> NothingOverwritten(s))
  {
    if step.CommitPass? && CanFlush(s) {
      CommitKeepsUpToDateIff(s);
    } else {
      var s' := Do(s, step);
      StepKeepsInvariant(s, step);
      forall id | id in s'.rows ensures UpToDate(s', id) {
        assert Readable(s', id);
        if id in s.rows { assert UpToDate(s, id); }
      }
    }
  }

  ghost predicate Faithful(s: State) {
    s.pass.Some? ==> NothingOverwritten(s)
  }

  /** The step gives a row another plaintext that the pass has read and not yet flushed. */
  predicate WritesUnderPass(s: State, step: Step) {
    step.Write? && s.pass.Some? && step.id in s.pass.value.pending
    && step.plain != Some(s.pass.value.pending[step.id].plain)
  }

  /** And a pass comes to hold an old plaintext exactly by a write between its query of the
      row's table and the flush of that table: the next query, or the commit for the last one. */
  lemma StepKeepsFaithfulIff(s: State, step: Step)
    requires Invariant(s) && Faithful(s) && Enabled(s, step)
    ensures Faithful(Do(s, step)) <==> !WritesUnderPass(s, step)
  {
    var s' := Do(s, step);
    if s'.pass.Some? && s.pass.Some? {
      var tokens, tokens' := s.pass.value.Rewritten(), s'.pass.value.Rewritten();
      if WritesUnderPass(s, step) {
        assert step.id in tokens' && tokens'[step.id] == s.pass.value.pending[step.id];
      } else {
        forall id | id in tokens' && id in s'.rows
          ensures s'.rows[id].Some? && s'.rows[id].value.plain == tokens'[id].plain
        {
          if id in tokens && id in s.rows { assert s.rows[id].Some? && s.rows[id].value.plain == tokens[id].plain; }
          PassHolds(s, step, id);
        }
      }
    }
  }

  /** Where a token that the pass holds after the step comes from. */
  lemma PassHolds(s: State, step: Step, id: Id)
    requires Invariant(s) && Enabled(s, step) && s.pass.Some? && Do(s, step).pass.Some?
    requires id in Do(s, step).pass.value.Rewritten()
    ensures var tokens, tokens' := s.pass.value.Rewritten(), Do(s, step).pass.value.Rewritten();
            if step.SelectTable? && id in s.rows && s.rows[id].Some? && id.table == s.pass.value.selected
            then tokens'[id].plain == s.rows[id].value.plain
            else id in tokens && tokens'[id] == tokens[id]
  {
  }

  /** Every pass of the run commits only while `NothingOverwritten`. */
  ghost predicate QuietPasses(s0: State, steps: seq<Step>)
    requires Legal(s0, steps)
    decreases |steps|
  {
    steps == [] ||
    var before, last := steps[..|steps| - 1], steps[|steps| - 1];
    QuietPasses(s0, before) &&
    (last.CommitPass? && CanFlush(After(s0, before)) ==> NothingOverwritten(After(s0, before)))
  }

  /** No step of the run writes under a pass. */
  ghost predicate CarefulWrites(s0: State, steps: seq<Step>)
    requires Legal(s0, steps)
    decreases |steps|
  {
    steps == [] ||
    var before, last := steps[..|steps| - 1], steps[|steps| - 1];
    CarefulWrites(s0, before) && !WritesUnderPass(After(s0, before), last)
  }

  lemma {:induction false} CarefulWritesAreQuiet(key: Key, steps: seq<Step>)
    requires Legal(Fresh(key), steps) && ThreeTables(steps) && CarefulWrites(Fresh(key), steps)
    ensures QuietPasses(Fresh(key), steps) && Faithful(After(Fresh(key), steps))
  {
    if steps != [] {
      var before := steps[..|steps| - 1];
      CarefulWritesAreQuiet(key, before);
      EveryRunKeepsInvariant(key, before);
      StepKeepsFaithfulIff(After(Fresh(key), before), steps[|steps| - 1]);
    }
  }

  /** At every moment of the run every row decrypts to what was last written to it. */
  ghost predicate AlwaysUpToDate(s0: State, steps: seq<Step>)
    requires Legal(s0, steps)
    decreases |steps|
  {
    AllUpToDate(After(s0, steps)) && (steps == [] || AlwaysUpToDate(s0, steps[..|steps| - 1]))
  }

  /** Every stored secret decrypts to the plaintext last written, at every moment of a run,
      exactly when every pass of the run commits while `NothingOverwritten`. */
  lemma {:induction false} LastPlaintextSurvives(key: Key, steps: seq<Step>)
    requires Legal(Fresh(key), steps) && ThreeTables(steps)
    ensures AlwaysUpToDate(Fresh(key), steps) <==> QuietPasses(Fresh(key), steps)
  {
    if steps != [] {
      var before := steps[..|steps| - 1];
      LastPlaintextSurvives(key, before);
      if AlwaysUpToDate(Fresh(key), before) {
        EveryRunKeepsInvariant(key, before);
        StepKeepsUpToDateIff(After(Fresh(key), before), steps[|steps| - 1]);
      }
    }
  }

  /** A pass that has read the first table of a one-row database. */
  function HalfWay(key: Key): State {
    State(Kek(key, []), map[Id(0, 0) := Some(Token(key, 1, "old"))], map[Id(0, 0) := Some("old")],
          Some(Pass(1, map[], map[Id(0, 0) := Token(key, 1, "old")])), true)
  }

  lemma HalfWayIsReachable(key: Key) returns (steps: seq<Step>)
    ensures Legal(Fresh(key), steps) && ThreeTables(steps) && After(Fresh(key), steps) == HalfWay(key)
  {
    var id, s0 := Id(0, 0), Fresh(key);
    OneMoreStep(s0, [], Write(id, Some("old"), 1));
    OneMoreStep(s0, [] + [Write(id, Some("old"), 1)], BeginPass);
    steps := [] + [Write(id, Some("old"), 1)] + [BeginPass];
    OneMoreStep(s0, steps, SelectTable);
    steps := steps + [SelectTable];
    assert After(s0, steps).pass.value.pending == map[id := Token(key, 1, "old")];
    assert After(s0, steps) == HalfWay(key);
  }

  /** Then the row is given a new secret, and the pass reads the other tables, both empty, and
      flushes the old secret. */
  function Overwritten(key: Key, selected: nat): State {
    var stale := map[Id(0, 0) := Token(key, 1, "old")];
    HalfWay(key).(rows := map[Id(0, 0) := Some(Token(key, 2, "new"))], written := map[Id(0, 0) := Some("new")],
                  pass := Some(if selected == 1 then Pass(1, map[], stale) else Pass(selected, stale, map[])))
  }

  lemma SelectEmpty(key: Key, selected: nat)
    requires 1 <= selected < 3
    ensures Do(Overwritten(key, selected), SelectTable) == Overwritten(key, selected + 1)
  {
    assert Selected(Overwritten(key, selected).rows, selected) == map[];
    var stale := map[Id(0, 0) := Token(key, 1, "old")];
    assert stale + map[] == stale == map[] + stale;
  }

  lemma OverwrittenIsReachable(key: Key) returns (steps: seq<Step>)
    ensures Legal(Fresh(key), steps) && ThreeTables(steps) && After(Fresh(key), steps) == Overwritten(key, 3)
  {
    var s0, write := Fresh(key), Write(Id(0, 0), Some("new"), 2);
    steps := HalfWayIsReachable(key);
    OneMoreStep(s0, steps, write);
    assert Do(HalfWay(key), write) == Overwritten(key, 1);
    steps := steps + [write];
    SelectEmpty(key, 1);
    OneMoreStep(s0, steps, SelectTable);
    steps := steps + [SelectTable];
    SelectEmpty(key, 2);
    OneMoreStep(s0, steps, SelectTable);
    steps := steps + [SelectTable];
  }

  /** The condition is needed: a credential changed under a pass reverts when it commits. */
  lemma PassCanRevertAWrite(key: Key) returns (steps: seq<Step>)
    ensures Legal(Fresh(key), steps) && ThreeTables(steps)
    ensures var s := After(Fresh(key), steps);
            Id(0, 0) in s.rows && Id(0, 0) in s.written &&
            s.written[Id(0, 0)] == Some("new") && s.rows[Id(0, 0)] == Some(Token(key, 1, "old"))
  {
    steps := OverwrittenIsReachable(key);
    OneMoreStep(Fresh(key), steps, CommitPass);
    steps := steps + [CommitPass];
  }

  lemma OneMoreStep(s0: State, steps: seq<Step>, step: Step)
    requires Legal(s0, steps) && Enabled(After(s0, steps), step)
    ensures Legal(s0, steps + [step]) && After(s0, steps + [step]) == Do(After(s0, steps), step)
  {
    assert (steps + [step])[..|steps|] == steps;
  }
}

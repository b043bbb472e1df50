/** The append-only audit log: record layout, hash chain, checkpoints and the sink that writes them.

    The record hash is a parameter `h`, any function from records to strings.  No theorem below
    assumes that `h` is injective: each one either reaches its conclusion or exhibits two different
    records of the logs at hand that `h` maps to the same digest. */
module AuditChain {
  import opened Prelude
  import opened Text

  // ---------- Records and the filling of their optional fields ----------

  /** A value in a `details` object as it is written: the members of an object stand in the order in
      which their keys sort, which is not the order of their texts where the keys are numbers.  The text
      of a list or an object is one fixed text. */
  datatype Value =
    | Null
    | Text(text: string)
    | Other(repr: string, truthy: bool)
    | List(items: seq<Value>)
    | Object(members: seq<Member>)
  {
    function Str(): string {
      match this
      case Null => "None"
      case Text(s) => s
      case Other(repr, _) => repr
      case List(_) => "[...]"
      case Object(_) => "{...}"
    }

    predicate Truthy() {
      match this
      case Null => false
      case Text(s) => s != ""
      case Other(_, t) => t
      case List(items) => items != []
      case Object(members) => members != []
    }
  }

  datatype Member = Member(key: string, value: Value)

  type Details = map<string, Value>

  datatype Record = Record(
    event: string,
    result: string,
    requestId: string,
    plugin: Option<string>,
    action: Option<string>,
    details: Details,
    createdAt: string,
    timestamp: Option<string>,
    pluginId: Option<string>,
    pluginVersion: Option<string>,
    resource: Option<string>,
    permission: Option<string>,
    decision: Option<string>,
    reason: Option<string>,
    actor: Option<string>,
    previousHash: Option<string>,
    currentHash: Option<string>)

  function Lookup(details: Details, key: string): Value {
    if key in details then details[key] else Null
  }

  /** The text of the first key that holds a non-null value. */
  function FirstPresent(details: Details, keys: seq<string>): Option<string> {
    if keys == [] then None
    else if Lookup(details, keys[0]) != Null then Some(Lookup(details, keys[0]).Str())
    else FirstPresent(details, keys[1..])
  }

  const RESOURCE_KEYS: seq<string> := ["resource", "url", "path", "key", "channel", "event"]
  const REASON_KEYS: seq<string> := ["reason", "error", "error_type"]

  function InferPermission(action: Option<string>, details: Details): Option<string> {
    if Lookup(details, "permission") != Null then Some(Lookup(details, "permission").Str())
    else if action.Some? && '.' in action.value then action
    else None
  }

  function InferDecision(result: string, details: Details): string {
    var decision := Lookup(details, "decision");
    if decision == Text("allow") || decision == Text("deny") then decision.text
    else if result == "success" || result == "skipped" then "allow"
    else "deny"
  }

  function InferActor(details: Details): string {
    if Lookup(details, "actor").Truthy() then Lookup(details, "actor").Str()
    else if Lookup(details, "reviewer").Truthy() then Lookup(details, "reviewer").Str()
    else "system"
  }

  function OrElse<T>(given: Option<T>, fallback: Option<T>): Option<T> {
    if given.Some? then given else fallback
  }

  /** What constructing a record does to its missing fields. */
  function Fill(r: Record): Record {
    r.(timestamp := OrElse(r.timestamp, Some(r.createdAt)),
       pluginId := OrElse(r.pluginId, r.plugin),
       pluginVersion := OrElse(r.pluginVersion, FirstPresent(r.details, ["version"])),
       resource := OrElse(r.resource, FirstPresent(r.details, RESOURCE_KEYS)),
       permission := OrElse(r.permission, InferPermission(r.action, r.details)),
       decision := OrElse(r.decision, Some(InferDecision(r.result, r.details))),
       reason := OrElse(r.reason, FirstPresent(r.details, REASON_KEYS)),
       actor := OrElse(r.actor, Some(InferActor(r.details))))
  }

  type Digest = Record -> string

  /** The bytes that are hashed: the filled record without its own hash. */
  function HashInput(r: Record): Record {
    Fill(r).(currentHash := None)
  }

  function Filled(es: seq<Record>): (r: seq<Record>)
    ensures |r| == |es| && forall i :: 0 <= i < |es| ==> r[i] == Fill(es[i])
  {
    seq(|es|, i requires 0 <= i < |es| => Fill(es[i]))
  }

  // ---------- Reading a written value back ----------

  /** Behind the members whose keys are not larger. */
  function InsertMember(m: Member, sorted: seq<Member>): (r: seq<Member>)
    ensures |r| == |sorted| + 1
  {
    if sorted == [] || TextLess(m.key, sorted[0].key) then [m] + sorted
    else [sorted[0]] + InsertMember(m, sorted[1..])
  }

  /** A reader has text keys only, and sorts them as such when it writes the record again. */
  function SortMembers(members: seq<Member>): (r: seq<Member>)
    ensures |r| == |members|
  {
    if members == [] then [] else InsertMember(members[|members| - 1], SortMembers(members[..|members| - 1]))
  }

  function ReadBack(v: Value): Value
    decreases v
  {
    match v
    case List(items) => List(seq(|items|, i requires 0 <= i < |items| => ReadBack(items[i])))
    case Object(members) =>
      Object(SortMembers(seq(|members|, i requires 0 <= i < |members| => Member(members[i].key, ReadBack(members[i].value)))))
    case _ => v
  }

  predicate KeysInOrder(members: seq<Member>) {
    forall i :: 0 <= i < |members| - 1 ==> !TextLess(members[i + 1].key, members[i].key)
  }

  /** Every object in the value has its keys in the order of their texts. */
  predicate InTextOrder(v: Value)
    decreases v
  {
    match v
    case List(items) => forall i :: 0 <= i < |items| ==> InTextOrder(items[i])
    case Object(members) => KeysInOrder(members) && forall i :: 0 <= i < |members| ==> InTextOrder(members[i].value)
    case _ => true
  }

  lemma {:induction false} InsertLast(m: Member, sorted: seq<Member>)
    requires KeysInOrder(sorted + [m])
    ensures InsertMember(m, sorted) == sorted + [m]
  {
    if sorted != [] {
      LastIsLargest(sorted, m);
      assert sorted[1..] + [m] == (sorted + [m])[1..];
      forall i | 0 <= i < |sorted| - 1 ensures !TextLess((sorted[1..] + [m])[i + 1].key, (sorted[1..] + [m])[i].key) {
        assert (sorted + [m])[i + 2] == (sorted[1..] + [m])[i + 1];
      }
      InsertLast(m, sorted[1..]);
    }
  }

  lemma {:induction false} LastIsLargest(sorted: seq<Member>, m: Member)
    requires sorted != [] && KeysInOrder(sorted + [m])
    ensures !TextLess(m.key, sorted[0].key)
  {
    var all := sorted + [m];
    if |sorted| == 1 {
      assert !TextLess(all[0 + 1].key, all[0].key);
    } else {
      var front := sorted[..|sorted| - 1];
      var last := sorted[|sorted| - 1];
      forall i | 0 <= i < |front| ensures !TextLess((front + [last])[i + 1].key, (front + [last])[i].key) {
        assert !TextLess(all[i + 1].key, all[i].key);
      }
      LastIsLargest(front, last);
      assert !TextLess(all[|front| + 1].key, all[|front|].key);
      NotLessText(sorted[0].key, last.key, m.key);
    }
  }

  lemma NotLessText(a: string, b: string, c: string)
    requires !TextLess(b, a) && !TextLess(c, b)
    ensures !TextLess(c, a)
  {
    TextLessTotal(a, b);
    TextLessTotal(b, c);
    TextLessTotal(a, c);
    if TextLess(a, b) && TextLess(b, c) { TextLessTrans(a, b, c); }
  }

  lemma {:induction false} InsertOrdered(m: Member, sorted: seq<Member>)
    requires KeysInOrder(sorted)
    ensures KeysInOrder(InsertMember(m, sorted))
    ensures InsertMember(m, sorted)[0] == m || (sorted != [] && InsertMember(m, sorted)[0] == sorted[0])
  {
    if sorted != [] {
      TextLessTotal(m.key, sorted[0].key);
      if !TextLess(m.key, sorted[0].key) {
        var rest := InsertMember(m, sorted[1..]);
        forall i | 0 <= i < |sorted[1..]| - 1 ensures !TextLess(sorted[1..][i + 1].key, sorted[1..][i].key) {
          assert !TextLess(sorted[i + 1 + 1].key, sorted[i + 1].key);
        }
        InsertOrdered(m, sorted[1..]);
        if |sorted| > 1 { assert !TextLess(sorted[0 + 1].key, sorted[0].key); }
        forall i | 0 <= i < |rest| ensures !TextLess(([sorted[0]] + rest)[i + 1].key, ([sorted[0]] + rest)[i].key) {
        }
      }
    }
  }

  lemma {:induction false} SortedOrdered(members: seq<Member>)
    ensures KeysInOrder(SortMembers(members))
    ensures KeysInOrder(members) ==> SortMembers(members) == members
  {
    if members != [] {
      var front, last := members[..|members| - 1], members[|members| - 1];
      SortedOrdered(front);
      InsertOrdered(last, SortMembers(front));
      if KeysInOrder(members) {
        forall i | 0 <= i < |front| - 1 ensures !TextLess(front[i + 1].key, front[i].key) {
          assert !TextLess(members[i + 1].key, members[i].key);
        }
        assert front + [last] == members;
        InsertLast(last, front);
      }
    }
  }

  /** A value reads back as it was written exactly if all its objects have their keys in text order. */
  lemma {:induction false} ReadsBackIff(v: Value)
    ensures ReadBack(v) == v <==> InTextOrder(v)
    decreases v
  {
    match v
    case List(items) =>
      forall i | 0 <= i < |items| ensures ReadBack(items[i]) == items[i] <==> InTextOrder(items[i]) {
        ReadsBackIff(items[i]);
      }
      assert ReadBack(v) == v <==> forall i :: 0 <= i < |items| ==> ReadBack(v).items[i] == items[i];
    case Object(members) =>
      forall i | 0 <= i < |members| ensures ReadBack(members[i].value) == members[i].value <==> InTextOrder(members[i].value) {
        ReadsBackIff(members[i].value);
      }
      var read := seq(|members|, i requires 0 <= i < |members| => Member(members[i].key, ReadBack(members[i].value)));
      SortedOrdered(read);
      assert KeysInOrder(read) <==> KeysInOrder(members) by {
        assert forall i :: 0 <= i < |members| ==> read[i].key == members[i].key;
      }
      assert KeysInOrder(members) ==> ReadBack(v) == Object(read);
      assert read == members <==> forall i :: 0 <= i < |members| ==> read[i].value == members[i].value;
    case _ =>
  }

  function ReadDetails(details: Details): Details {
    map key | key in details :: ReadBack(details[key])
  }

  function ReadRecord(r: Record): Record {
    r.(details := ReadDetails(r.details))
  }

  predicate DetailsInTextOrder(details: Details) {
    forall key :: key in details ==> InTextOrder(details[key])
  }

  lemma DetailsReadBackIff(details: Details)
    ensures ReadDetails(details) == details <==> DetailsInTextOrder(details)
  {
    forall key | key in details ensures ReadBack(details[key]) == details[key] <==> InTextOrder(details[key]) {
      ReadsBackIff(details[key]);
    }
    hide ReadBack, InTextOrder;
    assert ReadDetails(details) == details <==> forall key :: key in details ==> ReadDetails(details)[key] == details[key];
  }

  // ---------- Log lines and verification ----------

  datatype Line = Blank | NotJson | NotObject | Entry(payload: Record)

  datatype AuditError =
    | InvalidJson(line: nat)
    | NotAnObject(line: nat)
    | ChainBreak(line: nat)
    | MissingHash(line: nat)
    | HashMismatch(line: nat)
    | OtherLog
    | CheckpointAhead
    | CheckpointHashMismatch

  datatype ChainState = ChainState(records: nat, lastHash: string, hashes: map<nat, string>)

  datatype Checkpoint = Checkpoint(sequence: nat, hash: string, path: string)

  datatype Report = Report(records: nat, lastHash: string, anchored: bool)

  /** One line of the log, checked against the chain so far. */
  function CheckLine(h: Digest, st: ChainState, line: Line, number: nat): Result<ChainState, AuditError> {
    match line
    case Blank => Ok(st)
    case NotJson => Err(InvalidJson(number))
    case NotObject => Err(NotAnObject(number))
    case Entry(payload) =>
      if payload.previousHash != Some(st.lastHash) then Err(ChainBreak(number))
      else if payload.currentHash.None? || |payload.currentHash.value| != 64 then Err(MissingHash(number))
      else if payload.currentHash.value != h(HashInput(payload)) then Err(HashMismatch(number))
      else
        var hash := payload.currentHash.value;
        Ok(ChainState(st.records + 1, hash, st.hashes[st.records + 1 := hash]))
  }

  function Replay(h: Digest, lines: seq<Line>): Result<ChainState, AuditError> {
    if lines == [] then Ok(ChainState(0, "", map[]))
    else
      var n := |lines| - 1;
      match Replay(h, lines[..n])
      case Err(e) => Err(e)
      case Ok(st) => CheckLine(h, st, lines[n], n + 1)
  }

  function CheckAnchor(st: ChainState, path: string, anchor: Option<Checkpoint>): Result<Report, AuditError> {
    match anchor
    case None => Ok(Report(st.records, st.lastHash, false))
    case Some(cp) =>
      if cp.path != path then Err(OtherLog)
      else if st.records < cp.sequence then Err(CheckpointAhead)
      else
        var expected := if cp.sequence == 0 then Some("")
                        else if cp.sequence in st.hashes then Some(st.hashes[cp.sequence]) else None;
        if expected != Some(cp.hash) then Err(CheckpointHashMismatch)
        else Ok(Report(st.records, st.lastHash, true))
  }

  function Verify(h: Digest, lines: seq<Line>, path: string, anchor: Option<Checkpoint>): Result<Report, AuditError> {
    match Replay(h, lines)
    case Err(e) => Err(e)
    case Ok(st) => CheckAnchor(st, path, anchor)
  }

  /** `verify_audit_log`: one pass over the lines, then the comparison with the anchored checkpoint. */
  method VerifyAuditLog(h: Digest, lines: seq<Line>, path: string, anchor: Option<Checkpoint>)
    returns (r: Result<Report, AuditError>)
    ensures r == Verify(h, lines, path, anchor)
    ensures r.Ok? ==> Readable(lines) && Chained(h, Entries(lines)) && r.value.records == |Entries(lines)|
    ensures anchor.None? ==> (r.Ok? <==> Readable(lines) && Chained(h, Entries(lines)))
  {
    ReplayAccepts(h, lines);
    var st := ChainState(0, "", map[]);
    var n := 0;
    while n < |lines|
      invariant 0 <= n <= |lines|
      invariant Replay(h, lines[..n]) == Ok(st)
    {
      assert lines[..n + 1][..n] == lines[..n];
      match CheckLine(h, st, lines[n], n + 1) {
        case Err(e) =>
          ReplayErrorSticks(h, lines[..n + 1], lines[n + 1..]);
          assert lines[..n + 1] + lines[n + 1..] == lines;
          return Err(e);
        case Ok(next) =>
          st := next;
      }
      n := n + 1;
    }
    assert lines[..n] == lines;
    r := CheckAnchor(st, path, anchor);
  }

  // ---------- What an accepted log is ----------

  ghost predicate Readable(lines: seq<Line>) {
    forall i :: 0 <= i < |lines| ==> lines[i].Blank? || lines[i].Entry?
  }

  ghost function Entries(lines: seq<Line>): seq<Record> {
    if lines == [] then []
    else
      var n := |lines| - 1;
      Entries(lines[..n]) + if lines[n].Entry? then [lines[n].payload] else []
  }

  ghost function HashAfter(es: seq<Record>, n: nat): string
    requires n <= |es|
  {
    if n == 0 then ""
    else if es[n - 1].currentHash.Some? then es[n - 1].currentHash.value
    else ""
  }

  /** Every entry names its predecessor's digest and carries the digest of its own content. */
  ghost predicate Chained(h: Digest, es: seq<Record>) {
    forall i :: 0 <= i < |es| ==> Linked(h, es, i)
  }

  ghost predicate Linked(h: Digest, es: seq<Record>, i: nat)
    requires i < |es|
  {
    && es[i].previousHash == Some(HashAfter(es, i))
    && es[i].currentHash == Some(h(HashInput(es[i])))
    && |h(HashInput(es[i]))| == 64
  }

  ghost function ChainStateOf(es: seq<Record>): ChainState {
    ChainState(|es|, HashAfter(es, |es|), map i: nat | 1 <= i <= |es| :: HashAfter(es, i))
  }

  lemma LinkedInPrefix(h: Digest, es: seq<Record>, n: nat)
    requires n <= |es|
    ensures forall i :: 0 <= i < n ==> Linked(h, es[..n], i) == Linked(h, es, i)
    ensures forall i :: 0 <= i <= n ==> HashAfter(es[..n], i) == HashAfter(es, i)
  {
    forall i | 0 <= i <= n ensures HashAfter(es[..n], i) == HashAfter(es, i) {
      if i > 0 { assert es[..n][i - 1] == es[i - 1]; }
    }
  }

  /** One more entry after a chained log. */
  lemma CheckedEntry(h: Digest, before: seq<Record>, payload: Record, number: nat)
    requires Chained(h, before)
    ensures var es, r := before + [payload], CheckLine(h, ChainStateOf(before), Entry(payload), number);
            && (r.Ok? <==> Chained(h, es))
            && (r.Ok? ==> r.value == ChainStateOf(es))
  {
    hide Fill, HashInput;
    var es := before + [payload];
    assert es[..|before|] == before;
    LinkedInPrefix(h, es, |before|);
    assert Chained(h, es) <==> Linked(h, es, |before|);
    if Linked(h, es, |before|) {
      assert ChainStateOf(es).hashes == ChainStateOf(before).hashes[|es| := HashAfter(es, |es|)];
    }
  }

  lemma ChainedPrefix(h: Digest, es: seq<Record>, n: nat)
    requires n <= |es| && Chained(h, es)
    ensures Chained(h, es[..n])
  {
    hide Linked;
    LinkedInPrefix(h, es, n);
  }

  /** The verifying pass accepts exactly the readable, chained logs, and reports their length,
      their last digest and the digest after each record. */
  lemma {:induction false} ReplayAccepts(h: Digest, lines: seq<Line>)
    ensures Replay(h, lines).Ok? <==> Readable(lines) && Chained(h, Entries(lines))
    ensures Replay(h, lines).Ok? ==> Replay(h, lines).value == ChainStateOf(Entries(lines))
  {
    if lines != [] {
      hide Linked, ChainStateOf;
      var n := |lines| - 1;
      var before, es := Entries(lines[..n]), Entries(lines);
      ReplayAccepts(h, lines[..n]);
      assert Readable(lines) <==> Readable(lines[..n]) && (lines[n].Blank? || lines[n].Entry?) by {
        assert forall i :: 0 <= i < n ==> lines[..n][i] == lines[i];
      }
      if lines[n].Entry? {
        assert es == before + [lines[n].payload] && es[..|before|] == before;
        if Chained(h, before) {
          CheckedEntry(h, before, lines[n].payload, n + 1);
        } else if Chained(h, es) {
          ChainedPrefix(h, es, |before|);
        }
      } else {
        assert es == before;
      }
    }
  }

  /** No suffix turns a rejected log into an accepted one: the first complaint stands. */
  lemma {:induction false} ReplayErrorSticks(h: Digest, lines: seq<Line>, more: seq<Line>)
    requires Replay(h, lines).Err?
    ensures Replay(h, lines + more) == Replay(h, lines)
  {
    if more == [] {
      assert lines + more == lines;
    } else {
      var n := |more| - 1;
      ReplayErrorSticks(h, lines, more[..n]);
      assert (lines + more)[..|lines| + n] == lines + more[..n];
    }
  }

  // ---------- The head digest commits to the whole log ----------

  ghost predicate Collides(h: Digest, r: Record, s: Record) {
    HashInput(r) != HashInput(s) && h(HashInput(r)) == h(HashInput(s))
  }

  /** Two different records, one of each log, with the same digest. */
  ghost predicate Collision(h: Digest, a: seq<Record>, b: seq<Record>) {
    exists i, j :: 0 <= i < |a| && 0 <= j < |b| && Collides(h, a[i], b[j])
  }

  lemma NonemptyHead(h: Digest, es: seq<Record>)
    requires Chained(h, es)
    ensures es != [] <==> HashAfter(es, |es|) != ""
  {
    if es != [] { assert Linked(h, es, |es| - 1); }
  }

  lemma HeadFixesLastRecord(h: Digest, a: seq<Record>, b: seq<Record>)
    requires Chained(h, a) && Chained(h, b) && a != [] && b != []
    requires HashAfter(a, |a|) == HashAfter(b, |b|)
    requires !Collides(h, a[|a| - 1], b[|b| - 1])
    ensures Fill(a[|a| - 1]) == Fill(b[|b| - 1])
    ensures HashAfter(a, |a| - 1) == HashAfter(b, |b| - 1)
  {
    var m, n := |a| - 1, |b| - 1;
    assert Linked(h, a, m) && Linked(h, b, n);
    assert Fill(a[m]) == HashInput(a[m]).(currentHash := a[m].currentHash);
    assert Fill(b[n]) == HashInput(b[n]).(currentHash := b[n].currentHash);
    assert HashInput(a[m]).previousHash == a[m].previousHash;
    assert HashInput(b[n]).previousHash == b[n].previousHash;
  }

  /** Two chained logs with the same head digest are the same sequence of records, length included,
      unless the digest function collides on them. */
  lemma {:induction false} HeadFixesLog(h: Digest, a: seq<Record>, b: seq<Record>)
    requires Chained(h, a) && Chained(h, b)
    requires HashAfter(a, |a|) == HashAfter(b, |b|)
    ensures Filled(a) == Filled(b) || Collision(h, a, b)
  {
    NonemptyHead(h, a);
    NonemptyHead(h, b);
    if a != [] {
      hide Linked, Fill, HashInput, Collides;
      var m, n := |a| - 1, |b| - 1;
      if !Collides(h, a[m], b[n]) {
        HeadFixesLastRecord(h, a, b);
        LinkedInPrefix(h, a, m);
        LinkedInPrefix(h, b, n);
        HeadFixesLog(h, a[..m], b[..n]);
        CollisionInPrefix(h, a, b, m, n);
        FilledLast(a);
        FilledLast(b);
      }
    }
  }

  lemma CollisionInPrefix(h: Digest, a: seq<Record>, b: seq<Record>, m: nat, n: nat)
    requires m <= |a| && n <= |b|
    ensures Collision(h, a[..m], b[..n]) ==> Collision(h, a, b)
  {
    hide Collides;
    if Collision(h, a[..m], b[..n]) {
      var i, j :| 0 <= i < m && 0 <= j < n && Collides(h, a[..m][i], b[..n][j]);
      assert Collides(h, a[i], b[j]);
    }
  }

  lemma FilledLast(a: seq<Record>)
    requires a != []
    ensures Filled(a) == Filled(a[..|a| - 1]) + [Fill(a[|a| - 1])]
  {
    hide Fill;
  }

  /** Whatever was changed, dropped, inserted or moved: the altered log is rejected, or reports
      another head digest, or exhibits a collision. */
  lemma TamperingShows(h: Digest, lines: seq<Line>, altered: seq<Line>, path: string)
    requires Verify(h, lines, path, None).Ok?
    requires Filled(Entries(altered)) != Filled(Entries(lines))
    ensures || Verify(h, altered, path, None).Err?
            || Verify(h, altered, path, None).value.lastHash != Verify(h, lines, path, None).value.lastHash
            || Collision(h, Entries(lines), Entries(altered))
  {
    ReplayAccepts(h, lines);
    ReplayAccepts(h, altered);
    if Verify(h, altered, path, None).Ok?
       && Verify(h, altered, path, None).value.lastHash == Verify(h, lines, path, None).value.lastHash
    {
      HeadFixesLog(h, Entries(lines), Entries(altered));
    }
  }

  // ---------- Checkpoints commit to a prefix ----------

  /** `create_audit_checkpoint`: the log must verify first. */
  function CreateCheckpoint(h: Digest, lines: seq<Line>, path: string): Result<Checkpoint, AuditError> {
    match Replay(h, lines)
    case Err(e) => Err(e)
    case Ok(st) => Ok(Checkpoint(st.records, st.lastHash, path))
  }

  /** A checkpoint of log `earlier` accepts `later` exactly when `later` verifies and extends `earlier`
      (the direction from acceptance to extension up to a collision between the two logs). */
  lemma CheckpointFixesPrefix(h: Digest, earlier: seq<Line>, later: seq<Line>, path: string)
    requires CreateCheckpoint(h, earlier, path).Ok?
    ensures var cp := CreateCheckpoint(h, earlier, path).value;
            var accepted := Verify(h, later, path, Some(cp)).Ok?;
            && (accepted ==> Filled(Entries(earlier)) <= Filled(Entries(later)) || Collision(h, Entries(earlier), Entries(later)))
            && (Replay(h, later).Ok? && Filled(Entries(earlier)) <= Filled(Entries(later)) ==> accepted)
            && (accepted ==> Replay(h, later).Ok?)
  {
    var cp := CreateCheckpoint(h, earlier, path).value;
    var a, b := Entries(earlier), Entries(later);
    ReplayAccepts(h, earlier);
    ReplayAccepts(h, later);
    if Verify(h, later, path, Some(cp)).Ok? {
      LinkedInPrefix(h, b, |a|);
      HeadFixesLog(h, a, b[..|a|]);
      assert a[..|a|] == a;
      CollisionInPrefix(h, a, b, |a|, |a|);
      assert Filled(b)[..|a|] == Filled(b[..|a|]);
    }
    if Replay(h, later).Ok? && Filled(a) <= Filled(b) && a != [] {
      var n := |a| - 1;
      assert Filled(b)[n] == Filled(b)[..|a|][n] == Filled(a)[n];
      assert a[n].currentHash == Fill(a[n]).currentHash == Fill(b[n]).currentHash == b[n].currentHash;
      assert HashAfter(a, |a|) == HashAfter(b, |a|);
    }
  }

  // ---------- Appending ----------

  /** The arguments of one `record` call, with the identifier and time it would generate. */
  datatype Call = Call(
    event: string,
    result: string,
    requestId: Option<string>,
    plugin: Option<string>,
    action: Option<string>,
    details: Option<Details>,
    pluginId: Option<string>,
    pluginVersion: Option<string>,
    resource: Option<string>,
    permission: Option<string>,
    decision: Option<string>,
    reason: Option<string>,
    actor: Option<string>,
    freshId: string,
    now: string)

  function BaseRecord(call: Call, previous: string): Record {
    Record(
      call.event,
      call.result,
      if call.requestId.Some? && call.requestId.value != "" then call.requestId.value else call.freshId,
      call.plugin,
      call.action,
      if call.details.Some? then call.details.value else map[],
      call.now,
      None,
      call.pluginId,
      call.pluginVersion,
      call.resource,
      call.permission,
      call.decision,
      call.reason,
      call.actor,
      Some(previous),
      None)
  }

  /** The record as written: hashed after filling, and filled again when the hash is put in. */
  function WrittenRecord(h: Digest, call: Call, previous: string): Record {
    var base := Fill(BaseRecord(call, previous));
    Fill(base.(currentHash := Some(h(base.(currentHash := None)))))
  }

  /** The hash the next record links to, read from the last line that is not blank. */
  function LastHash(lines: seq<Line>): Result<string, AuditError> {
    if lines == [] then Ok("")
    else
      var n := |lines| - 1;
      match lines[n]
      case Blank => LastHash(lines[..n])
      case NotJson => Ok("")
      case NotObject => Err(NotAnObject(n + 1))
      case Entry(payload) => Ok(if payload.currentHash.Some? then payload.currentHash.value else "")
  }

  function AppendRecord(h: Digest, lines: seq<Line>, call: Call): Result<seq<Line>, AuditError> {
    match LastHash(lines)
    case Err(e) => Err(e)
    case Ok(previous) => Ok(lines + [Entry(ReadRecord(WrittenRecord(h, call, previous)))])
  }

  /** A log in memory, the file behind `AuditLogger`. */
  class AuditLogger {
    const h: Digest
    const path: string
    var lines: seq<Line>

    constructor (h: Digest, path: string)
      ensures this.h == h && this.path == path && lines == []
    {
      this.h, this.path, lines := h, path, [];
    }

    method LastCurrentHash() returns (r: Result<string, AuditError>)
      ensures r == LastHash(lines)
    {
      var n := |lines|;
      assert lines[..n] == lines;
      while n > 0
        invariant 0 <= n <= |lines|
        invariant LastHash(lines) == LastHash(lines[..n])
      {
        assert lines[..n][..n - 1] == lines[..n - 1];
        n := n - 1;
        match lines[n] {
          case Blank =>
          case NotJson => return Ok("");
          case NotObject => return Err(NotAnObject(n + 1));
          case Entry(payload) =>
            return Ok(if payload.currentHash.Some? then payload.currentHash.value else "");
        }
      }
      r := Ok("");
    }

    /** Appends one linked record; nothing is written when the log's last line is not an object. */
    method Record(call: Call) returns (r: Result<Record, AuditError>)
      modifies this
      ensures AppendRecord(h, old(lines), call).Ok? ==>
                && r.Ok? && lines == AppendRecord(h, old(lines), call).value
                && lines == old(lines) + [Entry(ReadRecord(r.value))]
      ensures AppendRecord(h, old(lines), call).Err? ==> r.Err? && lines == old(lines)
      ensures HexDigest(h) && Replay(h, old(lines)).Ok? ==>
                && r.Ok? && Entries(lines) == Entries(old(lines)) + [ReadRecord(r.value)]
                && (Replay(h, lines).Ok? <==> InOrder(call) || Collides(h, ReadRecord(r.value), r.value))
    {
      hide WrittenRecord, ReadRecord, Collides, Replay, Entries, HexDigest, InOrder, LastHash;
      ghost var was := lines;
      if HexDigest(h) && Replay(h, was).Ok? {
        AppendKeepsChain(h, was, call);
        LastHashIsHead(h, was);
      }
      var previous := LastCurrentHash();
      match previous {
        case Err(e) => r := Err(e);
        case Ok(hash) =>
          var record := WrittenRecord(h, call, hash);
          lines := lines + [Entry(ReadRecord(record))];
          r := Ok(record);
      }
    }

    method VerifyLog(anchor: Option<Checkpoint>) returns (r: Result<Report, AuditError>)
      ensures r == Verify(h, lines, path, anchor)
    {
      r := VerifyAuditLog(h, lines, path, anchor);
    }
  }

  ghost predicate HexDigest(h: Digest) {
    forall r :: |h(r)| == 64
  }

  predicate InOrder(call: Call) {
    call.details.Some? ==> DetailsInTextOrder(call.details.value)
  }

  /** A written record is filled, and stays so when it is read back; what is hashed then is what was
      hashed on writing exactly if the objects in its details have their keys in text order. */
  lemma WrittenRecordHashesAsRead(h: Digest, call: Call, previous: string)
    ensures var w := WrittenRecord(h, call, previous);
            && Fill(w) == w && Fill(ReadRecord(w)) == ReadRecord(w)
            && w.previousHash == Some(previous)
            && w.currentHash == Some(h(HashInput(w)))
            && w.event == call.event && w.result == call.result && w.createdAt == call.now
            && (HashInput(ReadRecord(w)) == HashInput(w) <==> InOrder(call))
  {
    var base := Fill(BaseRecord(call, previous));
    assert Fill(base) == base;
    var w := WrittenRecord(h, call, previous);
    DetailsReadBackIff(w.details);
    ReadPresent(w.details, ["version"]);
    ReadPresent(w.details, RESOURCE_KEYS);
    ReadPresent(w.details, REASON_KEYS);
    assert Lookup(ReadDetails(w.details), "permission") == Null <==> Lookup(w.details, "permission") == Null;
    hide ReadDetails, FirstPresent, DetailsInTextOrder;
    assert Fill(ReadRecord(w)) == ReadRecord(w);
    assert w.details == if call.details.Some? then call.details.value else map[];
  }

  lemma {:induction false} ReadPresent(details: Details, keys: seq<string>)
    ensures FirstPresent(ReadDetails(details), keys).None? <==> FirstPresent(details, keys).None?
  {
    if keys != [] {
      ReadPresent(details, keys[1..]);
    }
  }

  lemma {:induction false} LastHashIsHead(h: Digest, lines: seq<Line>)
    requires Replay(h, lines).Ok?
    ensures LastHash(lines) == Ok(Replay(h, lines).value.lastHash)
  {
    if lines != [] && lines[|lines| - 1].Blank? {
      LastHashIsHead(h, lines[..|lines| - 1]);
    }
  }

  /** Appending to an accepted log adds one record, and keeps it accepted exactly if the objects in the
      call's details have their keys in text order, or the record collides with what is read back. */
  lemma AppendKeepsChain(h: Digest, lines: seq<Line>, call: Call)
    requires HexDigest(h)
    requires Replay(h, lines).Ok?
    ensures AppendRecord(h, lines, call).Ok?
    ensures var after := AppendRecord(h, lines, call).value;
            var w := WrittenRecord(h, call, Replay(h, lines).value.lastHash);
            && (Replay(h, after).Ok? <==> InOrder(call) || Collides(h, ReadRecord(w), w))
            && Entries(after) == Entries(lines) + [ReadRecord(w)]
  {
    LastHashIsHead(h, lines);
    var st := Replay(h, lines).value;
    WrittenRecordHashesAsRead(h, call, st.lastHash);
    hide WrittenRecord, HashInput, InOrder, ReadRecord;
    var after := AppendRecord(h, lines, call).value;
    assert after[..|lines|] == lines;
    var w := WrittenRecord(h, call, st.lastHash);
    assert ReadRecord(w).previousHash == w.previousHash && ReadRecord(w).currentHash == w.currentHash by { ReadKeepsHashes(w); }
    assert |h(HashInput(w))| == 64;
  }

  lemma ReadKeepsHashes(w: Record)
    ensures ReadRecord(w).previousHash == w.previousHash && ReadRecord(w).currentHash == w.currentHash
  {
  }

  /** The log after a sequence of `record` calls.  The calls of several threads are some such
      sequence, since each runs under the logger's lock. */
  function RecordAll(h: Digest, lines: seq<Line>, calls: seq<Call>): seq<Line> {
    if calls == [] then lines
    else
      var rest := RecordAll(h, lines, calls[..|calls| - 1]);
      match AppendRecord(h, rest, calls[|calls| - 1])
      case Ok(after) => after
      case Err(_) => rest
  }

  /** Entry `i` is what is read back of the record written for call `i` on top of the entries before. */
  ghost predicate WrittenInOrder(h: Digest, calls: seq<Call>, es: seq<Record>) {
    && |es| == |calls|
    && forall i :: 0 <= i < |calls| ==> es[i] == ReadRecord(WrittenRecord(h, calls[i], HashAfter(es, i)))
  }

  lemma WrittenInOrderStep(h: Digest, calls: seq<Call>, es: seq<Record>, call: Call)
    requires WrittenInOrder(h, calls, es)
    ensures WrittenInOrder(h, calls + [call], es + [ReadRecord(WrittenRecord(h, call, HashAfter(es, |es|)))])
  {
    hide ReadRecord, WrittenRecord;
    var more := es + [ReadRecord(WrittenRecord(h, call, HashAfter(es, |es|)))];
    forall i | 0 <= i <= |es| ensures HashAfter(more, i) == HashAfter(es, i) {
      if i > 0 { assert more[i - 1] == es[i - 1]; }
    }
  }

  ghost predicate OnlyEntries(lines: seq<Line>) {
    forall i :: 0 <= i < |lines| ==> lines[i].Entry?
  }

  lemma {:induction false} HashOfEntries(lines: seq<Line>)
    requires OnlyEntries(lines)
    ensures |Entries(lines)| == |lines| && LastHash(lines) == Ok(HashAfter(Entries(lines), |lines|))
  {
    if lines != [] {
      HashOfEntries(lines[..|lines| - 1]);
    }
  }

  /** One more call adds one record, linked to the one before it. */
  lemma RecordAllStep(h: Digest, calls: seq<Call>, call: Call)
    requires OnlyEntries(RecordAll(h, [], calls))
    ensures var before := RecordAll(h, [], calls);
            var after := RecordAll(h, [], calls + [call]);
            && OnlyEntries(after)
            && Entries(after) == Entries(before) + [ReadRecord(WrittenRecord(h, call, HashAfter(Entries(before), |Entries(before)|)))]
  {
    hide WrittenRecord, ReadRecord;
    var before := RecordAll(h, [], calls);
    assert (calls + [call])[..|calls|] == calls;
    HashOfEntries(before);
    var after := RecordAll(h, [], calls + [call]);
    assert after[..|before|] == before;
  }

  lemma EmptyLog(h: Digest)
    ensures OnlyEntries(RecordAll(h, [], []))
    ensures WrittenInOrder(h, [], Entries(RecordAll(h, [], [])))
  {
  }

  /** Whatever is recorded, the log has exactly one record per call, in call order. */
  lemma {:induction false} BuiltInOrder(h: Digest, calls: seq<Call>)
    ensures OnlyEntries(RecordAll(h, [], calls))
    ensures WrittenInOrder(h, calls, Entries(RecordAll(h, [], calls)))
  {
    hide RecordAll, Entries, WrittenRecord, WrittenInOrder, HashAfter, OnlyEntries;
    if calls == [] {
      EmptyLog(h);
    } else {
      var n := |calls| - 1;
      BuiltInOrder(h, calls[..n]);
      RecordAllStep(h, calls[..n], calls[n]);
      WrittenInOrderStep(h, calls[..n], Entries(RecordAll(h, [], calls[..n])), calls[n]);
      assert calls[..n] + [calls[n]] == calls;
    }
  }

  /** A log built from empty verifies exactly if every call has its details in text order, or its record
      collides with what is read back of it. */
  lemma BuiltLogVerifies(h: Digest, calls: seq<Call>)
    requires HexDigest(h)
    ensures var lines := RecordAll(h, [], calls);
            var es := Entries(lines);
            && WrittenInOrder(h, calls, es)
            && (Replay(h, lines).Ok? <==>
                  forall i :: 0 <= i < |calls| ==>
                    InOrder(calls[i]) || Collides(h, es[i], WrittenRecord(h, calls[i], HashAfter(es, i))))
  {
    hide RecordAll, Replay, Entries, WrittenRecord, ReadRecord, HashInput, InOrder;
    var lines := RecordAll(h, [], calls);
    var es := Entries(lines);
    BuiltInOrder(h, calls);
    ReplayAccepts(h, lines);
    forall i | 0 <= i < |calls|
      ensures Linked(h, es, i) <==> InOrder(calls[i]) || Collides(h, es[i], WrittenRecord(h, calls[i], HashAfter(es, i)))
    {
      var w := WrittenRecord(h, calls[i], HashAfter(es, i));
      WrittenRecordHashesAsRead(h, calls[i], HashAfter(es, i));
      ReadKeepsHashes(w);
      assert |h(HashInput(es[i]))| == 64;
    }
  }

  /** A call whose details hold an object with the keys 2 and 10, in the order of the numbers. */
  function NumberedCall(id: string, now: string): Call {
    var details := map["sizes" := Object([Member("2", Null), Member("10", Null)])];
    Call("event", "success", None, None, None, Some(details), None, None, None, None, None, None, None, id, now)
  }

  /** The log of that one call is rejected, or its record collides with what is read back. */
  lemma NumberedKeysAreRejected(h: Digest, id: string, now: string)
    requires HexDigest(h)
    ensures var call := NumberedCall(id, now);
            var w := WrittenRecord(h, call, "");
            !InOrder(call) && (Replay(h, RecordAll(h, [], [call])).Ok? ==> Collides(h, ReadRecord(w), w))
  {
    var call := NumberedCall(id, now);
    var members := [Member("2", Null), Member("10", Null)];
    assert TextLess(members[0 + 1].key, members[0].key);
    assert !InTextOrder(call.details.value["sizes"]);
    hide RecordAll, Replay, WrittenRecord, ReadRecord, Collides, InOrder, Entries;
    BuiltLogVerifies(h, [call]);
    assert [call][0] == call;
  }

  lemma {:induction false} BuiltLogExtends(h: Digest, calls: seq<Call>, more: seq<Call>)
    ensures Entries(RecordAll(h, [], calls)) <= Entries(RecordAll(h, [], calls + more))
  {
    hide RecordAll, Entries, WrittenRecord, HashAfter;
    if more == [] {
      assert calls + more == calls;
    } else {
      var n := |more| - 1;
      BuiltLogExtends(h, calls, more[..n]);
      BuiltInOrder(h, calls + more[..n]);
      RecordAllStep(h, calls + more[..n], more[n]);
      assert calls + more[..n] + [more[n]] == calls + more;
    }
  }

  lemma FilledPrefix(a: seq<Record>, b: seq<Record>)
    requires a <= b
    ensures Filled(a) <= Filled(b)
  {
    assert Filled(b)[..|a|] == Filled(a);
  }

  ghost predicate AllInOrder(calls: seq<Call>) {
    forall i :: 0 <= i < |calls| ==> InOrder(calls[i])
  }

  /** Growth never trips a checkpoint: a grown log that verifies does so against every earlier one, and
      it verifies if all details are in text order. */
  lemma EarlierCheckpointAccepts(h: Digest, calls: seq<Call>, more: seq<Call>, path: string)
    requires HexDigest(h)
    ensures AllInOrder(calls + more) ==> Replay(h, RecordAll(h, [], calls + more)).Ok?
    ensures Replay(h, RecordAll(h, [], calls + more)).Ok? ==>
              var cp := CreateCheckpoint(h, RecordAll(h, [], calls), path);
              cp.Ok? && Verify(h, RecordAll(h, [], calls + more), path, Some(cp.value)).Ok?
  {
    hide RecordAll, Replay, Verify, CreateCheckpoint, WrittenInOrder, WrittenRecord, Collides, Entries, InOrder, HexDigest;
    var earlier, later := RecordAll(h, [], calls), RecordAll(h, [], calls + more);
    BuiltLogVerifies(h, calls + more);
    BuiltInOrder(h, calls);
    BuiltLogExtends(h, calls, more);
    if Replay(h, later).Ok? {
      EarlierVerifies(h, earlier, later);
      FilledPrefix(Entries(earlier), Entries(later));
      CheckpointExists(h, earlier, path);
      CheckpointFixesPrefix(h, earlier, later, path);
    }
  }

  lemma EarlierVerifies(h: Digest, earlier: seq<Line>, later: seq<Line>)
    requires OnlyEntries(earlier) && Entries(earlier) <= Entries(later) && Replay(h, later).Ok?
    ensures Replay(h, earlier).Ok?
  {
    ReplayAccepts(h, earlier);
    ReplayAccepts(h, later);
    hide Replay, Entries;
    ChainedPrefix(h, Entries(later), |Entries(earlier)|);
    assert Entries(later)[..|Entries(earlier)|] == Entries(earlier);
  }

  lemma CheckpointExists(h: Digest, lines: seq<Line>, path: string)
    requires Replay(h, lines).Ok?
    ensures CreateCheckpoint(h, lines, path).Ok?
  {
  }

  // ---------- The sink ----------

  class LocalCheckpointAnchor {
    var stored: Option<Checkpoint>

    constructor ()
      ensures stored == None
    {
      stored := None;
    }

    method WriteCheckpoint(checkpoint: Checkpoint)
      modifies this
      ensures stored == Some(checkpoint)
    {
      stored := Some(checkpoint);
    }
  }

  datatype SinkConfig = SinkConfig(h: Digest, path: string, anchored: bool, interval: nat)

  datatype SinkState = SinkState(lines: seq<Line>, stored: Option<Checkpoint>)

  datatype SinkOp = Append(call: Call) | Flush

  /** Takes a checkpoint and anchors it; a log that does not verify raises and anchors nothing. */
  function SinkCheckpoint(c: SinkConfig, s: SinkState): (SinkState, bool) {
    match CreateCheckpoint(c.h, s.lines, c.path)
    case Err(_) => (s, false)
    case Ok(cp) => (if c.anchored then s.(stored := Some(cp)) else s, true)
  }

  /** The state after an operation, and whether it returned normally. */
  function SinkStep(c: SinkConfig, s: SinkState, op: SinkOp): (SinkState, bool) {
    match op
    case Append(call) =>
      (match AppendRecord(c.h, s.lines, call)
       case Err(_) => (s, false)
       case Ok(lines) =>
         var s1 := s.(lines := lines);
         if !c.anchored || c.interval == 0 then (s1, true)
         else
           match Replay(c.h, lines)
           case Err(_) => (s1, false)
           case Ok(st) =>
             if st.records != 0 && st.records % c.interval == 0 then SinkCheckpoint(c, s1) else (s1, true))
    case Flush => if c.anchored then SinkCheckpoint(c, s) else (s, true)
  }

  class LocalHashChainAuditSink {
    const logger: AuditLogger
    const anchor: LocalCheckpointAnchor?
    const interval: nat

    constructor (logger: AuditLogger, anchor: LocalCheckpointAnchor?, interval: int)
      ensures this.logger == logger && this.anchor == anchor
      ensures this.interval == if interval > 0 then interval else 0
    {
      this.logger, this.anchor := logger, anchor;
      this.interval := if interval > 0 then interval else 0;
    }

    ghost function Config(): SinkConfig {
      SinkConfig(logger.h, logger.path, anchor != null, interval)
    }

    ghost function State(): SinkState
      reads this, logger, anchor
    {
      SinkState(logger.lines, if anchor != null then anchor.stored else None)
    }

    method Append(call: Call) returns (ok: bool)
      modifies logger, anchor
      ensures (State(), ok) == SinkStep(Config(), old(State()), SinkOp.Append(call))
    {
      var r := logger.Record(call);
      if r.Err? {
        return false;
      }
      if anchor != null && interval > 0 {
        var report := VerifyAuditLog(logger.h, logger.lines, logger.path, None);
        if report.Err? {
          return false;
        }
        if report.value.records != 0 && report.value.records % interval == 0 {
          ok := TakeCheckpoint();
          return;
        }
      }
      ok := true;
    }

    method Flush() returns (ok: bool)
      modifies anchor
      ensures (State(), ok) == SinkStep(Config(), old(State()), SinkOp.Flush)
    {
      ok := true;
      if anchor != null {
        ok := TakeCheckpoint();
      }
    }

    method TakeCheckpoint() returns (ok: bool)
      modifies anchor
      ensures (State(), ok) == SinkCheckpoint(Config(), old(State()))
    {
      var report := VerifyAuditLog(logger.h, logger.lines, logger.path, None);
      if report.Err? {
        return false;
      }
      if anchor != null {
        anchor.WriteCheckpoint(Checkpoint(report.value.records, report.value.lastHash, logger.path));
      }
      ok := true;
    }
  }

  function SinkRun(c: SinkConfig, s: SinkState, ops: seq<SinkOp>): SinkState {
    if ops == [] then s
    else SinkStep(c, SinkRun(c, s, ops[..|ops| - 1]), ops[|ops| - 1]).0
  }

  function Anchored(s: SinkState): nat {
    if s.stored.Some? then s.stored.value.sequence else 0
  }

  /** What every state of a sink run satisfies: the log and its anchor agree, and the anchor has
      caught up with the last multiple of the interval. */
  ghost predicate SinkInvariant(c: SinkConfig, s: SinkState)
    requires c.interval > 0
  {
    var n := |Entries(s.lines)|;
    && Replay(c.h, s.lines).Ok?
    && Verify(c.h, s.lines, c.path, s.stored).Ok?
    && Anchored(s) <= n
    && n - Anchored(s) <= n % c.interval
  }

  lemma {:induction false} MulMonotone(a: nat, b: nat, k: nat)
    requires a <= b
    ensures a * k <= b * k
    decreases b
  {
    if a < b {
      MulMonotone(a, b - 1, k);
      assert b * k == (b - 1) * k + k;
    }
  }

  lemma ModUnique(n: nat, k: nat, q: nat, r: nat)
    requires r < k && n == q * k + r
    ensures n % k == r
  {
    var d, m := n / k, n % k;
    assert n == d * k + m;
    assert (q + 1) * k == q * k + k;
    assert (d + 1) * k == d * k + k;
    if q < d {
      MulMonotone(q + 1, d, k);
    } else if d < q {
      MulMonotone(d + 1, q, k);
    }
  }

  lemma ModStep(n: nat, k: nat)
    requires k > 0
    ensures (n + 1) % k == if n % k + 1 == k then 0 else n % k + 1
  {
    var q, r := n / k, n % k;
    assert n == q * k + r;
    if r + 1 == k {
      assert (q + 1) * k == q * k + k;
      ModUnique(n + 1, k, q + 1, 0);
    } else {
      ModUnique(n + 1, k, q, r + 1);
    }
  }

  lemma FreshCheckpointAccepts(h: Digest, lines: seq<Line>, path: string)
    requires Replay(h, lines).Ok?
    ensures Verify(h, lines, path, Some(CreateCheckpoint(h, lines, path).value)).Ok?
  {
    ReplayAccepts(h, lines);
  }

  /** What the record of an append, if it is one, has to satisfy for the log to verify after it. */
  ghost predicate ReadsAsWritten(c: SinkConfig, s: SinkState, op: SinkOp)
    requires Replay(c.h, s.lines).Ok?
  {
    op.Append? ==>
      var w := WrittenRecord(c.h, op.call, Replay(c.h, s.lines).value.lastHash);
      InOrder(op.call) || Collides(c.h, ReadRecord(w), w)
  }

  /** From a log that agrees with its anchor, an operation raises exactly if it appends details that are
      not in text order, and otherwise keeps the agreement. */
  lemma SinkStepKeepsInvariant(c: SinkConfig, s: SinkState, op: SinkOp)
    requires HexDigest(c.h) && c.anchored && c.interval > 0
    requires SinkInvariant(c, s)
    ensures SinkStep(c, s, op).1 <==> ReadsAsWritten(c, s, op)
    ensures SinkStep(c, s, op).1 ==> SinkInvariant(c, SinkStep(c, s, op).0)
  {
    if op.Flush? {
      ReplayAccepts(c.h, s.lines);
      FreshCheckpointAccepts(c.h, s.lines, c.path);
    } else {
      AppendStep(c, s, op);
    }
  }

  lemma AppendStep(c: SinkConfig, s: SinkState, op: SinkOp)
    requires HexDigest(c.h) && c.anchored && c.interval > 0
    requires SinkInvariant(c, s) && op.Append?
    ensures SinkStep(c, s, op).1 <==> ReadsAsWritten(c, s, op)
    ensures SinkStep(c, s, op).1 ==> SinkInvariant(c, SinkStep(c, s, op).0)
  {
    hide WrittenRecord, ReadRecord, Collides, InOrder, Replay, LastHash, Entries, HexDigest, AppendRecord, Linked;
    AppendKeepsChain(c.h, s.lines, op.call);
    var after := AppendRecord(c.h, s.lines, op.call).value;
    if Replay(c.h, after).Ok? {
      ReplayAccepts(c.h, s.lines);
      ReplayAccepts(c.h, after);
      ModStep(|Entries(s.lines)|, c.interval);
      FreshCheckpointAccepts(c.h, after, c.path);
      forall i | 1 <= i <= |Entries(s.lines)| ensures HashAfter(Entries(after), i) == HashAfter(Entries(s.lines), i) {
        assert Entries(after)[i - 1] == Entries(s.lines)[i - 1];
      }
    }
  }

  /** No operation of the run raises. */
  ghost predicate NoneRaises(c: SinkConfig, ops: seq<SinkOp>) {
    forall n :: 0 <= n < |ops| ==> SinkStep(c, SinkRun(c, SinkState([], None), ops[..n]), ops[n]).1
  }

  /** In every run of `append` and `flush` from an empty log with an anchor and an interval k > 0, while
      no operation raises: the log verifies against its anchor, and the anchored sequence is at most the
      log's length and fewer than k records behind it.  Calls with details in text order never raise. */
  lemma {:induction false} SinkLag(c: SinkConfig, ops: seq<SinkOp>)
    requires HexDigest(c.h) && c.anchored && c.interval > 0
    ensures NoneRaises(c, ops) ==>
              var s := SinkRun(c, SinkState([], None), ops);
              && SinkInvariant(c, s)
              && Anchored(s) <= |Entries(s.lines)| < Anchored(s) + c.interval
    ensures (forall n :: 0 <= n < |ops| && ops[n].Append? ==> InOrder(ops[n].call)) ==> NoneRaises(c, ops)
  {
    if ops == [] {
      assert 0 % c.interval == 0 by { ModUnique(0, c.interval, 0, 0); }
    } else {
      hide SinkStep, InOrder, Replay, Verify, Entries;
      var front := ops[..|ops| - 1];
      forall n | 0 <= n <= |front| ensures front[..n] == ops[..n] {}
      assert forall n :: 0 <= n < |front| ==> front[n] == ops[n];
      SinkLag(c, front);
      if NoneRaises(c, front) {
        SinkStepKeepsInvariant(c, SinkRun(c, SinkState([], None), front), ops[|ops| - 1]);
      }
    }
  }
}

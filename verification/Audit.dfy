/** The hash-chained audit log: append, reopen and verify, and the reverse-scan query. */
module Audit {
  import opened Text
  import opened Bytes
  import opened Ordering
  import opened Types

  const MAX_LINE_BYTES := 1024 * 1024

  datatype AuditEvent = AuditEvent(
    event: string, actor: Actor, requestID: string, sessionID: string, planID: string, planDigest: string,
    action: string,
    risk: string, status: string, rollbackStatus: string, parameters: map<string, string>, errorCode: string)

  /** A record as memory holds it. Its sanitized texts may end in stray bytes. */
  datatype AuditRecord = AuditRecord(
    schema: string, sequence: nat, id: string, timestamp: Time, event: GoText, actor: Actor, requestID: GoText,
    sessionID: GoText, planID: GoText, planDigest: string, action: GoText, risk: GoText, status: GoText,
    rollbackStatus: GoText, parameters: map<string, GoText>, errorCode: GoText, previousHash: string, entryHash: string)

  /** The hashed fields. The list of parameters sorted by their distinct names is the map itself. */
  datatype CanonicalRecord = CanonicalRecord(
    schema: string, sequence: nat, id: string, timestamp: Time, event: GoText, actorID: string, actorKind: ActorKind,
    roles: seq<string>, permissions: seq<string>, requestID: GoText, sessionID: GoText, planID: GoText,
    planDigest: string, action: GoText, risk: GoText, status: GoText, rollbackStatus: GoText,
    parameters: map<string, GoText>, errorCode: GoText, previousHash: string)

  /** SHA-256 over the JSON text of the canonical record: an arbitrary function here. */
  type RecordHash = CanonicalRecord -> HexDigest

  /** The length of a record's JSON line, without its newline: an arbitrary function here. */
  type LineSize = AuditRecord -> nat

  function Canonical(r: AuditRecord): CanonicalRecord {
    CanonicalRecord(
      r.schema, r.sequence, r.id, r.timestamp, r.event, r.actor.id, r.actor.kind, Sort(Itself, r.actor.roles),
      Sort(Itself, r.actor.permissions), r.requestID, r.sessionID, r.planID, r.planDigest, r.action, r.risk, r.status,
      r.rollbackStatus, r.parameters, r.errorCode, r.previousHash)
  }

  // ---- Sanitizing ----

  predicate IsControl(c: char) {
    c < ' ' || c == '\U{7F}'
  }

  predicate HasControl(t: GoText) {
    exists i :: 0 <= i < |t| && t[i].Scalar? && IsControl(t[i].c)
  }

  function SanitizeLabel(value: string, limit: nat): GoText {
    WithoutControl(Truncate(Trim(value), limit))
  }

  function WithoutControl(t: GoText): GoText {
    if HasControl(t) then [] else t
  }

  /** A label fits its limit and has no control character; it is the trimmed text cut to the limit, unless that has
      one. */
  lemma LabelIsClean(value: string, limit: nat)
    ensures var t := SanitizeLabel(value, limit);
            && Size(t) <= limit && (forall i :: 0 <= i < |t| ==> t[i] == Stray || (' ' <= t[i].c && t[i].c != '\U{7F}'))
            && (t != [] ==> t == Truncate(Trim(value), limit))
            && (t == [] <==>
                || Blank(value) || limit == 0
                || var short := Truncate(Trim(value), limit);
                   exists i :: 0 <= i < |short| && short[i].Scalar? && (short[i].c < ' ' || short[i].c == '\U{7F}'))
  {
    TruncateSize(Trim(value), limit);
  }

  function SanitizeDigest(value: string): string {
    var v := Lower(Trim(value));
    if IsHexDigest(v) then v else ""
  }

  /** A digest is kept only if it is one, lower-case and without the space around it. */
  lemma DigestIsClean(value: string)
    ensures SanitizeDigest(value) != "" <==> IsHexDigest(Lower(Trim(value)))
    ensures SanitizeDigest(value) != "" ==> SanitizeDigest(value) == Lower(Trim(value)) && |SanitizeDigest(value)| == 64
  {}

  predicate Contains(s: string, part: string) {
    exists i :: 0 <= i <= |s| && part <= s[i..]
  }

  function Underscored(s: string): string {
    seq(|s|, i requires 0 <= i < |s| => if s[i] == '-' || s[i] == '.' then '_' else s[i])
  }

  const SECRET_MARKERS := ["password", "passwd", "passphrase", "token", "secret", "credential", "api_key", "apikey",
                           "private_key"]

  predicate SecretKey(key: string) {
    var value := Lower(Underscored(Trim(key)));
    exists i :: 0 <= i < |SECRET_MARKERS| && Contains(value, SECRET_MARKERS[i])
  }

  lemma Occurs(s: string, part: string)
    ensures Contains(s, part) <==> exists a, b :: s == a + part + b
  {
    if Contains(s, part) {
      var i :| 0 <= i <= |s| && part <= s[i..];
      assert s == s[..i] + part + s[i..][|part|..];
    }
    if a, b :| s == a + part + b {
      assert s[|a|..] == part + b;
    }
  }

  /** Which names are secret: those with one of the words, in any case, with dashes and dots for underscores. */
  lemma SecretOutright(key: string)
    ensures SecretKey(key) <==>
              exists word, a, b ::
                && word in ["password", "passwd", "passphrase", "token", "secret", "credential", "api_key", "apikey",
                            "private_key"]
                && Lower(Underscored(Trim(key))) == a + word + b
    ensures forall i :: 0 <= i < |Trim(key)| ==>
              Underscored(Trim(key))[i] == if Trim(key)[i] == '-' || Trim(key)[i] == '.' then '_' else Trim(key)[i]
  {
    var value := Lower(Underscored(Trim(key)));
    if SecretKey(key) {
      var i :| 0 <= i < |SECRET_MARKERS| && Contains(value, SECRET_MARKERS[i]);
      Occurs(value, SECRET_MARKERS[i]);
      var a, b :| value == a + SECRET_MARKERS[i] + b;
    }
    if word, a, b :| word in SECRET_MARKERS && value == a + word + b {
      Occurs(value, word);
    }
  }

  const REDACTED := Units("[REDACTED]")
  const TRUNCATED := Units("[TRUNCATED]")
  const MAX_VALUE_BYTES := 512

  /** A value up to its byte limit, marked if anything is missing. */
  function ShortValue(value: string): (t: GoText)
    ensures ByteLength(value) <= MAX_VALUE_BYTES ==> t == Units(value)
    ensures ByteLength(value) > MAX_VALUE_BYTES ==>
              && t == Truncate(value, MAX_VALUE_BYTES) + TRUNCATED
              && Size(Truncate(value, MAX_VALUE_BYTES)) == MAX_VALUE_BYTES
  {
    TruncateSize(value, MAX_VALUE_BYTES);
    if ByteLength(value) > MAX_VALUE_BYTES then Truncate(value, MAX_VALUE_BYTES) + TRUNCATED else Units(value)
  }

  /** Nothing of the value of a secret-looking parameter is kept, and of any other value at most its first 512 bytes,
      with a marker exactly if there was more. */
  function RedactParameters(parameters: map<string, string>): (r: map<string, GoText>)
    ensures r.Keys == parameters.Keys
    ensures forall k :: k in r && SecretKey(k) ==> r[k] == Units("[REDACTED]")
    ensures forall k :: k in r && !SecretKey(k) ==>
                          if ByteLength(parameters[k]) <= 512 then r[k] == Units(parameters[k])
                          else r[k] == Truncate(parameters[k], 512) + Units("[TRUNCATED]")
  {
    map k | k in parameters :: if SecretKey(k) then REDACTED else ShortValue(parameters[k])
  }

  // ---- The chain ----

  function HeadOf(records: seq<AuditRecord>): string {
    if records == [] then "" else records[|records| - 1].entryHash
  }

  predicate Required(r: AuditRecord) {
    r.actor.id != "" && r.event != [] && r.status != []
  }

  /** The record continues a chain of n records that ends in `previous`. */
  predicate Continues(hash: RecordHash, n: nat, previous: string, r: AuditRecord) {
    && r.schema == AUDIT_SCHEMA && r.sequence == n + 1 && r.previousHash == previous
    && EqualFold(hash(Canonical(r)), r.entryHash) && Required(r)
  }

  predicate ValidChain(hash: RecordHash, records: seq<AuditRecord>) {
    forall i {:trigger records[..i]} :: 0 <= i < |records| ==> Continues(hash, i, HeadOf(records[..i]), records[i])
  }

  /** Every prefix of a valid chain is valid. */
  lemma PrefixValid(hash: RecordHash, records: seq<AuditRecord>, n: nat)
    requires ValidChain(hash, records) && n <= |records|
    ensures ValidChain(hash, records[..n])
  {
    var front := records[..n];
    forall i | 0 <= i < n ensures Continues(hash, i, HeadOf(front[..i]), front[i]) {
      assert front[..i] == records[..i];
    }
  }

  lemma ExtendedValid(hash: RecordHash, records: seq<AuditRecord>, r: AuditRecord)
    requires ValidChain(hash, records) && Continues(hash, |records|, HeadOf(records), r)
    ensures ValidChain(hash, records + [r])
  {
    var more := records + [r];
    forall i | 0 <= i < |more| ensures Continues(hash, i, HeadOf(more[..i]), more[i]) {
      assert more[..i] == records[..i];
      assert records[..|records|] == records;
    }
  }

  function Canonicals(records: seq<AuditRecord>): seq<CanonicalRecord> {
    seq(|records|, i requires 0 <= i < |records| => Canonical(records[i]))
  }

  ghost predicate NoCollision(hash: RecordHash, ca: seq<CanonicalRecord>, cb: seq<CanonicalRecord>) {
    forall i, j :: 0 <= i < |ca| && 0 <= j < |cb| && hash(ca[i]) == hash(cb[j]) ==> ca[i] == cb[j]
  }

  /** The records of the two logs exhibit no SHA-256 collision. */
  ghost predicate CollisionFree(hash: RecordHash, a: seq<AuditRecord>, b: seq<AuditRecord>) {
    NoCollision(hash, Canonicals(a), Canonicals(b))
  }

  /** Equality of two records up to what is not hashed: the display name and the order of roles and permissions. */
  predicate SameHashedFields(r: AuditRecord, q: AuditRecord) {
    && r.schema == q.schema && r.sequence == q.sequence && r.id == q.id && r.timestamp == q.timestamp
    && r.event == q.event
    && r.actor.id == q.actor.id && r.actor.kind == q.actor.kind
    && multiset(r.actor.roles) == multiset(q.actor.roles)
    && multiset(r.actor.permissions) == multiset(q.actor.permissions)
    && r.requestID == q.requestID && r.sessionID == q.sessionID && r.planID == q.planID && r.planDigest == q.planDigest
    && r.action == q.action && r.risk == q.risk && r.status == q.status && r.rollbackStatus == q.rollbackStatus
    && r.parameters == q.parameters && r.errorCode == q.errorCode && r.previousHash == q.previousHash
  }

  /** The digest covers exactly those fields. */
  lemma CanonicalCovers(r: AuditRecord, q: AuditRecord)
    ensures Canonical(r) == Canonical(q) <==> SameHashedFields(r, q)
  {
    SortPermutes(Itself, r.actor.roles);
    SortPermutes(Itself, q.actor.roles);
    SortPermutes(Itself, r.actor.permissions);
    SortPermutes(Itself, q.actor.permissions);
    if SameHashedFields(r, q) {
      SortStringsOrderFree(r.actor.roles, q.actor.roles);
      SortStringsOrderFree(r.actor.permissions, q.actor.permissions);
    }
  }

  /** Each hashed field is the record's own of that name. */
  lemma CanonicalOutright(r: AuditRecord)
    ensures var c := Canonical(r);
            && c.schema == r.schema && c.sequence == r.sequence && c.id == r.id && c.timestamp == r.timestamp
            && c.event == r.event && c.actorID == r.actor.id && c.actorKind == r.actor.kind
            && c.requestID == r.requestID && c.sessionID == r.sessionID && c.planID == r.planID
            && c.planDigest == r.planDigest && c.action == r.action && c.risk == r.risk && c.status == r.status
            && c.rollbackStatus == r.rollbackStatus && c.parameters == r.parameters && c.errorCode == r.errorCode
            && c.previousHash == r.previousHash
            && multiset(c.roles) == multiset(r.actor.roles) && multiset(c.permissions) == multiset(r.actor.permissions)
            && SortedBy(Itself, c.roles) && SortedBy(Itself, c.permissions)
  {
    SortPermutes(Itself, r.actor.roles);
    SortPermutes(Itself, r.actor.permissions);
    SortSorts(Itself, r.actor.roles);
    SortSorts(Itself, r.actor.permissions);
  }

  lemma EntryHashDetermines(hash: RecordHash, a: seq<AuditRecord>, b: seq<AuditRecord>, i: nat, j: nat)
    requires ValidChain(hash, a) && ValidChain(hash, b) && CollisionFree(hash, a, b)
    requires i < |a| && j < |b| && EqualFold(a[i].entryHash, b[j].entryHash)
    ensures Canonical(a[i]) == Canonical(b[j])
  {
    assert Continues(hash, i, HeadOf(a[..i]), a[i]) && Continues(hash, j, HeadOf(b[..j]), b[j]);
    HexIsTrimmed(hash(Canonical(a[i])));
    HexIsTrimmed(hash(Canonical(b[j])));
    assert Canonicals(a)[i] == Canonical(a[i]) && Canonicals(b)[j] == Canonical(b[j]);
  }

  /** Backward along two chains: where the canonical records agree, the entry hashes before them agree, and so on
      down. */
  lemma {:induction false} AgreementGoesBack(ca: seq<CanonicalRecord>, cb: seq<CanonicalRecord>, ea: seq<string>,
                                             eb: seq<string>, n: nat, i: nat)
    requires |ca| == |ea| && |cb| == |eb| && i <= n < |ca| && n < |cb| && ca[n] == cb[n]
    requires forall k :: 0 < k < |ca| ==> ca[k].previousHash == ea[k - 1]
    requires forall k :: 0 < k < |cb| ==> cb[k].previousHash == eb[k - 1]
    requires forall k :: 0 <= k < |ea| && k < |eb| && ea[k] == eb[k] ==> ca[k] == cb[k]
    ensures ca[i] == cb[i] && (i < n ==> ea[i] == eb[i])
  {
    if i < n {
      assert ea[n - 1] == eb[n - 1];
      AgreementGoesBack(ca, cb, ea, eb, n - 1, i);
    }
  }

  function EntryHashes(records: seq<AuditRecord>): seq<string> {
    seq(|records|, i requires 0 <= i < |records| => records[i].entryHash)
  }

  lemma ChainLinks(hash: RecordHash, records: seq<AuditRecord>, k: nat)
    requires ValidChain(hash, records) && 0 < k < |records|
    ensures Canonicals(records)[k].previousHash == EntryHashes(records)[k - 1]
  {
    assert Continues(hash, k, HeadOf(records[..k]), records[k]);
  }

  /** A record determines every record before it. */
  lemma RecordDeterminesPast(hash: RecordHash, a: seq<AuditRecord>, b: seq<AuditRecord>, n: nat, i: nat)
    requires ValidChain(hash, a) && ValidChain(hash, b) && CollisionFree(hash, a, b)
    requires i <= n < |a| && n < |b| && Canonical(a[n]) == Canonical(b[n])
    ensures Canonical(a[i]) == Canonical(b[i]) && (i < n ==> a[i].entryHash == b[i].entryHash)
  {
    var ca, cb, ea, eb := Canonicals(a), Canonicals(b), EntryHashes(a), EntryHashes(b);
    forall k | 0 < k < |a| ensures ca[k].previousHash == ea[k - 1] {
      ChainLinks(hash, a, k);
    }
    forall k | 0 < k < |b| ensures cb[k].previousHash == eb[k - 1] {
      ChainLinks(hash, b, k);
    }
    forall k | 0 <= k < |a| && k < |b| && ea[k] == eb[k] ensures ca[k] == cb[k] {
      EntryHashDetermines(hash, a, b, k, k);
    }
    AgreementGoesBack(ca, cb, ea, eb, n, i);
  }

  lemma SequenceAt(hash: RecordHash, records: seq<AuditRecord>, i: nat)
    requires ValidChain(hash, records) && i < |records|
    ensures records[i].sequence == i + 1
  {
    assert Continues(hash, i, HeadOf(records[..i]), records[i]);
  }

  lemma SameCanonicalSameSequence(r: AuditRecord, q: AuditRecord)
    requires Canonical(r) == Canonical(q)
    ensures r.sequence == q.sequence
  {}

  lemma SameHeadSameLength(hash: RecordHash, a: seq<AuditRecord>, b: seq<AuditRecord>)
    requires ValidChain(hash, a) && ValidChain(hash, b) && CollisionFree(hash, a, b)
    requires a != [] && b != [] && EqualFold(HeadOf(a), HeadOf(b))
    ensures |a| == |b| && Canonical(a[|a| - 1]) == Canonical(b[|b| - 1])
  {
    SameHeadSameRecord(hash, a, b);
    SequenceAt(hash, a, |a| - 1);
    SequenceAt(hash, b, |b| - 1);
  }

  lemma SameHeadSameRecord(hash: RecordHash, a: seq<AuditRecord>, b: seq<AuditRecord>)
    requires ValidChain(hash, a) && ValidChain(hash, b) && CollisionFree(hash, a, b)
    requires a != [] && b != [] && EqualFold(HeadOf(a), HeadOf(b))
    ensures Canonical(a[|a| - 1]) == Canonical(b[|b| - 1]) && a[|a| - 1].sequence == b[|b| - 1].sequence
  {
    EntryHashDetermines(hash, a, b, |a| - 1, |b| - 1);
    SameCanonicalSameSequence(a[|a| - 1], b[|b| - 1]);
  }

  lemma HeadDeterminesRecord(hash: RecordHash, a: seq<AuditRecord>, b: seq<AuditRecord>, i: nat)
    requires ValidChain(hash, a) && ValidChain(hash, b) && CollisionFree(hash, a, b)
    requires |a| == |b| && i < |a| && Canonical(a[|a| - 1]) == Canonical(b[|b| - 1])
    ensures SameHashedFields(a[i], b[i])
    ensures i < |a| - 1 ==> a[i].entryHash == b[i].entryHash
  {
    RecordDeterminesPast(hash, a, b, |a| - 1, i);
    CanonicalCovers(a[i], b[i]);
  }

  /** The head hash determines the whole history: two nonempty logs that verify and end in the same entry hash, up to
      case, have the same number of records and agree on every hashed field of every one. */
  lemma HeadDeterminesHistory(hash: RecordHash, a: seq<AuditRecord>, b: seq<AuditRecord>)
    requires ValidChain(hash, a) && ValidChain(hash, b) && CollisionFree(hash, a, b)
    requires a != [] && b != [] && EqualFold(HeadOf(a), HeadOf(b))
    ensures |a| == |b|
    ensures forall i :: 0 <= i < |a| ==> SameHashedFields(a[i], b[i])
    ensures forall i :: 0 <= i < |a| - 1 ==> a[i].entryHash == b[i].entryHash
  {
    SameHeadSameLength(hash, a, b);
    forall i | 0 <= i < |a| ensures SameHashedFields(a[i], b[i]) && (i < |a| - 1 ==> a[i].entryHash == b[i].entryHash) {
      HeadDeterminesRecord(hash, a, b, i);
    }
  }

  /** Dropping whole trailing records is never noticed by verification alone, but always by comparing the head. */
  lemma TruncationShowsInHeadOnly(hash: RecordHash, records: seq<AuditRecord>, n: nat)
    requires ValidChain(hash, records) && 0 < n <= |records| && CollisionFree(hash, records[..n], records)
    ensures ValidChain(hash, records[..n])
    ensures EqualFold(HeadOf(records[..n]), HeadOf(records)) <==> n == |records|
  {
    PrefixValid(hash, records, n);
    if EqualFold(HeadOf(records[..n]), HeadOf(records)) {
      HeadDeterminesHistory(hash, records[..n], records);
    } else {
      assert records[..|records|] == records;
    }
  }

  // ---- The file ----

  /** No text of the record has stray bytes. */
  predicate WholeRecord(r: AuditRecord) {
    && Whole(r.event) && Whole(r.requestID) && Whole(r.sessionID) && Whole(r.planID) && Whole(r.action) && Whole(r.risk)
    && Whole(r.status) && Whole(r.rollbackStatus) && Whole(r.errorCode)
    && forall k :: k in r.parameters ==> Whole(r.parameters[k])
  }

  /** The decoder never yields stray bytes. */
  type DecodedRecord = r: AuditRecord | WholeRecord(r)
    witness AuditRecord("", 0, "", 0, [], Actor("", Human, "", [], []), [], [], [], "", [], [], [], [], map[], [], "",
                        "")

  /** What decoding the line of a record gives. JSON is injective but for stray bytes. */
  function Decoded(r: AuditRecord): (d: DecodedRecord)
    ensures d == r <==> WholeRecord(r)
    ensures d.entryHash == r.entryHash && d.sequence == r.sequence
  {
    var d := r.(event := Reread(r.event), requestID := Reread(r.requestID), sessionID := Reread(r.sessionID),
                planID := Reread(r.planID), action := Reread(r.action), risk := Reread(r.risk),
                status := Reread(r.status),
                rollbackStatus := Reread(r.rollbackStatus), errorCode := Reread(r.errorCode),
                parameters := map k | k in r.parameters :: Reread(r.parameters[k]));
    assert WholeRecord(r) ==> d.parameters == r.parameters;
    d
  }

  function AllDecoded(records: seq<AuditRecord>): (d: seq<DecodedRecord>)
    ensures |d| == |records|
  {
    seq(|records|, i requires 0 <= i < |records| => Decoded(records[i]))
  }

  /** A line of the file as the scanner and the decoder see it. */
  datatype Line = BlankLine | UndecodableLine | RecordLine(record: DecodedRecord, length: nat)

  datatype Contents = NoFile | UnreadableFile | Lines(lines: seq<Line>)

  datatype AuditError = CannotOpen | LineTooLong | EmptyRecord | InvalidJSON | ChainMismatch | HashMismatch
                      | MissingField

  function LinkProblem(hash: RecordHash, n: nat, previous: string, line: Line): Option<AuditError> {
    match line
    case BlankLine => Some(EmptyRecord)
    case UndecodableLine => Some(InvalidJSON)
    case RecordLine(r, length) =>
      // The scanner's buffer must also hold the newline.
      if length >= MAX_LINE_BYTES then Some(LineTooLong)
      else if r.schema != AUDIT_SCHEMA || r.sequence != n + 1 || r.previousHash != previous then Some(ChainMismatch)
      else if !EqualFold(hash(Canonical(r)), r.entryHash) then Some(HashMismatch)
      else if !Required(r) then Some(MissingField)
      else None
  }

  /** Which line is refused, and why: its length first, then its place in the chain, its hash, and its required
      fields. */
  lemma LinkOutright(hash: RecordHash, n: nat, previous: string, line: Line)
    requires line.RecordLine?
    ensures var r, p := line.record, LinkProblem(hash, n, previous, line);
            var placed := r.schema == AUDIT_SCHEMA && r.sequence == n + 1 && r.previousHash == previous;
            var hashed := EqualFold(hash(Canonical(r)), r.entryHash);
            && (p == Some(LineTooLong) <==> line.length >= 1024 * 1024)
            && (p == Some(ChainMismatch) <==> line.length < 1024 * 1024 && !placed)
            && (p == Some(HashMismatch) <==> line.length < 1024 * 1024 && placed && !hashed)
            && (p == Some(MissingField) <==>
                && line.length < 1024 * 1024 && placed && hashed
                && (r.actor.id == "" || r.event == [] || r.status == []))
            && (p == None <==>
                && line.length < 1024 * 1024 && placed && hashed
                && r.actor.id != "" && r.event != [] && r.status != [])
  {}

  type LinkCheck = (nat, string, Line) -> Option<AuditError>

  function CheckOf(hash: RecordHash): LinkCheck {
    (n: nat, previous: string, line: Line) => LinkProblem(hash, n, previous, line)
  }

  /** Reading lines in order up to the first that does not continue the chain. */
  function ReadChain(check: LinkCheck, lines: seq<Line>): (r: Result<seq<AuditRecord>, AuditError>)
    ensures r.Ok? ==> |r.value| == |lines|
  {
    if lines == [] then Ok([])
    else
      match ReadChain(check, lines[..|lines| - 1])
      case Err(e) => Err(e)
      case Ok(records) =>
        var line := lines[|lines| - 1];
        match check(|records|, HeadOf(records), line)
        case Some(e) => Err(e)
        case None => if line.RecordLine? then Ok(records + [line.record]) else Err(InvalidJSON)
  }

  function Verify(hash: RecordHash, contents: Contents): Result<seq<AuditRecord>, AuditError> {
    match contents
    case NoFile => Ok([])
    case UnreadableFile => Err(CannotOpen)
    case Lines(lines) => ReadChain(CheckOf(hash), lines)
  }

  /** The scanner gets the line. */
  predicate Readable(line: Line) {
    line.RecordLine? && line.length < MAX_LINE_BYTES
  }

  /** The scanner and the decoder get exactly these records. */
  predicate Lists(lines: seq<Line>, records: seq<AuditRecord>) {
    |lines| == |records| && forall i :: 0 <= i < |lines| ==> Readable(lines[i]) && lines[i].record == records[i]
  }

  type Link = (nat, string, AuditRecord) -> bool

  /** Every record is linked to those before it. */
  predicate ChainBy(link: Link, records: seq<AuditRecord>) {
    forall i {:trigger records[..i]} :: 0 <= i < |records| ==> link(i, HeadOf(records[..i]), records[i])
  }

  lemma ChainByExtends(link: Link, records: seq<AuditRecord>, r: AuditRecord)
    ensures ChainBy(link, records + [r]) <==> ChainBy(link, records) && link(|records|, HeadOf(records), r)
  {
    var more := records + [r];
    assert more[..|records|] == records;
    forall i | 0 <= i < |records| ensures more[..i] == records[..i] {}
    if ChainBy(link, more) {
      forall i | 0 <= i < |records| ensures link(i, HeadOf(records[..i]), records[i]) {
        assert link(i, HeadOf(more[..i]), more[i]);
      }
      assert link(|records|, HeadOf(more[..|records|]), more[|records|]);
    }
  }

  /** The check accepts a line exactly when it is readable and a linked record. */
  ghost predicate Checks(check: LinkCheck, link: Link) {
    forall n: nat, previous: string, line: Line ::
      check(n, previous, line).None? <==> Readable(line) && link(n, previous, line.record)
  }

  lemma {:induction false} ReadIsChain(check: LinkCheck, link: Link, lines: seq<Line>)
    requires Checks(check, link) && ReadChain(check, lines).Ok?
    ensures Lists(lines, ReadChain(check, lines).value) && ChainBy(link, ReadChain(check, lines).value)
    decreases |lines|
  {
    if lines != [] {
      var front, last := lines[..|lines| - 1], lines[|lines| - 1];
      ReadIsChain(check, link, front);
      ChainByExtends(link, ReadChain(check, front).value, last.record);
    }
  }

  lemma {:induction false} ChainIsRead(check: LinkCheck, link: Link, lines: seq<Line>, records: seq<AuditRecord>)
    requires Checks(check, link) && Lists(lines, records) && ChainBy(link, records)
    ensures ReadChain(check, lines) == Ok(records)
    decreases |lines|
  {
    if lines != [] {
      var front, last := lines[..|lines| - 1], lines[|lines| - 1];
      var before, r := records[..|records| - 1], records[|records| - 1];
      assert records == before + [r];
      ChainByExtends(link, before, r);
      ChainIsRead(check, link, front, before);
    }
  }

  function LinkOf(hash: RecordHash): Link {
    (n: nat, previous: string, r: AuditRecord) => Continues(hash, n, previous, r)
  }

  lemma ChecksLinks(hash: RecordHash)
    ensures Checks(CheckOf(hash), LinkOf(hash))
  {}

  lemma ChainByLinkOf(hash: RecordHash, records: seq<AuditRecord>)
    ensures ChainBy(LinkOf(hash), records) <==> ValidChain(hash, records)
  {
    var link := LinkOf(hash);
    if ChainBy(link, records) {
      forall i | 0 <= i < |records| ensures Continues(hash, i, HeadOf(records[..i]), records[i]) {
        assert link(i, HeadOf(records[..i]), records[i]);
      }
    }
  }

  /** Verification accepts exactly the files that list a valid chain in lines short enough for the scanner, and returns
      that chain. */
  lemma VerifiesExactlyChains(hash: RecordHash, lines: seq<Line>, records: seq<AuditRecord>)
    ensures Verify(hash, Lines(lines)) == Ok(records) <==> Lists(lines, records) && ValidChain(hash, records)
  {
    var check, link := CheckOf(hash), LinkOf(hash);
    ChecksLinks(hash);
    ChainByLinkOf(hash, records);
    ReadsExactly(check, link, lines, records);
  }

  lemma ReadsExactly(check: LinkCheck, link: Link, lines: seq<Line>, records: seq<AuditRecord>)
    requires Checks(check, link)
    ensures ReadChain(check, lines) == Ok(records) <==> Lists(lines, records) && ChainBy(link, records)
  {
    if ReadChain(check, lines) == Ok(records) {
      ReadIsChain(check, link, lines);
    }
    if Lists(lines, records) && ChainBy(link, records) {
      ChainIsRead(check, link, lines, records);
    }
  }

  // ---- Writing and reopening ----

  function LineOf(size: LineSize, r: AuditRecord): Line {
    RecordLine(Decoded(r), size(r))
  }

  function Written(size: LineSize, records: seq<AuditRecord>): (lines: seq<Line>)
    ensures |lines| == |records|
  {
    seq(|records|, i requires 0 <= i < |records| => LineOf(size, records[i]))
  }

  /** The lines stand for these records, however long they are. */
  predicate Holds(lines: seq<Line>, records: seq<AuditRecord>) {
    && |lines| == |records|
    && forall i :: 0 <= i < |lines| ==> lines[i].RecordLine? && lines[i].record == Decoded(records[i])
  }

  predicate AllReadable(lines: seq<Line>) {
    forall i :: 0 <= i < |lines| ==> Readable(lines[i])
  }

  predicate AllWhole(records: seq<AuditRecord>) {
    forall i :: 0 <= i < |records| ==> WholeRecord(records[i])
  }

  /** Reopening the file of a valid log gives the log back, exactly when every line leaves the scanner room for its
      newline (`Append` itself admits one byte more) and no text was cut inside a character. */
  lemma ReopenIff(hash: RecordHash, lines: seq<Line>, records: seq<AuditRecord>)
    requires Holds(lines, records) && ValidChain(hash, records)
    ensures Verify(hash, Lines(lines)) == Ok(records) <==> AllReadable(lines) && AllWhole(records)
  {
    VerifiesExactlyChains(hash, lines, records);
    if Lists(lines, records) {
      forall i | 0 <= i < |records| ensures WholeRecord(records[i]) {
        assert lines[i].record == records[i];
      }
    }
  }

  lemma CanonicalKeepsTexts(r: AuditRecord, q: AuditRecord)
    requires Canonical(r) == Canonical(q) && WholeRecord(q)
    ensures WholeRecord(r)
  {
    CanonicalCovers(r, q);
  }

  /** A chain with a cut character decodes to no chain, unless SHA-256 collides on it. */
  lemma CutBreaksChain(hash: RecordHash, records: seq<AuditRecord>, decoded: seq<AuditRecord>, i: nat)
    requires ValidChain(hash, records) && ValidChain(hash, decoded) && decoded == AllDecoded(records)
    requires CollisionFree(hash, records, decoded) && i < |records|
    ensures WholeRecord(records[i])
  {
    EntryHashDetermines(hash, records, decoded, i, i);
    CanonicalKeepsTexts(records[i], decoded[i]);
  }

  lemma HeldAreDecoded(lines: seq<Line>, records: seq<AuditRecord>, listed: seq<AuditRecord>)
    requires Holds(lines, records) && Lists(lines, listed)
    ensures listed == AllDecoded(records) && AllReadable(lines)
  {}

  /** Otherwise it does not reopen at all. */
  lemma ReopensOrFails(hash: RecordHash, lines: seq<Line>, records: seq<AuditRecord>)
    requires Holds(lines, records) && ValidChain(hash, records) && CollisionFree(hash, records, AllDecoded(records))
    ensures Verify(hash, Lines(lines)).Ok? <==> AllReadable(lines) && AllWhole(records)
  {
    ReopenIff(hash, lines, records);
    var r := Verify(hash, Lines(lines));
    if r.Ok? {
      VerifiesExactlyChains(hash, lines, r.value);
      HeldAreDecoded(lines, records, r.value);
      forall i | 0 <= i < |records| ensures WholeRecord(records[i]) {
        CutBreaksChain(hash, records, r.value, i);
      }
    }
  }

  // ---- The store object ----

  class AuditFile {
    var contents: Contents

    constructor (contents: Contents)
      ensures this.contents == contents
    {
      this.contents := contents;
    }
  }

  datatype AppendError = FieldsRequired | RecordTooLong | NotWritten

  /** The record `Append` makes of an event: sanitized, next in sequence, and hashed over the head. */
  function NextRecord(hash: RecordHash, event: AuditEvent, id: string, now: Time, n: nat, head: string): AuditRecord {
    var r := AuditRecord(
      AUDIT_SCHEMA, n + 1, id, now, SanitizeLabel(event.event, 96), event.actor, SanitizeLabel(event.requestID, 160),
      SanitizeLabel(event.sessionID, 160), SanitizeLabel(event.planID, 160), SanitizeDigest(event.planDigest),
      SanitizeLabel(event.action, 160), SanitizeLabel(event.risk, 64), SanitizeLabel(event.status, 64),
      SanitizeLabel(event.rollbackStatus, 64), RedactParameters(event.parameters), SanitizeLabel(event.errorCode, 96),
      head, "");
    r.(entryHash := hash(Canonical(r)))
  }

  lemma NextRecordContinues(hash: RecordHash, event: AuditEvent, id: string, now: Time, n: nat, head: string)
    ensures var r := NextRecord(hash, event, id, now, n, head);
            Required(r) ==> Continues(hash, n, head, r)
  {
    var r := NextRecord(hash, event, id, now, n, head);
    assert Canonical(r) == Canonical(r.(entryHash := ""));
  }

  /** One call of `Append`: the event, the fresh ID, the clock, and whether the file accepted the line. */
  datatype Attempt = Attempt(event: AuditEvent, id: string, now: Time, diskWorks: bool)

  /** What `Append` answers for the record it made: the missing field first, then the length, then the disk. */
  function AppendAnswer(size: LineSize, r: AuditRecord, diskWorks: bool): Result<AuditRecord, AppendError> {
    if !Required(r) then Err(FieldsRequired)
    else if size(r) > MAX_LINE_BYTES then Err(RecordTooLong)
    else if !diskWorks then Err(NotWritten)
    else Ok(r)
  }

  predicate Accepted(size: LineSize, r: AuditRecord, diskWorks: bool) {
    Required(r) && size(r) <= MAX_LINE_BYTES && diskWorks
  }

  /** What appending a record makes of a log. */
  function Extended(size: LineSize, log: seq<AuditRecord>, r: AuditRecord, diskWorks: bool): seq<AuditRecord> {
    if Accepted(size, r, diskWorks) then log + [r] else log
  }

  /** What one attempt makes of a log. */
  function NextLog(hash: RecordHash, size: LineSize, log: seq<AuditRecord>, a: Attempt): seq<AuditRecord> {
    Extended(size, log, NextRecord(hash, a.event, a.id, a.now, |log|, HeadOf(log)), a.diskWorks)
  }

  type LogRule = (seq<AuditRecord>, Attempt) -> seq<AuditRecord>

  function Grown(next: LogRule, attempts: seq<Attempt>): seq<AuditRecord> {
    if attempts == [] then [] else next(Grown(next, attempts[..|attempts| - 1]), attempts[|attempts| - 1])
  }

  function RuleOf(hash: RecordHash, size: LineSize): LogRule {
    (log: seq<AuditRecord>, a: Attempt) => NextLog(hash, size, log, a)
  }

  /** The log after a sequence of attempts. */
  function LogOf(hash: RecordHash, size: LineSize, attempts: seq<Attempt>): seq<AuditRecord> {
    Grown(RuleOf(hash, size), attempts)
  }

  lemma ExtendedStaysValid(hash: RecordHash, size: LineSize, log: seq<AuditRecord>, r: AuditRecord, diskWorks: bool)
    requires ValidChain(hash, log) && (Required(r) ==> Continues(hash, |log|, HeadOf(log), r))
    ensures ValidChain(hash, Extended(size, log, r, diskWorks))
  {
    if Accepted(size, r, diskWorks) {
      ExtendedValid(hash, log, r);
    }
  }

  lemma NextLogValid(hash: RecordHash, size: LineSize, log: seq<AuditRecord>, a: Attempt)
    requires ValidChain(hash, log)
    ensures ValidChain(hash, NextLog(hash, size, log, a))
  {
    NextRecordContinues(hash, a.event, a.id, a.now, |log|, HeadOf(log));
    ExtendedStaysValid(hash, size, log, NextRecord(hash, a.event, a.id, a.now, |log|, HeadOf(log)), a.diskWorks);
  }

  /** After any sequence of appends, accepted or not, the log is a valid chain numbered from one without gaps. */
  lemma {:induction false} EveryLogIsValid(hash: RecordHash, size: LineSize, attempts: seq<Attempt>)
    ensures ValidChain(hash, LogOf(hash, size, attempts))
  {
    if attempts != [] {
      var front := attempts[..|attempts| - 1];
      EveryLogIsValid(hash, size, front);
      NextLogValid(hash, size, LogOf(hash, size, front), attempts[|attempts| - 1]);
    }
  }

  /** The file and, while a store is open, its records. */
  datatype LogState = LogState(contents: Contents, memory: Option<seq<AuditRecord>>)

  /** A restart drops memory and opens the file again; a file that does not verify leaves no store. */
  datatype LogStep = Append(attempt: Attempt) | Restart

  function LinesOf(contents: Contents): seq<Line> {
    if contents.Lines? then contents.lines else []
  }

  function AppendTo(size: LineSize, s: LogState, log: seq<AuditRecord>, r: AuditRecord, diskWorks: bool): LogState {
    if Accepted(size, r, diskWorks) then LogState(Lines(LinesOf(s.contents) + [LineOf(size, r)]), Some(log + [r]))
    else s
  }

  function AfterStep(hash: RecordHash, size: LineSize, s: LogState, step: LogStep): LogState {
    match step
    case Append(a) =>
      (match s.memory
       case None => s
       case Some(log) =>
         AppendTo(size, s, log, NextRecord(hash, a.event, a.id, a.now, |log|, HeadOf(log)), a.diskWorks))
    case Restart =>
      match Verify(hash, s.contents)
      case Ok(records) => s.(memory := Some(records))
      case Err(_) => s.(memory := None)
  }

  lemma AfterAppend(hash: RecordHash, size: LineSize, s: LogState, log: seq<AuditRecord>, a: Attempt, r: AuditRecord)
    requires s.memory == Some(log) && r == NextRecord(hash, a.event, a.id, a.now, |log|, HeadOf(log))
    ensures AfterStep(hash, size, s, Append(a)) == AppendTo(size, s, log, r, a.diskWorks)
  {}

  /** A run of appends and restarts, begun without a file. */
  function AfterRun(hash: RecordHash, size: LineSize, steps: seq<LogStep>): LogState {
    if steps == [] then LogState(NoFile, Some([]))
    else AfterStep(hash, size, AfterRun(hash, size, steps[..|steps| - 1]), steps[|steps| - 1])
  }

  /** The appends among the steps. */
  function Attempts(steps: seq<LogStep>): seq<Attempt> {
    if steps == [] then []
    else Attempts(steps[..|steps| - 1]) + match steps[|steps| - 1] case Append(a) => [a] case Restart => []
  }

  /** Every record of the log can be read back. */
  predicate ReadsBack(size: LineSize, log: seq<AuditRecord>) {
    forall i :: 0 <= i < |log| ==> WholeRecord(log[i]) && size(log[i]) < MAX_LINE_BYTES
  }

  lemma WrittenHolds(size: LineSize, log: seq<AuditRecord>)
    ensures Holds(Written(size, log), log)
    ensures ReadsBack(size, log) <==> AllReadable(Written(size, log)) && AllWhole(log)
  {
    var lines := Written(size, log);
    if AllReadable(lines) && AllWhole(log) {
      forall i | 0 <= i < |log| ensures WholeRecord(log[i]) && size(log[i]) < MAX_LINE_BYTES {
        assert Readable(lines[i]);
      }
    }
  }

  /** A store that is open holds the log and its file lists it; one that could not open had a record that does not
      read back. */
  ghost predicate LogInv(hash: RecordHash, size: LineSize, s: LogState, log: seq<AuditRecord>) {
    && ValidChain(hash, log) && !s.contents.UnreadableFile?
    && match s.memory
       case Some(m) => m == log && LinesOf(s.contents) == Written(size, log)
       case None => !ReadsBack(size, log) && Verify(hash, s.contents).Err?
  }

  lemma RecordKeepsLog(hash: RecordHash, size: LineSize, s: LogState, log: seq<AuditRecord>, r: AuditRecord,
                       diskWorks: bool)
    requires LogInv(hash, size, s, log) && (Required(r) ==> Continues(hash, |log|, HeadOf(log), r))
    ensures s.memory.Some? ==>
              LogInv(hash, size, AppendTo(size, s, log, r, diskWorks), Extended(size, log, r, diskWorks))
    ensures s.memory.None? ==> LogInv(hash, size, s, Extended(size, log, r, diskWorks))
  {
    ExtendedStaysValid(hash, size, log, r, diskWorks);
    if s.memory.Some? {
      assert Written(size, log + [r]) == Written(size, log) + [LineOf(size, r)];
    } else {
      var i :| 0 <= i < |log| && !(WholeRecord(log[i]) && size(log[i]) < MAX_LINE_BYTES);
      assert Extended(size, log, r, diskWorks)[i] == log[i];
    }
  }

  lemma AppendKeepsLog(hash: RecordHash, size: LineSize, s: LogState, log: seq<AuditRecord>, a: Attempt)
    requires LogInv(hash, size, s, log)
    ensures LogInv(hash, size, AfterStep(hash, size, s, Append(a)), NextLog(hash, size, log, a))
  {
    NextRecordContinues(hash, a.event, a.id, a.now, |log|, HeadOf(log));
    RecordKeepsLog(hash, size, s, log, NextRecord(hash, a.event, a.id, a.now, |log|, HeadOf(log)), a.diskWorks);
  }

  lemma RestartKeepsLog(hash: RecordHash, size: LineSize, s: LogState, log: seq<AuditRecord>)
    requires LogInv(hash, size, s, log) && CollisionFree(hash, log, AllDecoded(log))
    ensures LogInv(hash, size, AfterStep(hash, size, s, Restart), log)
    ensures s.memory.Some? ==> (Verify(hash, s.contents) == Ok(log) <==> ReadsBack(size, log))
  {
    if s.memory.Some? {
      WrittenHolds(size, log);
      if s.contents.Lines? {
        ReopenIff(hash, Written(size, log), log);
        ReopensOrFails(hash, Written(size, log), log);
      }
    }
  }

  lemma GrownStep(next: LogRule, steps: seq<LogStep>, step: LogStep)
    ensures Grown(next, Attempts(steps + [step])) ==
            match step
            case Append(a) => next(Grown(next, Attempts(steps)), a)
            case Restart => Grown(next, Attempts(steps))
  {
    assert (steps + [step])[..|steps|] == steps;
    if step.Append? {
      assert (Attempts(steps) + [step.attempt])[..|Attempts(steps)|] == Attempts(steps);
    } else {
      assert Attempts(steps + [step]) == Attempts(steps);
    }
  }

  lemma AttemptsStep(hash: RecordHash, size: LineSize, steps: seq<LogStep>, step: LogStep)
    ensures LogOf(hash, size, Attempts(steps + [step])) ==
            match step
            case Append(a) => NextLog(hash, size, LogOf(hash, size, Attempts(steps)), a)
            case Restart => LogOf(hash, size, Attempts(steps))
  {
    GrownStep(RuleOf(hash, size), steps, step);
  }

  lemma PrefixCollisionFree(hash: RecordHash, log: seq<AuditRecord>, more: seq<AuditRecord>)
    requires log <= more && CollisionFree(hash, more, AllDecoded(more))
    ensures CollisionFree(hash, log, AllDecoded(log))
  {
    var ca, cb := Canonicals(more), Canonicals(AllDecoded(more));
    forall i, j | 0 <= i < |log| && 0 <= j < |log| && hash(Canonicals(log)[i]) == hash(Canonicals(AllDecoded(log))[j])
      ensures Canonicals(log)[i] == Canonicals(AllDecoded(log))[j]
    {
      assert ca[i] == Canonicals(log)[i] && cb[j] == Canonicals(AllDecoded(log))[j];
    }
  }

  lemma StepKeepsLog(hash: RecordHash, size: LineSize, s: LogState, before: seq<AuditRecord>, after: seq<AuditRecord>,
                     step: LogStep)
    requires LogInv(hash, size, s, before) && CollisionFree(hash, before, AllDecoded(before))
    requires after == match step case Append(a) => NextLog(hash, size, before, a) case Restart => before
    ensures LogInv(hash, size, AfterStep(hash, size, s, step), after)
  {
    match step
    case Append(a) => AppendKeepsLog(hash, size, s, before, a);
    case Restart => RestartKeepsLog(hash, size, s, before);
  }

  lemma LogOnlyGrows(hash: RecordHash, size: LineSize, steps: seq<LogStep>, step: LogStep)
    ensures LogOf(hash, size, Attempts(steps)) <= LogOf(hash, size, Attempts(steps + [step]))
  {
    AttemptsStep(hash, size, steps, step);
  }

  lemma OneStepKeepsLog(hash: RecordHash, size: LineSize, front: seq<LogStep>, last: LogStep)
    requires LogInv(hash, size, AfterRun(hash, size, front), LogOf(hash, size, Attempts(front)))
    requires CollisionFree(hash, LogOf(hash, size, Attempts(front)), AllDecoded(LogOf(hash, size, Attempts(front))))
    ensures LogInv(hash, size, AfterRun(hash, size, front + [last]), LogOf(hash, size, Attempts(front + [last])))
  {
    AttemptsStep(hash, size, front, last);
    AfterRunStep(hash, size, front, last);
    StepKeepsLog(hash, size, AfterRun(hash, size, front), LogOf(hash, size, Attempts(front)),
                 LogOf(hash, size, Attempts(front + [last])), last);
  }

  lemma AfterRunStep(hash: RecordHash, size: LineSize, front: seq<LogStep>, last: LogStep)
    ensures AfterRun(hash, size, front + [last]) == AfterStep(hash, size, AfterRun(hash, size, front), last)
  {
    assert (front + [last])[..|front|] == front;
  }

  lemma EarlierCollisionFree(hash: RecordHash, size: LineSize, front: seq<LogStep>, last: LogStep)
    requires var log := LogOf(hash, size, Attempts(front + [last])); CollisionFree(hash, log, AllDecoded(log))
    ensures var log := LogOf(hash, size, Attempts(front)); CollisionFree(hash, log, AllDecoded(log))
  {
    LogOnlyGrows(hash, size, front, last);
    PrefixCollisionFree(hash, LogOf(hash, size, Attempts(front)), LogOf(hash, size, Attempts(front + [last])));
  }

  lemma {:induction false} RunKeepsLog(hash: RecordHash, size: LineSize, steps: seq<LogStep>)
    requires var log := LogOf(hash, size, Attempts(steps)); CollisionFree(hash, log, AllDecoded(log))
    ensures LogInv(hash, size, AfterRun(hash, size, steps), LogOf(hash, size, Attempts(steps)))
  {
    if steps != [] {
      var front, last := steps[..|steps| - 1], steps[|steps| - 1];
      assert steps == front + [last];
      EarlierCollisionFree(hash, size, front, last);
      RunKeepsLog(hash, size, front);
      OneStepKeepsLog(hash, size, front, last);
    }
  }

  /** Append and reopen undo each other. After any run of appends, accepted or not, and restarts, an open store holds
      exactly the log of the appends, and opening its file again gives exactly that log, if and only if every record
      leaves the scanner room for its newline and none was cut inside a character. A store is closed only after a
      restart over a log with such a record. */
  lemma RunReopens(hash: RecordHash, size: LineSize, steps: seq<LogStep>)
    requires var log := LogOf(hash, size, Attempts(steps)); CollisionFree(hash, log, AllDecoded(log))
    ensures var s, log := AfterRun(hash, size, steps), LogOf(hash, size, Attempts(steps));
            match s.memory
            case Some(m) => m == log && (Verify(hash, s.contents) == Ok(log) <==> ReadsBack(size, log))
            case None => !ReadsBack(size, log)
  {
    RunKeepsLog(hash, size, steps);
    RestartKeepsLog(hash, size, AfterRun(hash, size, steps), LogOf(hash, size, Attempts(steps)));
  }

  /** What is logged in ASCII, in labels and in values, reads back but for the longest line. */
  lemma AsciiEventIsWhole(hash: RecordHash, event: AuditEvent, id: string, now: Time, n: nat, head: string)
    requires Ascii(event.event) && Ascii(event.requestID) && Ascii(event.sessionID) && Ascii(event.planID)
    requires Ascii(event.action) && Ascii(event.risk) && Ascii(event.status) && Ascii(event.rollbackStatus)
    requires Ascii(event.errorCode) && forall k :: k in event.parameters ==> Ascii(event.parameters[k])
    ensures WholeRecord(NextRecord(hash, event, id, now, n, head))
  {
    AsciiLabelIsWhole(event.event, 96);
    AsciiLabelIsWhole(event.requestID, 160);
    AsciiLabelIsWhole(event.sessionID, 160);
    AsciiLabelIsWhole(event.planID, 160);
    AsciiLabelIsWhole(event.action, 160);
    AsciiLabelIsWhole(event.risk, 64);
    AsciiLabelIsWhole(event.status, 64);
    AsciiLabelIsWhole(event.rollbackStatus, 64);
    AsciiLabelIsWhole(event.errorCode, 96);
    AsciiValuesAreWhole(event.parameters);
  }

  lemma AsciiValuesAreWhole(parameters: map<string, string>)
    requires forall k :: k in parameters ==> Ascii(parameters[k])
    ensures forall k :: k in parameters ==> Whole(RedactParameters(parameters)[k])
  {
    forall k | k in parameters ensures Whole(RedactParameters(parameters)[k]) {
      AsciiOnBoundary(parameters[k], MAX_VALUE_BYTES);
      WholeIffOnBoundary(parameters[k], MAX_VALUE_BYTES);
    }
  }

  lemma {:induction false} TrimKeepsAscii(s: string)
    requires Ascii(s)
    ensures Ascii(Trim(s))
  {
    LeftKeepsAscii(s);
  }

  lemma {:induction false} LeftKeepsAscii(s: string)
    requires Ascii(s)
    ensures Ascii(TrimLeft(s))
  {
    if s != "" && IsSpace(s[0]) { LeftKeepsAscii(s[1..]); }
  }

  lemma AsciiLabelIsWhole(value: string, limit: nat)
    requires Ascii(value)
    ensures Whole(SanitizeLabel(value, limit))
  {
    TrimKeepsAscii(value);
    AsciiOnBoundary(Trim(value), limit);
    WholeIffOnBoundary(Trim(value), limit);
  }

  /** A label whose limit falls inside a character: 95 letters and one of two bytes, for the 96 bytes of an event
      name. */
  lemma SplitLabel()
    ensures SanitizeLabel(seq(95, _ => 'a') + "\U{E9}", 96) == Units(seq(95, _ => 'a')) + [Stray]
  {
    var letters := seq(95, _ => 'a');
    var value := letters + "\U{E9}";
    assert Trimmed(value) by { assert value[0] == 'a' && value[95] == '\U{E9}'; }
    AsciiLength(letters);
    assert value[..95] == letters;
    var k, m := TruncateKeeps(value, 96);
    PrefixLength(value, 95);
    assert value[..96] == value;
    if k < 95 { PrefixesGrow(value, k, 95); }
    assert k == 95 && m == 1;
    assert Strays(1) == [Stray];
  }

  /** An event with such a name becomes a record with a stray byte. */
  lemma SplitEventIsCut(hash: RecordHash, event: AuditEvent, id: string, now: Time, n: nat, head: string)
    requires event.event == seq(95, _ => 'a') + "\U{E9}"
    ensures !WholeRecord(NextRecord(hash, event, id, now, n, head))
  {
    SplitLabel();
    assert NextRecord(hash, event, id, now, n, head).event[95] == Stray;
  }

  /** A record with a stray byte is accepted and logged like any other, and the log never opens again. */
  lemma CutRecordNeverReopens(hash: RecordHash, size: LineSize, s: LogState, log: seq<AuditRecord>, r: AuditRecord)
    requires LogInv(hash, size, s, log) && s.memory.Some?
    requires Accepted(size, r, true) && Continues(hash, |log|, HeadOf(log), r) && !WholeRecord(r)
    requires CollisionFree(hash, log + [r], AllDecoded(log + [r]))
    ensures var t := AppendTo(size, s, log, r, true);
            t.memory == Some(log + [r]) && AfterStep(hash, size, t, Restart).memory == None
  {
    var more := log + [r];
    RecordKeepsLog(hash, size, s, log, r, true);
    assert !ReadsBack(size, more) by { assert more[|log|] == r; }
    RestartKeepsLog(hash, size, AppendTo(size, s, log, r, true), more);
  }

  /** The bound of `Append` and the bound of the scanner differ by one: a record of exactly the largest accepted line is
      logged like any other, and the log never opens again. */
  lemma LongestLineNeverReopens(hash: RecordHash, size: LineSize, s: LogState, log: seq<AuditRecord>, r: AuditRecord)
    requires Required(r) && size(r) == MAX_LINE_BYTES
    ensures AppendAnswer(size, r, true) == Ok(r)
    ensures var t := AppendTo(size, s, log, r, true);
            t.memory == Some(log + [r]) && AfterStep(hash, size, t, Restart).memory == None
  {
    var lines := LinesOf(s.contents) + [LineOf(size, r)];
    assert !Readable(lines[|lines| - 1]);
    LongLineRejected(hash, lines);
  }

  lemma LongLineRejected(hash: RecordHash, lines: seq<Line>)
    requires !AllReadable(lines)
    ensures Verify(hash, Lines(lines)).Err?
  {
    var r := Verify(hash, Lines(lines));
    if r.Ok? {
      VerifiesExactlyChains(hash, lines, r.value);
      assert AllReadable(lines);
      assert false;
    }
  }

  lemma RepeatedNumberBreaksChain(hash: RecordHash, records: seq<AuditRecord>, i: nat)
    requires i < |records| && records[i].sequence != i + 1
    ensures !ValidChain(hash, records)
  {
    if ValidChain(hash, records) {
      SequenceAt(hash, records, i);
      assert false;
    }
  }

  /** Why an append must be all or nothing: after a line that reached the file but was reported as failed (a failed
      sync or close), memory still stands at the head before it. The file alone is a valid chain, but the next
      accepted append continues the same head, and from then on the log never opens again. */
  lemma UnacknowledgedLineIsFatal(hash: RecordHash, records: seq<AuditRecord>, written: AuditRecord, next: AuditRecord,
                                  lines: seq<Line>)
    requires ValidChain(hash, records)
    requires Continues(hash, |records|, HeadOf(records), written) && Continues(hash, |records|, HeadOf(records), next)
    requires Holds(lines, records + [written] + [next])
    ensures ValidChain(hash, records + [written])
    ensures Verify(hash, Lines(lines)).Err?
  {
    ExtendedValid(hash, records, written);
    var r := Verify(hash, Lines(lines));
    if r.Ok? {
      VerifiesExactlyChains(hash, lines, r.value);
      HeldAreDecoded(lines, records + [written] + [next], r.value);
      RepeatedNumberBreaksChain(hash, r.value, |records| + 1);
      assert false;
    }
  }

  lemma ListedAreHeld(lines: seq<Line>, records: seq<AuditRecord>)
    requires Lists(lines, records)
    ensures Holds(lines, records) && AllWhole(records)
  {
    forall i | 0 <= i < |records| ensures WholeRecord(records[i]) {
      assert lines[i].record == records[i];
    }
  }

  class AuditStore {
    const file: AuditFile
    const hash: RecordHash
    const size: LineSize
    var records: seq<AuditRecord>
    var lastHash: string
    var sequence: nat

    /** The file lists the records in memory, which form a valid chain that the sequence and head describe. */
    predicate Valid()
      reads this, file
    {
      && ValidChain(hash, records) && sequence == |records| && lastHash == HeadOf(records)
      && match file.contents
         case NoFile => records == []
         case UnreadableFile => false
         case Lines(lines) => Holds(lines, records)
    }

    /** The file and this store's records, as a state of the log. */
    function State(): LogState
      reads this, file
    {
      LogState(file.contents, Some(records))
    }

    constructor (file: AuditFile, hash: RecordHash, size: LineSize, records: seq<AuditRecord>)
      ensures this.file == file && this.hash == hash && this.size == size && this.records == records
      ensures lastHash == HeadOf(records) && sequence == |records|
    {
      this.file, this.hash, this.size, this.records := file, hash, size, records;
      lastHash, sequence := HeadOf(records), |records|;
    }

    /** OpenAuditStore: opens exactly the files that verify, and then holds what they list. */
    static method Open(path: string, file: AuditFile, hash: RecordHash, size: LineSize)
      returns (store: Option<AuditStore>)
      ensures store.Some? <==> !Blank(path) && Verify(hash, file.contents).Ok?
      ensures store.Some? ==>
                && fresh(store.value) && store.value.file == file && store.value.hash == hash
                && store.value.size == size
                && store.value.Valid() && store.value.records == Verify(hash, file.contents).value
      ensures !Blank(path) ==> forall memory ::
                AfterStep(hash, size, LogState(file.contents, memory), Restart) ==
                if store.Some? then store.value.State() else LogState(file.contents, None)
    {
      if Blank(path) {
        return None;
      }
      var r := LoadAndVerify(file.contents, hash);
      if r.Err? {
        return None;
      }
      if file.contents.Lines? {
        VerifiesExactlyChains(hash, file.contents.lines, r.value);
        ListedAreHeld(file.contents.lines, r.value);
      }
      var reopened := new AuditStore(file, hash, size, r.value);
      return Some(reopened);
    }

    /** The scan of the file, line by line, against the running head and sequence. */
    static method LoadAndVerify(contents: Contents, hash: RecordHash) returns (r: Result<seq<AuditRecord>, AuditError>)
      ensures r == Verify(hash, contents)
    {
      match contents {
        case NoFile => return Ok([]);
        case UnreadableFile => return Err(CannotOpen);
        case Lines(lines) =>
          var records: seq<AuditRecord>, previous, sequence := [], "", 0;
          ghost var check := CheckOf(hash);
          for i := 0 to |lines|
            invariant ReadChain(check, lines[..i]) == Ok(records)
            invariant sequence == |records| == i && previous == HeadOf(records)
          {
            var problem := LinkProblem(hash, sequence, previous, lines[i]);
            assert problem == check(sequence, previous, lines[i]);
            ReadChainStep(check, lines, i, records);
            if problem.Some? {
              ReadChainStops(check, lines, i + 1);
              return Err(problem.value);
            }
            sequence, previous := lines[i].record.sequence, lines[i].record.entryHash;
            records := records + [lines[i].record];
          }
          assert lines[..|lines|] == lines;
          return Ok(records);
      }
    }

    /** An accepted event becomes the next record in memory and in the file; a rejected one changes nothing. */
    method Append(event: AuditEvent, id: string, now: Time, diskWorks: bool)
      returns (r: Result<AuditRecord, AppendError>)
      requires Valid()
      modifies this, file
      ensures Valid()
      ensures r == AppendAnswer(size, NextRecord(hash, event, id, now, |old(records)|, HeadOf(old(records))), diskWorks)
      ensures r.Ok? ==> records == old(records) + [r.value]
      ensures r.Err? ==> unchanged(this) && unchanged(file)
      ensures r == Err(FieldsRequired) <==>
                event.actor.id == "" || SanitizeLabel(event.event, 96) == [] || SanitizeLabel(event.status, 64) == []
      ensures r.Ok? ==>
                && Reflects(r.value, event) && r.value.id == id && r.value.timestamp == now
                && r.value.schema == AUDIT_SCHEMA && r.value.sequence == |old(records)| + 1
                && r.value.previousHash == HeadOf(old(records)) && r.value.entryHash == hash(Canonical(r.value))
                && size(r.value) <= 1024 * 1024 && diskWorks
      ensures State() == AfterStep(hash, size, old(State()), LogStep.Append(Attempt(event, id, now, diskWorks)))
    {
      NextRecordContinues(hash, event, id, now, sequence, lastHash);
      var record := MakeRecord(event, id, now);
      AfterAppend(hash, size, State(), records, Attempt(event, id, now, diskWorks), record);
      r := AppendRecord(record, diskWorks);
    }

    /** Every text of the record is the clean cut of the event's own. */
    ghost predicate Reflects(r: AuditRecord, event: AuditEvent) {
      && r.event == SanitizeLabel(event.event, 96) && r.actor == event.actor
      && r.requestID == SanitizeLabel(event.requestID, 160) && r.sessionID == SanitizeLabel(event.sessionID, 160)
      && r.planID == SanitizeLabel(event.planID, 160) && r.planDigest == SanitizeDigest(event.planDigest)
      && r.action == SanitizeLabel(event.action, 160) && r.risk == SanitizeLabel(event.risk, 64)
      && r.status == SanitizeLabel(event.status, 64) && r.rollbackStatus == SanitizeLabel(event.rollbackStatus, 64)
      && r.parameters == RedactParameters(event.parameters) && r.errorCode == SanitizeLabel(event.errorCode, 96)
    }

    method MakeRecord(event: AuditEvent, id: string, now: Time) returns (record: AuditRecord)
      ensures record == NextRecord(hash, event, id, now, sequence, lastHash)
      ensures Reflects(record, event) && record.id == id && record.timestamp == now && record.schema == AUDIT_SCHEMA
      ensures record.sequence == sequence + 1 && record.previousHash == lastHash
      ensures record.entryHash == hash(Canonical(record))
    {
      record := AuditRecord(
        AUDIT_SCHEMA, sequence + 1, id, now, SanitizeLabel(event.event, 96), event.actor,
        SanitizeLabel(event.requestID, 160), SanitizeLabel(event.sessionID, 160), SanitizeLabel(event.planID, 160),
        SanitizeDigest(event.planDigest), SanitizeLabel(event.action, 160), SanitizeLabel(event.risk, 64),
        SanitizeLabel(event.status, 64), SanitizeLabel(event.rollbackStatus, 64), RedactParameters(event.parameters),
        SanitizeLabel(event.errorCode, 96), lastHash, "");
      ghost var unsigned := record;
      record := record.(entryHash := hash(Canonical(record)));
      assert Canonical(record) == Canonical(unsigned);
    }

    method AppendRecord(record: AuditRecord, diskWorks: bool) returns (r: Result<AuditRecord, AppendError>)
      requires Valid() && (Required(record) ==> Continues(hash, |records|, HeadOf(records), record))
      modifies this, file
      ensures Valid()
      ensures r == AppendAnswer(size, record, diskWorks)
      ensures r.Ok? ==> records == old(records) + [record]
      ensures State() == AppendTo(size, old(State()), old(records), record, diskWorks)
      ensures r.Err? ==> unchanged(this) && unchanged(file)
    {
      if !Required(record) {
        return Err(FieldsRequired);
      }
      if size(record) > MAX_LINE_BYTES {
        return Err(RecordTooLong);
      }
      if !diskWorks {
        return Err(NotWritten);
      }
      ExtendedValid(hash, records, record);
      var before := if file.contents.Lines? then file.contents.lines else [];
      file.contents := Lines(before + [LineOf(size, record)]);
      sequence, lastHash, records := record.sequence, record.entryHash, records + [record];
      return Ok(record);
    }

    /** Reopening the file at any moment rebuilds exactly the records of this store, provided every line leaves room for
        its newline and no text was cut inside a character. */
    lemma Reopens()
      requires Valid()
      ensures Verify(hash, file.contents) == Ok(records) <==> AllReadable(LinesOf(file.contents)) && AllWhole(records)
    {
      if file.contents.Lines? {
        ReopenIff(hash, file.contents.lines, records);
      }
    }

    /** The last records that match, newest last, found by scanning backwards and reversing in place. */
    method Query(limit: int, actorID: string, action: string) returns (r: seq<AuditRecord>, ghost ks: seq<nat>)
      ensures r == LastMatching(records, if limit <= 0 || limit > 500 then 100 else limit, Trim(actorID), Trim(action))
      ensures Newest(records, ks, r, if 1 <= limit <= 500 then limit else 100, Trim(actorID), Trim(action))
    {
      var bound := if limit <= 0 || limit > 500 then 100 else limit;
      var found, n := ScanBack(records, bound, Trim(actorID), Trim(action));
      ReverseInPlace(found, n);
      r := found[..n];
      ks := NewestMatching(records, bound, Trim(actorID), Trim(action));
    }
  }

  /** The reverse scan: the newest matching records first, up to the bound. */
  method ScanBack(records: seq<AuditRecord>, bound: nat, actorID: string, action: string)
    returns (found: array<AuditRecord>, n: nat)
    ensures fresh(found) && n <= found.Length
    ensures n == |LastMatching(records, bound, actorID, action)|
    ensures forall k :: 0 <= k < n ==> found[k] == LastMatching(records, bound, actorID, action)[n - 1 - k]
  {
    found := new AuditRecord[bound];
    n := 0;
    var index := |records|;
    ghost var wanted, tail := Wanted(actorID, action), [];
    while index > 0 && n < bound
      invariant 0 <= index <= |records| && tail == Filter(wanted, records[index..])
      invariant n == |tail| <= bound && fresh(found) && found.Length == bound
      invariant forall k :: 0 <= k < n ==> found[k] == tail[n - 1 - k]
    {
      index := index - 1;
      FilterStep(wanted, records, index);
      if Matches(records[index], actorID, action) {
        found[n] := records[index];
        n := n + 1;
        tail := [records[index]] + tail;
      }
    }
    LastIsTail(wanted, records, index, bound);
  }

  lemma FilterStep<T>(wanted: T -> bool, records: seq<T>, i: nat)
    requires i < |records|
    ensures Filter(wanted, records[i..]) ==
            (if wanted(records[i]) then [records[i]] else []) + Filter(wanted, records[i + 1..])
  {
    assert records[i..][1..] == records[i + 1..];
  }

  lemma LastIsTail<T>(wanted: T -> bool, records: seq<T>, index: nat, bound: nat)
    requires index <= |records| && |Filter(wanted, records[index..])| <= bound
    requires index == 0 || |Filter(wanted, records[index..])| == bound
    ensures TailOf(Filter(wanted, records), bound) == Filter(wanted, records[index..])
  {
    FilterSplits(wanted, records[..index], records[index..]);
    assert records[..index] + records[index..] == records;
    if index == 0 { assert records[..0] == []; }
  }

  lemma ReadChainStep(check: LinkCheck, lines: seq<Line>, i: nat, records: seq<AuditRecord>)
    requires i < |lines| && ReadChain(check, lines[..i]) == Ok(records)
    ensures ReadChain(check, lines[..i + 1]) ==
            match check(|records|, HeadOf(records), lines[i])
            case Some(e) => Err(e)
            case None => if lines[i].RecordLine? then Ok(records + [lines[i].record]) else Err(InvalidJSON)
  {
    assert lines[..i + 1][..i] == lines[..i];
  }

  /** Once a line is refused, so is every longer list. */
  lemma {:induction false} ReadChainStops(check: LinkCheck, lines: seq<Line>, n: nat)
    requires n <= |lines| && ReadChain(check, lines[..n]).Err?
    ensures ReadChain(check, lines) == ReadChain(check, lines[..n])
    decreases |lines|
  {
    if n < |lines| {
      var front := lines[..|lines| - 1];
      assert front[..n] == lines[..n];
      ReadChainStops(check, front, n);
    } else {
      assert lines[..n] == lines;
    }
  }

  // ---- Queries ----

  predicate Matches(r: AuditRecord, actorID: string, action: string) {
    (actorID == "" || r.actor.id == actorID) && (action == "" || r.action == Units(action))
  }

  /** The wanted records, in their order. */
  function Filter<T>(wanted: T -> bool, records: seq<T>): seq<T> {
    if records == [] then []
    else (if wanted(records[0]) then [records[0]] else []) + Filter(wanted, records[1..])
  }

  function Wanted(actorID: string, action: string): AuditRecord -> bool {
    r => Matches(r, actorID, action)
  }

  /** The last `limit` of the records that match, or all of them. */
  function LastMatching(records: seq<AuditRecord>, limit: nat, actorID: string, action: string): seq<AuditRecord> {
    TailOf(Filter(Wanted(actorID, action), records), limit)
  }

  /** The last `limit` elements, or all of them. */
  function TailOf<T>(s: seq<T>, limit: nat): seq<T> {
    if |s| <= limit then s else s[|s| - limit..]
  }

  /** The answer r is the records at the indices ks, oldest first. Each has the wanted actor and action; none that
      has them and is newer than the first of these is missing, and none at all while there is room. */
  ghost predicate Newest(records: seq<AuditRecord>, ks: seq<nat>, r: seq<AuditRecord>, limit: nat, actorID: string,
                         action: string)
  {
    && |ks| == |r| <= limit
    && (forall j :: 0 <= j < |ks| ==> ks[j] < |records| && r[j] == records[ks[j]])
    && (forall j :: 0 <= j < |r| ==>
          (actorID == "" || r[j].actor.id == actorID) && (action == "" || r[j].action == Units(action)))
    && (forall j, k :: 0 <= j < k < |ks| ==> ks[j] < ks[k])
    && (forall i | 0 <= i < |records| && (|r| < limit || (|ks| > 0 && ks[0] <= i)) ::
          (actorID == "" || records[i].actor.id == actorID) && (action == "" || records[i].action == Units(action)) ==>
            i in ks)
  }

  /** Where the wanted records are. */
  function Indices<T>(wanted: T -> bool, records: seq<T>): (ks: seq<nat>)
    ensures forall j :: 0 <= j < |ks| ==> ks[j] < |records|
  {
    if records == [] then []
    else
      var n := |records| - 1;
      Indices(wanted, records[..n]) + if wanted(records[n]) then [n] else []
  }

  lemma {:induction false} IndicesExactly<T>(wanted: T -> bool, records: seq<T>)
    ensures var ks := Indices(wanted, records);
            && (forall j, k :: 0 <= j < k < |ks| ==> ks[j] < ks[k])
            && forall i: nat :: i in ks <==> i < |records| && wanted(records[i])
  {
    if records != [] {
      var n := |records| - 1;
      var before := Indices(wanted, records[..n]);
      IndicesExactly(wanted, records[..n]);
      forall i: nat ensures i in Indices(wanted, records) <==> i < |records| && wanted(records[i]) {
        assert i in Indices(wanted, records) <==> i in before || (i == n && wanted(records[n]));
        assert i < n ==> records[..n][i] == records[i];
      }
      forall j | 0 <= j < |before| ensures before[j] < n {
        assert before[j] in before;
      }
    }
  }

  function Picked<T>(records: seq<T>, ks: seq<nat>): seq<T>
    requires forall j :: 0 <= j < |ks| ==> ks[j] < |records|
  {
    seq(|ks|, j requires 0 <= j < |ks| => records[ks[j]])
  }

  lemma {:induction false} FilterIsPicked<T>(wanted: T -> bool, records: seq<T>)
    ensures Filter(wanted, records) == Picked(records, Indices(wanted, records))
  {
    if records != [] {
      var n := |records| - 1;
      FilterIsPicked(wanted, records[..n]);
      FilterSnoc(wanted, records, n);
      PickedStep(records, wanted, n);
    }
  }

  lemma FilterSnoc<T>(wanted: T -> bool, records: seq<T>, n: nat)
    requires n == |records| - 1
    ensures Filter(wanted, records) == Filter(wanted, records[..n]) + if wanted(records[n]) then [records[n]] else []
  {
    var last := [records[n]];
    assert records == records[..n] + last;
    FilterSplits(wanted, records[..n], last);
    assert last[1..] == [];
  }

  lemma PickedStep<T>(records: seq<T>, wanted: T -> bool, n: nat)
    requires n == |records| - 1
    ensures Picked(records, Indices(wanted, records)) ==
            Picked(records[..n], Indices(wanted, records[..n])) + if wanted(records[n]) then [records[n]] else []
  {
    var before := Indices(wanted, records[..n]);
    if wanted(records[n]) {
      PickedMore(records, before, n);
    } else {
      PickedPrefix(records, before, n);
      assert Indices(wanted, records) == before;
    }
  }

  lemma PickedPrefix<T>(records: seq<T>, ks: seq<nat>, n: nat)
    requires n <= |records| && forall j :: 0 <= j < |ks| ==> ks[j] < n
    ensures Picked(records, ks) == Picked(records[..n], ks)
  {}

  lemma PickedMore<T>(records: seq<T>, ks: seq<nat>, n: nat)
    requires n < |records| && forall j :: 0 <= j < |ks| ==> ks[j] < n
    ensures Picked(records, ks + [n]) == Picked(records[..n], ks) + [records[n]]
  {
    PickedPrefix(records, ks, n);
    assert Picked(records, ks + [n])[..|ks|] == Picked(records, ks);
  }

  lemma NewestMatching(records: seq<AuditRecord>, limit: nat, actorID: string, action: string) returns (ks: seq<nat>)
    ensures Newest(records, ks, LastMatching(records, limit, actorID, action), limit, actorID, action)
  {
    var all := Indices(Wanted(actorID, action), records);
    WantedOutright(records, actorID, action);
    IndicesExactly(Wanted(actorID, action), records);
    ks := NewestTail(records, all, limit, actorID, action);
    LastIsPicked(records, limit, actorID, action);
  }

  lemma LastIsPicked(records: seq<AuditRecord>, limit: nat, actorID: string, action: string)
    ensures LastMatching(records, limit, actorID, action) ==
            Picked(records, TailOf(Indices(Wanted(actorID, action), records), limit))
  {
    var wanted := Wanted(actorID, action);
    FilterIsPicked(wanted, records);
    PickedTail(records, Filter(wanted, records), Indices(wanted, records), limit);
  }

  lemma NewestTail(records: seq<AuditRecord>, all: seq<nat>, limit: nat, actorID: string, action: string)
    returns (ks: seq<nat>)
    requires forall j, k :: 0 <= j < k < |all| ==> all[j] < all[k]
    requires forall i :: i in all ==>
               && i < |records| && (actorID == "" || records[i].actor.id == actorID)
               && (action == "" || records[i].action == Units(action))
    requires forall i | 0 <= i < |records| ::
               && (actorID == "" || records[i].actor.id == actorID)
               && (action == "" || records[i].action == Units(action)) ==>
                 i in all
    ensures ks == TailOf(all, limit) && forall j :: 0 <= j < |ks| ==> ks[j] < |records|
    ensures Newest(records, ks, Picked(records, ks), limit, actorID, action)
  {
    ks := TailOf(all, limit);
    TailKeepsNewest(all, limit, ks);
    NewestPicked(records, all, ks, limit, actorID, action);
  }

  lemma NewestPicked(records: seq<AuditRecord>, all: seq<nat>, ks: seq<nat>, limit: nat, actorID: string,
                     action: string)
    requires forall i :: i in all ==>
               && i < |records| && (actorID == "" || records[i].actor.id == actorID)
               && (action == "" || records[i].action == Units(action))
    requires forall i | 0 <= i < |records| ::
               && (actorID == "" || records[i].actor.id == actorID)
               && (action == "" || records[i].action == Units(action)) ==>
                 i in all
    requires |ks| <= limit && (forall j, k :: 0 <= j < k < |ks| ==> ks[j] < ks[k])
    requires forall j :: 0 <= j < |ks| ==> ks[j] in all
    requires forall i :: i in all && (|ks| < limit || (|ks| > 0 && ks[0] <= i)) ==> i in ks
    ensures forall j :: 0 <= j < |ks| ==> ks[j] < |records|
    ensures Newest(records, ks, Picked(records, ks), limit, actorID, action)
  {
    forall j | 0 <= j < |ks| ensures ks[j] < |records| {
      assert ks[j] in all;
    }
  }

  lemma PickedTail<T>(records: seq<T>, r: seq<T>, all: seq<nat>, limit: nat)
    requires forall j :: 0 <= j < |all| ==> all[j] < |records|
    requires r == Picked(records, all)
    ensures TailOf(r, limit) == Picked(records, TailOf(all, limit))
  {}

  /** The wanted indices are exactly those of the records with the wanted actor and action. */
  lemma WantedOutright(records: seq<AuditRecord>, actorID: string, action: string)
    ensures var all := Indices(Wanted(actorID, action), records);
            && (forall i :: i in all ==>
                  && i < |records| && (actorID == "" || records[i].actor.id == actorID)
                  && (action == "" || records[i].action == Units(action)))
            && (forall i | 0 <= i < |records| ::
                  && (actorID == "" || records[i].actor.id == actorID)
                  && (action == "" || records[i].action == Units(action)) ==>
                    i in all)
  {
    IndicesExactly(Wanted(actorID, action), records);
    forall i | 0 <= i < |records|
      ensures Wanted(actorID, action)(records[i]) <==>
                && (actorID == "" || records[i].actor.id == actorID)
                && (action == "" || records[i].action == Units(action))
    {}
  }

  /** The tail of an ascending list has every element from its first one on. */
  lemma TailKeepsNewest(all: seq<nat>, limit: nat, ks: seq<nat>)
    requires forall j, k :: 0 <= j < k < |all| ==> all[j] < all[k]
    requires ks == TailOf(all, limit)
    ensures forall j, k :: 0 <= j < k < |ks| ==> ks[j] < ks[k]
    ensures forall j :: 0 <= j < |ks| ==> ks[j] in all
    ensures forall i :: i in all && (|ks| < limit || (|ks| > 0 && ks[0] <= i)) ==> i in ks
  {
    forall i | i in all && (|ks| < limit || (|ks| > 0 && ks[0] <= i)) ensures i in ks {
      var j :| 0 <= j < |all| && all[j] == i;
      if |all| > limit {
        assert ks[0] == all[|all| - limit];
        assert ks[j - (|all| - limit)] == i;
      }
    }
  }

  lemma {:induction false} FilterSplits<T>(wanted: T -> bool, a: seq<T>, b: seq<T>)
    ensures Filter(wanted, a + b) == Filter(wanted, a) + Filter(wanted, b)
  {
    if a == [] {
      assert a + b == b;
    } else {
      FilterSplits(wanted, a[1..], b);
      assert (a + b)[0] == a[0] && (a + b)[1..] == a[1..] + b;
      var head := if wanted(a[0]) then [a[0]] else [];
      assert head + (Filter(wanted, a[1..]) + Filter(wanted, b)) == head + Filter(wanted, a[1..]) + Filter(wanted, b);
    }
  }

  method ReverseInPlace(a: array<AuditRecord>, n: nat)
    requires n <= a.Length
    modifies a
    ensures forall k :: 0 <= k < n ==> a[k] == old(a[n - 1 - k])
  {
    var left, right := 0, n - 1;
    while left < right
      invariant 0 <= left <= n && right == n - 1 - left && left <= right + 2
      invariant forall k :: 0 <= k < left ==> a[k] == old(a[n - 1 - k]) && a[n - 1 - k] == old(a[k])
      invariant forall k :: left <= k <= right ==> a[k] == old(a[k])
      decreases right - left
    {
      a[left], a[right] := a[right], a[left];
      left, right := left + 1, right - 1;
    }
  }
}

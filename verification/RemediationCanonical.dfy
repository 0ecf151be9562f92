/** The signed form of a remediation job: control-plane/remediation/canonical.go and the
    agent's independent copy, agent/internal/remediate/canonical.go.

    Cryptography is symbolic: a digest is a free symbol over its payload, and a signature is
    a free symbol over the message, made with the one remediation key. */
module RemediationCanonical {
  import opened Prelude
  import opened Utf8

  // Nanoseconds since Go's zero time; 0 is the zero time itself (IsZero).
  type Time = nat

  const SECOND: nat := 1_000_000_000

  datatype JobState =
    | PendingApproval | Approved | Delivered | Acked | Applied
    | Failed | Verified | Expired | Rejected

  datatype Signature = Unsigned | Signed(msg: string)

  datatype Result = Result(status: string, detail: string, evidence: string, reportedAt: Time)

  /** The server's RemediationJob. */
  datatype Job = Job(
    schemaVersion: string, jobId: string, correlationId: string, tenant: string, agentId: string,
    typ: string, payload: string, payloadSha: string, nonce: string, state: JobState,
    issuedAt: Time, notBefore: Time, notAfter: Time, expiresAt: Time,
    approvedBy: string, approvedAt: Time, signature: Signature,
    createdAt: Time, deliveredAt: Time, ackedAt: Time, result: Option<Result>)

  /** The agent's Job: only the members it acts on survive decoding. */
  datatype Order = Order(
    schemaVersion: string, jobId: string, correlationId: string, tenant: string, agentId: string,
    typ: string, payload: string, payloadSha: string, nonce: string,
    issuedAt: Time, notBefore: Time, notAfter: Time, expiresAt: Time,
    approvedBy: string, signature: Signature)

  const DOMAIN := "suricatoos-remediation-v1"

  /** The thirteen signed keys, in the order both sides write them. */
  const KEYS: seq<string> := [
    "schema_version", "job_id", "correlation_id", "tenant", "agent_id", "type", "approved_by",
    "issued_at", "not_before", "not_after", "expires_at", "nonce", "payload_sha256"]

  /** rfc3339: empty for the zero time, else the time cut to whole seconds. */
  function Rfc3339(t: Time): string {
    if t == 0 then "" else Itoa(t / SECOND)
  }

  /** Hex SHA-256 as an injective symbol. */
  function Digest(payload: string): string {
    "sha256(" + payload + ")"
  }

  lemma DigestInjective(p: string, q: string)
    requires Digest(p) == Digest(q)
    ensures p == q
  {
    assert Digest(p) == "sha256(" + (p + ")") && Digest(q) == "sha256(" + (q + ")");
    assert p == Digest(p)[7..|Digest(p)| - 1] && q == Digest(q)[7..|Digest(q)| - 1];
  }

  // ---- the framing ----

  /** One signed line: the key, the byte length of the value, the value. */
  function Frame(key: string, val: string): string {
    key + "=" + Itoa(|val|) + ":" + val + "\n"
  }

  function Frames(keys: seq<string>, vals: seq<string>): string
    requires |keys| == |vals|
  {
    if keys == [] then "" else Frame(keys[0], vals[0]) + Frames(keys[1..], vals[1..])
  }

  /** The message signed for a list of thirteen values. */
  function Message(vals: seq<string>): string
    requires |vals| == |KEYS|
  {
    DOMAIN + "\n" + Frames(KEYS, vals)
  }

  /** A colon-free prefix is recovered from what follows it. */
  lemma SplitAtColon(d1: string, r1: string, d2: string, r2: string)
    requires ':' !in d1 && ':' !in d2
    requires d1 + ":" + r1 == d2 + ":" + r2
    ensures d1 == d2 && r1 == r2
  {
    var s := d1 + ":" + r1;
    assert s[|d1|] == ':' && s[|d2|] == ':';
    assert forall i :: 0 <= i < |d1| ==> s[i] == d1[i];
    assert forall i :: 0 <= i < |d2| ==> s[i] == d2[i];
    assert |d1| == |d2|;
    assert d1 == s[..|d1|] && d2 == s[..|d1|];
    assert r1 == s[|d1| + 1..] && r2 == s[|d1| + 1..];
  }

  /** No value, whatever bytes it holds, can move the end of its own line. */
  lemma FramePrefixFree(key: string, v1: string, t1: string, v2: string, t2: string)
    requires Frame(key, v1) + t1 == Frame(key, v2) + t2
    ensures v1 == v2 && t1 == t2
  {
    var r1, r2 := v1 + "\n" + t1, v2 + "\n" + t2;
    var s1, s2 := Itoa(|v1|) + ":" + r1, Itoa(|v2|) + ":" + r2;
    assert Frame(key, v1) + t1 == (key + "=") + s1;
    assert Frame(key, v2) + t2 == (key + "=") + s2;
    assert s1 == ((key + "=") + s1)[|key| + 1..] && s2 == ((key + "=") + s2)[|key| + 1..];
    SplitAtColon(Itoa(|v1|), r1, Itoa(|v2|), r2);
    ItoaInjective(|v1|, |v2|);
    assert v1 == r1[..|v1|] && v2 == r2[..|v1|];
    assert t1 == r1[|v1| + 1..] && t2 == r2[|v1| + 1..];
  }

  /** Neither list of values can be read as the other, nor as a prefix of it. */
  lemma {:induction false} FramesPrefixFree(keys: seq<string>, u: seq<string>, s: string, v: seq<string>, t: string)
    requires |keys| == |u| == |v|
    requires Frames(keys, u) + s == Frames(keys, v) + t
    ensures u == v && s == t
    decreases |keys|
  {
    if keys != [] {
      var ur, vr := Frames(keys[1..], u[1..]) + s, Frames(keys[1..], v[1..]) + t;
      assert Frames(keys, u) + s == Frame(keys[0], u[0]) + ur;
      assert Frames(keys, v) + t == Frame(keys[0], v[0]) + vr;
      FramePrefixFree(keys[0], u[0], ur, v[0], vr);
      FramesPrefixFree(keys[1..], u[1..], s, v[1..], t);
      assert u == [u[0]] + u[1..] && v == [v[0]] + v[1..];
    } else {
      assert Frames(keys, u) + s == s && Frames(keys, v) + t == t;
    }
  }

  lemma MessageInjective(u: seq<string>, v: seq<string>)
    requires |u| == |v| == |KEYS|
    ensures Message(u) == Message(v) <==> u == v
  {
    if Message(u) == Message(v) {
      var head := DOMAIN + "\n";
      assert Frames(KEYS, u) == Message(u)[|head|..] && Frames(KEYS, v) == Message(v)[|head|..];
      assert Frames(KEYS, u) + "" == Frames(KEYS, v) + "";
      FramesPrefixFree(KEYS, u, "", v, "");
    }
  }

  // ---- both sides' signed values ----

  function JobFields(j: Job): (f: seq<string>)
    ensures |f| == |KEYS|
  {
    [j.schemaVersion, j.jobId, j.correlationId, j.tenant, j.agentId, j.typ, j.approvedBy,
     Rfc3339(j.issuedAt), Rfc3339(j.notBefore), Rfc3339(j.notAfter), Rfc3339(j.expiresAt), j.nonce, j.payloadSha]
  }

  function OrderFields(o: Order): (f: seq<string>)
    ensures |f| == |KEYS|
  {
    [o.schemaVersion, o.jobId, o.correlationId, o.tenant, o.agentId, o.typ, o.approvedBy,
     Rfc3339(o.issuedAt), Rfc3339(o.notBefore), Rfc3339(o.notAfter), Rfc3339(o.expiresAt), o.nonce, o.payloadSha]
  }

  // ---- the writers ----

  /** bytes.Buffer, as far as Canonical uses it. */
  class Buffer {
    var data: string

    constructor ()
      ensures data == ""
    {
      data := "";
    }

    method WriteString(s: string)
      modifies this
      ensures data == old(data) + s
    {
      data := data + s;
    }
  }

  /** field: appends one length-prefixed line. */
  method WriteField(b: Buffer, key: string, val: string)
    modifies b
    ensures b.data == old(b.data) + Frame(key, val)
  {
    b.WriteString(key);
    b.WriteString("=");
    b.WriteString(Itoa(|val|));
    b.WriteString(":");
    b.WriteString(val);
    b.WriteString("\n");
    assert b.data == old(b.data) + Frame(key, val);
  }

  lemma TakeTail<T>(s: seq<T>, n: nat)
    requires 0 < n <= |s|
    ensures s[..n][1..] == s[1..][..n - 1]
  {
  }

  /** Frames of a list ending in one more line. */
  lemma {:induction false} FramesSnoc(keys: seq<string>, vals: seq<string>, n: nat)
    requires |keys| == |vals| && n < |keys|
    ensures Frames(keys[..n + 1], vals[..n + 1]) == Frames(keys[..n], vals[..n]) + Frame(keys[n], vals[n])
    decreases n
  {
    hide Frame;
    if n == 0 {
      assert keys[..1][1..] == [] && vals[..1][1..] == [];
      assert Frames(keys[..1], vals[..1]) == Frame(keys[0], vals[0]) + "";
    } else {
      FramesSnoc(keys[1..], vals[1..], n - 1);
      TakeTail(keys, n + 1);
      TakeTail(keys, n);
      TakeTail(vals, n + 1);
      TakeTail(vals, n);
    }
  }

  /** The buffer holds the domain line and the first n lines of the message. */
  ghost predicate Holds(data: string, vals: seq<string>, n: nat) {
    |vals| == |KEYS| && n <= |KEYS| && data == DOMAIN + "\n" + Frames(KEYS[..n], vals[..n])
  }

  /** One more line of the message. */
  method WriteNext(b: Buffer, ghost vals: seq<string>, ghost n: nat, key: string, val: string)
    returns (ghost next: nat)
    requires Holds(b.data, vals, n) && n < |KEYS| && key == KEYS[n] && val == vals[n]
    modifies b
    ensures next == n + 1 && Holds(b.data, vals, next)
  {
    hide Frames, Frame;
    WriteField(b, key, val);
    FramesSnoc(KEYS, vals, n);
    next := n + 1;
  }

  method WriteDomain(b: Buffer, ghost vals: seq<string>) returns (ghost n: nat)
    requires b.data == "" && |vals| == |KEYS|
    modifies b
    ensures n == 0 && Holds(b.data, vals, n)
  {
    b.WriteString(DOMAIN);
    b.WriteString("\n");
    n := 0;
  }

  method Finish(b: Buffer, ghost vals: seq<string>) returns (out: string)
    requires Holds(b.data, vals, |KEYS|)
    ensures out == Message(vals)
  {
    assert KEYS[..|KEYS|] == KEYS && vals[..|KEYS|] == vals;
    out := b.data;
  }

  /** The server's Canonical. */
  method ServerCanonical(j: Job) returns (out: string)
    ensures out == Message(JobFields(j))
  {
    var b := new Buffer();
    ghost var f := JobFields(j);
    ghost var n := WriteDomain(b, f);
    n := WriteNext(b, f, n, "schema_version", j.schemaVersion);
    n := WriteNext(b, f, n, "job_id", j.jobId);
    n := WriteNext(b, f, n, "correlation_id", j.correlationId);
    n := WriteNext(b, f, n, "tenant", j.tenant);
    n := WriteNext(b, f, n, "agent_id", j.agentId);
    n := WriteNext(b, f, n, "type", j.typ);
    n := WriteNext(b, f, n, "approved_by", j.approvedBy);
    n := WriteNext(b, f, n, "issued_at", Rfc3339(j.issuedAt));
    n := WriteNext(b, f, n, "not_before", Rfc3339(j.notBefore));
    n := WriteNext(b, f, n, "not_after", Rfc3339(j.notAfter));
    n := WriteNext(b, f, n, "expires_at", Rfc3339(j.expiresAt));
    n := WriteNext(b, f, n, "nonce", j.nonce);
    n := WriteNext(b, f, n, "payload_sha256", j.payloadSha);
    out := Finish(b, f);
  }

  /** The agent's Canonical, written independently. */
  method AgentCanonical(o: Order) returns (out: string)
    ensures out == Message(OrderFields(o))
  {
    var b := new Buffer();
    ghost var f := OrderFields(o);
    ghost var n := WriteDomain(b, f);
    n := WriteNext(b, f, n, "schema_version", o.schemaVersion);
    n := WriteNext(b, f, n, "job_id", o.jobId);
    n := WriteNext(b, f, n, "correlation_id", o.correlationId);
    n := WriteNext(b, f, n, "tenant", o.tenant);
    n := WriteNext(b, f, n, "agent_id", o.agentId);
    n := WriteNext(b, f, n, "type", o.typ);
    n := WriteNext(b, f, n, "approved_by", o.approvedBy);
    n := WriteNext(b, f, n, "issued_at", Rfc3339(o.issuedAt));
    n := WriteNext(b, f, n, "not_before", Rfc3339(o.notBefore));
    n := WriteNext(b, f, n, "not_after", Rfc3339(o.notAfter));
    n := WriteNext(b, f, n, "expires_at", Rfc3339(o.expiresAt));
    n := WriteNext(b, f, n, "nonce", o.nonce);
    n := WriteNext(b, f, n, "payload_sha256", o.payloadSha);
    out := Finish(b, f);
  }

  // ---- verification ----

  /** Sign: the symbolic signature of the job's canonical form. */
  function Sign(j: Job): Signature {
    Signed(Message(JobFields(j)))
  }

  /** Verify: signed, the digest matches the payload held, and the signature is over these fields. */
  predicate Verify(o: Order) {
    && o.signature != Unsigned
    && Digest(o.payload) == o.payloadSha
    && o.signature == Signed(Message(OrderFields(o)))
  }

  /** VerifyAt: Verify within [issued_at - skew, expires_at + skew]. */
  predicate VerifyAt(o: Order, now: Time, skew: nat) {
    && Verify(o)
    && !(o.issuedAt != 0 && now < o.issuedAt - skew)
    && !(o.expiresAt != 0 && now > o.expiresAt + skew)
  }

  /** A verified order is, in its thirteen fields and its payload, the one the key holder signed. */
  lemma VerifiedIsSigned(o: Order, fields: seq<string>, payload: string)
    requires |fields| == |KEYS| && fields[12] == Digest(payload)
    requires Verify(o) && o.signature == Signed(Message(fields))
    ensures OrderFields(o) == fields && o.payload == payload
  {
    MessageInjective(OrderFields(o), fields);
    DigestInjective(o.payload, payload);
  }

  /** Changing any signed value or the payload makes the signature fail. */
  lemma SignatureBindsEveryField(o: Order, p: Order)
    requires Verify(o) && p.signature == o.signature
    ensures Verify(p) <==> OrderFields(p) == OrderFields(o) && p.payload == o.payload
  {
    MessageInjective(OrderFields(p), OrderFields(o));
    if Verify(p) && OrderFields(p) == OrderFields(o) {
      DigestInjective(p.payload, o.payload);
    }
  }

  /** Two times that render alike are less than a second apart. */
  lemma Rfc3339Second(s: Time, t: Time)
    requires Rfc3339(s) == Rfc3339(t)
    ensures s == 0 <==> t == 0
    ensures s < t + SECOND && t < s + SECOND
  {
    if s != 0 && t != 0 {
      ItoaInjective(s / SECOND, t / SECOND);
    }
  }

  /** Only the unset time is signed as nothing. */
  lemma UnsetIsEmpty(t: Time)
    ensures Rfc3339(t) == "" <==> t == 0
  {
  }

  /** The line for one signed member. */
  function Line(key: string, val: string): string {
    key + "=" + Itoa(|val|) + ":" + val + "\n"
  }

  /** The text a job's signature is over, member by member. */
  lemma SignedText(j: Job)
    ensures Sign(j) == Signed(
      "suricatoos-remediation-v1\n"
      + (Line("schema_version", j.schemaVersion) + (Line("job_id", j.jobId) + (Line("correlation_id", j.correlationId)
      + (Line("tenant", j.tenant) + (Line("agent_id", j.agentId) + (Line("type", j.typ) + (Line("approved_by", j.approvedBy)
      + (Line("issued_at", Rfc3339(j.issuedAt)) + (Line("not_before", Rfc3339(j.notBefore)) + (Line("not_after", Rfc3339(j.notAfter))
      + (Line("expires_at", Rfc3339(j.expiresAt)) + (Line("nonce", j.nonce) + (Line("payload_sha256", j.payloadSha) + ""))))))))))))))
  {
    hide Frames, Frame, Rfc3339, Line;
    var f := JobFields(j);
    LastLines(f);
    FramesFrom(f, 0);
    FramesFrom(f, 1);
    FramesFrom(f, 2);
    FramesFrom(f, 3);
    FramesFrom(f, 4);
    FramesFrom(f, 5);
    assert KEYS[0..] == KEYS && f[0..] == f;
  }

  lemma LastLines(f: seq<string>)
    requires |f| == |KEYS|
    ensures Frames(KEYS[6..], f[6..]) ==
      Line("approved_by", f[6]) + (Line("issued_at", f[7]) + (Line("not_before", f[8]) + (Line("not_after", f[9])
      + (Line("expires_at", f[10]) + (Line("nonce", f[11]) + (Line("payload_sha256", f[12]) + ""))))))
  {
    hide Frames, Frame, Line;
    FramesFrom(f, 6);
    FramesFrom(f, 7);
    FramesFrom(f, 8);
    FramesFrom(f, 9);
    FramesFrom(f, 10);
    FramesFrom(f, 11);
    FramesFrom(f, 12);
    assert KEYS[13..] == [] && f[13..] == [];
    NoFrames();
  }

  lemma NoFrames()
    ensures Frames([], []) == ""
  {
  }

  lemma FramesFrom(vals: seq<string>, n: nat)
    requires |vals| == |KEYS| && n < |KEYS|
    ensures Frames(KEYS[n..], vals[n..]) == Line(KEYS[n], vals[n]) + Frames(KEYS[n + 1..], vals[n + 1..])
  {
    assert KEYS[n..][1..] == KEYS[n + 1..] && vals[n..][1..] == vals[n + 1..];
  }

  // ---- what the HTTP response does to a payload ----

  /** The bytes an HTML-escaping JSON encoder rewrites inside an embedded raw payload: the three
      markup bytes, and U+2028 or U+2029 (the UTF-8 bytes E2 80 A8 and E2 80 A9). */
  predicate LineSeparatorAt(p: string, i: nat) {
    i + 2 < |p| && p[i] as int == 0xE2 && p[i + 1] as int == 0x80 && (p[i + 2] as int == 0xA8 || p[i + 2] as int == 0xA9)
  }

  predicate Markup(c: char) {
    c == '<' || c == '>' || c == '&'
  }

  function EscapeMarkup(c: char): (e: string)
    ensures |e| == 6
  {
    match c
    case '<' => "\\u003c"
    case '>' => "\\u003e"
    case _ => "\\u0026"
  }

  /** encoding/json's compaction of a RawMessage with EscapeHTML on, the default PollHandler uses. */
  function HtmlEscape(p: string): (e: string)
    ensures |e| >= |p|
  {
    if p == "" then ""
    else if Markup(p[0]) then EscapeMarkup(p[0]) + HtmlEscape(p[1..])
    else if LineSeparatorAt(p, 0) then
      (if p[2] as int == 0xA8 then "\\u2028" else "\\u2029") + HtmlEscape(p[3..])
    else [p[0]] + HtmlEscape(p[1..])
  }

  /** No byte of the payload is rewritten on the wire. */
  ghost predicate WireSafe(p: string) {
    && (forall i :: 0 <= i < |p| ==> !Markup(p[i]))
    && (forall i: nat :: !LineSeparatorAt(p, i))
  }

  lemma {:induction false} HtmlEscapeFixes(p: string)
    ensures HtmlEscape(p) == p <==> WireSafe(p)
    decreases |p|
  {
    if p != "" {
      var t := p[1..];
      assert forall i: nat :: LineSeparatorAt(t, i) <==> LineSeparatorAt(p, i + 1);
      if Markup(p[0]) || LineSeparatorAt(p, 0) {
        assert |HtmlEscape(p)| > |p|;
      } else {
        HtmlEscapeFixes(t);
        assert HtmlEscape(p)[1..] == HtmlEscape(t);
        assert p == [p[0]] + t;
        if WireSafe(t) {
          forall i: nat ensures !LineSeparatorAt(p, i) {
            if i > 0 { assert LineSeparatorAt(t, i - 1) <==> LineSeparatorAt(p, i); }
          }
        }
        if WireSafe(p) {
          forall i: nat ensures !LineSeparatorAt(t, i) {
            assert LineSeparatorAt(t, i) <==> LineSeparatorAt(p, i + 1);
          }
        }
      }
    }
  }

  /** The payloads the response leaves alone, spelled out: no '<', '>' or '&', and no U+2028 or U+2029. */
  lemma WireSafeText(p: string)
    ensures WireSafe(p) <==> (
      && '<' !in p && '>' !in p && '&' !in p
      && forall i :: 0 <= i < |p| - 2 && p[i] == '\U{e2}' && p[i + 1] == '\U{80}' ==> p[i + 2] != '\U{a8}' && p[i + 2] != '\U{a9}')
  {
    if '<' !in p && '>' !in p && '&' !in p {
      forall i | 0 <= i < |p| ensures !Markup(p[i]) { assert p[i] in p; }
    }
    forall i: nat | i < |p| - 2 ensures LineSeparatorAt(p, i) <==> p[i] == '\U{e2}' && p[i + 1] == '\U{80}' && (p[i + 2] == '\U{a8}' || p[i + 2] == '\U{a9}') {
    }
  }

  /** How the response writes the bytes it rewrites. */
  lemma EscapesAre(p: string)
    ensures HtmlEscape(['<'] + p) == "\\u003c" + HtmlEscape(p) && HtmlEscape(['>'] + p) == "\\u003e" + HtmlEscape(p)
    ensures HtmlEscape(['&'] + p) == "\\u0026" + HtmlEscape(p)
    ensures HtmlEscape("\U{e2}\U{80}\U{a8}" + p) == "\\u2028" + HtmlEscape(p) && HtmlEscape("\U{e2}\U{80}\U{a9}" + p) == "\\u2029" + HtmlEscape(p)
  {
    var s, t := "\U{e2}\U{80}\U{a8}" + p, "\U{e2}\U{80}\U{a9}" + p;
    assert s[3..] == p && t[3..] == p && (['<'] + p)[1..] == p && (['>'] + p)[1..] == p && (['&'] + p)[1..] == p;
    assert LineSeparatorAt(s, 0) && LineSeparatorAt(t, 0);
  }

  // ---- what JSON does to the other members ----

  function TranscribedResult(r: Result): Result {
    Result(Transcoded(r.status), Transcoded(r.detail), Transcoded(r.evidence), r.reportedAt)
  }

  /** The job read back from its JSON form: every string transcoded, the raw payload as it was. The digest
      and the signature are hexadecimal and base64, which no encoding changes. */
  function Transcribed(j: Job): Job {
    j.(schemaVersion := Transcoded(j.schemaVersion), jobId := Transcoded(j.jobId), correlationId := Transcoded(j.correlationId),
       tenant := Transcoded(j.tenant), agentId := Transcoded(j.agentId), typ := Transcoded(j.typ), nonce := Transcoded(j.nonce),
       approvedBy := Transcoded(j.approvedBy), result := if j.result.Some? then Some(TranscribedResult(j.result.value)) else None)
  }

  /** Every string of the job but the approver is well-formed. */
  predicate TextOk(j: Job) {
    && ValidUtf8(j.schemaVersion) && ValidUtf8(j.jobId) && ValidUtf8(j.correlationId) && ValidUtf8(j.tenant)
    && ValidUtf8(j.agentId) && ValidUtf8(j.typ) && ValidUtf8(j.nonce)
  }

  lemma TranscribedResultTwice(r: Result)
    ensures TranscribedResult(TranscribedResult(r)) == TranscribedResult(r)
  {
    hide Transcoded, ValidUtf8;
    TranscodedIsValid(r.status);
    TranscodedIsValid(r.detail);
    TranscodedIsValid(r.evidence);
  }

  lemma TranscribedTwice(j: Job)
    ensures Transcribed(Transcribed(j)) == Transcribed(j)
  {
    hide Transcoded, ValidUtf8, TranscribedResult;
    TranscodedIsValid(j.schemaVersion);
    TranscodedIsValid(j.jobId);
    TranscodedIsValid(j.correlationId);
    TranscodedIsValid(j.tenant);
    TranscodedIsValid(j.agentId);
    TranscodedIsValid(j.typ);
    TranscodedIsValid(j.nonce);
    TranscodedIsValid(j.approvedBy);
    if j.result.Some? { TranscribedResultTwice(j.result.value); }
  }

  lemma TextSurvives(j: Job)
    requires TextOk(j)
    ensures Transcribed(j) == j.(approvedBy := Transcoded(j.approvedBy), result := Transcribed(j).result)
  {
    hide Transcoded, ValidUtf8;
    TranscodedFixes(j.schemaVersion);
    TranscodedFixes(j.jobId);
    TranscodedFixes(j.correlationId);
    TranscodedFixes(j.tenant);
    TranscodedFixes(j.agentId);
    TranscodedFixes(j.typ);
    TranscodedFixes(j.nonce);
  }

  /** The signed values survive the trip exactly when every signed string is well-formed. */
  lemma FieldsSurvive(j: Job)
    ensures JobFields(Transcribed(j)) == JobFields(j) <==> TextOk(j) && ValidUtf8(j.approvedBy)
  {
    hide Transcoded, ValidUtf8, Rfc3339, TranscribedResult;
    var s, t := JobFields(j), JobFields(Transcribed(j));
    assert t == s <==> t[0] == s[0] && t[1] == s[1] && t[2] == s[2] && t[3] == s[3] && t[4] == s[4] && t[5] == s[5] && t[6] == s[6] && t[11] == s[11];
    TranscodedFixes(j.schemaVersion);
    TranscodedFixes(j.jobId);
    TranscodedFixes(j.correlationId);
    TranscodedFixes(j.tenant);
    TranscodedFixes(j.agentId);
    TranscodedFixes(j.typ);
    TranscodedFixes(j.nonce);
    TranscodedFixes(j.approvedBy);
  }

  /** The signed values after the trip depend on the signed values before it only. */
  lemma FieldsTranscribed(j: Job, a: Job)
    requires JobFields(j) == JobFields(a)
    ensures JobFields(Transcribed(j)) == JobFields(Transcribed(a))
  {
    hide Transcoded, Rfc3339, TranscribedResult;
    var s, t := JobFields(j), JobFields(a);
    assert s[0] == t[0] && s[1] == t[1] && s[2] == t[2] && s[3] == t[3] && s[4] == t[4] && s[5] == t[5] && s[6] == t[6];
    assert s[7] == t[7] && s[8] == t[8] && s[9] == t[9] && s[10] == t[10] && s[11] == t[11] && s[12] == t[12];
  }

  // ---- the response ----

  /** The agent reads at most this much of a response, and the server this much of a request. */
  const MAX_JOB_BYTES: nat := 1048576
  const MAX_BODY_BYTES: nat := 1048576

  /** How the encoder spells strings, times, signatures, states and results. */
  datatype Layout = Layout(
    quote: string -> string, stamp: Time -> string, sig: Signature -> string, state: JobState -> string, result: Result -> string)

  type Member = (string, string)

  function MemberText(m: Member): string {
    "\"" + m.0 + "\":" + m.1
  }

  function MembersText(ms: seq<Member>): string {
    if ms == [] then "" else if |ms| == 1 then MemberText(ms[0]) else MemberText(ms[0]) + "," + MembersText(ms[1..])
  }

  function FrontMembers(lay: Layout, j: Job): seq<Member> {
    [("schema_version", lay.quote(j.schemaVersion)), ("job_id", lay.quote(j.jobId)), ("correlation_id", lay.quote(j.correlationId)),
     ("tenant", lay.quote(j.tenant)), ("agent_id", lay.quote(j.agentId)), ("type", lay.quote(j.typ))]
  }

  function WindowMembers(lay: Layout, j: Job): seq<Member> {
    [("payload_sha256", lay.quote(j.payloadSha)), ("nonce", lay.quote(j.nonce)), ("state", lay.state(j.state)),
     ("issued_at", lay.stamp(j.issuedAt)), ("not_before", lay.stamp(j.notBefore)), ("not_after", lay.stamp(j.notAfter)),
     ("expires_at", lay.stamp(j.expiresAt))]
  }

  function BackMembers(lay: Layout, j: Job): seq<Member> {
    WindowMembers(lay, j)
    + (if j.approvedBy != "" then [("approved_by", lay.quote(j.approvedBy))] else [])
    + [("approved_at", lay.stamp(j.approvedAt))]
    + (if j.signature != Unsigned then [("signature", lay.sig(j.signature))] else [])
    + [("created_at", lay.stamp(j.createdAt)), ("delivered_at", lay.stamp(j.deliveredAt)), ("acked_at", lay.stamp(j.ackedAt))]
    + (if j.result.Some? then [("result", lay.result(j.result.value))] else [])
  }

  /** The object PollHandler writes for j. */
  function ResponseText(lay: Layout, j: Job): string {
    "{" + MembersText(FrontMembers(lay, j) + [("payload", HtmlEscape(j.payload))] + BackMembers(lay, j)) + "}"
  }

  /** What the agent decodes from it: nothing if the object does not end within the limit. */
  function Wire(lay: Layout, j: Job): Option<Order> {
    if |ResponseText(lay, j)| > MAX_JOB_BYTES then None
    else
      var t := Transcribed(j);
      Some(Order(t.schemaVersion, t.jobId, t.correlationId, t.tenant, t.agentId, t.typ, HtmlEscape(j.payload),
                 t.payloadSha, t.nonce, t.issuedAt, t.notBefore, t.notAfter, t.expiresAt, t.approvedBy, t.signature))
  }

  /** The agent re-derives the server's bytes from what it received exactly when every signed string is
      well-formed. */
  lemma RederivedBytesAgree(lay: Layout, j: Job)
    requires Wire(lay, j).Some?
    ensures Message(OrderFields(Wire(lay, j).value)) == Message(JobFields(j)) <==> TextOk(j) && ValidUtf8(j.approvedBy)
  {
    hide Transcoded, ValidUtf8, ResponseText, Message, HtmlEscape;
    assert OrderFields(Wire(lay, j).value) == JobFields(Transcribed(j));
    FieldsSurvive(j);
    MessageInjective(JobFields(Transcribed(j)), JobFields(j));
  }

  predicate Arrives(lay: Layout, j: Job) {
    Wire(lay, j).Some? && Verify(Wire(lay, j).value)
  }

  /** A job signed as a, and read back from the file or not since, arrives verifiable exactly when the
      payload holds no byte the response rewrites, the approver it was signed with is well-formed and the
      response is within the agent's limit. */
  lemma DeliveredVerifies(lay: Layout, j: Job, a: Job)
    requires j.signature == Sign(a) && j.payloadSha == Digest(j.payload) && TextOk(a)
    requires JobFields(j) == JobFields(a) || JobFields(j) == JobFields(Transcribed(a))
    ensures Arrives(lay, j) <==> WireSafe(j.payload) && ValidUtf8(a.approvedBy) && |ResponseText(lay, j)| <= MAX_JOB_BYTES
  {
    hide Transcoded, ValidUtf8, ResponseText, Message, HtmlEscape, WireSafe, Digest, TextOk;
    HtmlEscapeFixes(j.payload);
    FieldsSurvive(a);
    TranscribedTwice(a);
    if JobFields(j) == JobFields(a) { FieldsTranscribed(j, a); } else { FieldsTranscribed(j, Transcribed(a)); }
    if Wire(lay, j).Some? {
      var o := Wire(lay, j).value;
      assert OrderFields(o) == JobFields(Transcribed(j)) == JobFields(Transcribed(a));
      MessageInjective(OrderFields(o), JobFields(a));
      if Digest(o.payload) == Digest(j.payload) { DigestInjective(o.payload, j.payload); }
    }
  }

  // ---- the two limits ----

  /** The shortest request that asks for a payload. */
  function RequestText(payload: string): string {
    "{" + MembersText([("tenant", "\"t\""), ("agent_id", "\"a\""), ("type", "\"package_patch\""), ("payload", payload)]) + "}"
  }

  /** The length of the members, each with its quotes, colon and one comma. */
  function Weight(ms: seq<Member>): nat {
    if ms == [] then 0 else |ms[0].0| + |ms[0].1| + 4 + Weight(ms[1..])
  }

  lemma {:induction false} WeightIs(ms: seq<Member>)
    requires ms != []
    ensures |MembersText(ms)| == Weight(ms) - 1
    decreases |ms|
  {
    if |ms| > 1 { WeightIs(ms[1..]); } else { assert ms[1..] == []; }
  }

  lemma {:induction false} WeightSum(a: seq<Member>, b: seq<Member>)
    ensures Weight(a + b) == Weight(a) + Weight(b)
    decreases |a|
  {
    if a == [] {
      assert a + b == b;
    } else {
      WeightSum(a[1..], b);
      assert (a + b)[1..] == a[1..] + b;
    }
  }

  lemma OneWeighs(m: Member)
    ensures Weight([m]) == |m.0| + |m.1| + 4
  {
    assert [m][1..] == [];
  }

  lemma TwoWeigh(m: Member, n: Member, rest: seq<Member>)
    ensures Weight([m, n] + rest) == |m.0| + |m.1| + |n.0| + |n.1| + 8 + Weight(rest)
  {
    WeightSum([m, n], rest);
    assert [m, n] == [m] + [n];
    WeightSum([m], [n]);
    OneWeighs(m);
    OneWeighs(n);
  }

  lemma FrontWeighs(lay: Layout, j: Job)
    ensures Weight(FrontMembers(lay, j)) >= 76
  {
    hide Weight;
    var f := FrontMembers(lay, j);
    assert f == [f[0], f[1]] + f[2..] && f[2..] == [f[2], f[3]] + f[4..] && f[4..] == [f[4], f[5]] + [];
    TwoWeigh(f[0], f[1], f[2..]);
    TwoWeigh(f[2], f[3], f[4..]);
    TwoWeigh(f[4], f[5], []);
  }

  lemma WindowWeighs(lay: Layout, j: Job)
    ensures Weight(WindowMembers(lay, j)) >= 90
  {
    hide Weight;
    var head := WindowMembers(lay, j);
    assert head == [head[0], head[1]] + head[2..] && head[2..] == [head[2], head[3]] + head[4..] && head[4..] == [head[4], head[5]] + [head[6]];
    TwoWeigh(head[0], head[1], head[2..]);
    TwoWeigh(head[2], head[3], head[4..]);
    TwoWeigh(head[4], head[5], [head[6]]);
    OneWeighs(head[6]);
  }

  lemma BackWeighs(lay: Layout, j: Job)
    ensures Weight(BackMembers(lay, j)) >= 147
  {
    hide Weight, WindowMembers;
    var head := WindowMembers(lay, j);
    WindowWeighs(lay, j);
    var signer := if j.approvedBy != "" then [("approved_by", lay.quote(j.approvedBy))] else [];
    var moment := [("approved_at", lay.stamp(j.approvedAt))];
    var sig := if j.signature != Unsigned then [("signature", lay.sig(j.signature))] else [];
    var times := [("created_at", lay.stamp(j.createdAt)), ("delivered_at", lay.stamp(j.deliveredAt)), ("acked_at", lay.stamp(j.ackedAt))];
    var res := if j.result.Some? then [("result", lay.result(j.result.value))] else [];
    assert BackMembers(lay, j) == head + signer + moment + sig + times + res;
    WeightSum(head + signer + moment + sig + times, res);
    WeightSum(head + signer + moment + sig, times);
    WeightSum(head + signer + moment, sig);
    WeightSum(head + signer, moment);
    WeightSum(head, signer);
    OneWeighs(moment[0]);
    assert times == [times[0], times[1]] + [times[2]];
    TwoWeigh(times[0], times[1], [times[2]]);
    OneWeighs(times[2]);
  }

  /** A response is at least 235 bytes longer than its payload. */
  lemma ResponseOverhead(lay: Layout, j: Job)
    ensures |ResponseText(lay, j)| >= |j.payload| + 235
  {
    hide Weight, MembersText, FrontMembers, BackMembers, HtmlEscape;
    var p := [("payload", HtmlEscape(j.payload))];
    var front, back := FrontMembers(lay, j), BackMembers(lay, j);
    FrontWeighs(lay, j);
    BackWeighs(lay, j);
    WeightSum(front + p, back);
    WeightSum(front, p);
    OneWeighs(p[0]);
    assert front + p + back != [] by { assert (front + p + back)[|front|] == p[0]; }
    WeightIs(front + p + back);
  }

  lemma RequestOverhead(payload: string)
    ensures |RequestText(payload)| == |payload| + 63
  {
    hide Weight, MembersText;
    var ms := [("tenant", "\"t\""), ("agent_id", "\"a\""), ("type", "\"package_patch\""), ("payload", payload)];
    assert ms == [ms[0], ms[1]] + ms[2..] && ms[2..] == [ms[2], ms[3]] + [];
    TwoWeigh(ms[0], ms[1], ms[2..]);
    TwoWeigh(ms[2], ms[3], []);
    NoWeight();
    WeightIs(ms);
  }

  lemma NoWeight()
    ensures Weight([]) == 0
  {
  }

  /** The two limits are equal and the response is the longer of the two: a payload within 235 bytes of the
      limit is accepted and can never be delivered, whatever it holds. */
  lemma LongPayloadNeverArrives(lay: Layout, j: Job)
    requires 1_048_576 - 235 < |j.payload| <= 1_048_576 - 63
    ensures |RequestText(j.payload)| <= MAX_BODY_BYTES && !Arrives(lay, j)
  {
    hide ResponseText, RequestText;
    ResponseOverhead(lay, j);
    RequestOverhead(j.payload);
  }
}

/**
 * The strings that signatures and seals cover. A string is a sequence of characters, one per
 * unit of its length.
 */
module Statements {
  import opened Basics

  datatype AttestationFields = AttestationFields(
    groupId: string, deviceId: string, publicKey: string, signingPublicKey: string, signerDeviceId: string,
        issuedAt: nat)

  datatype DeleteFields = DeleteFields(
    groupId: string, messageId: string, senderDeviceId: string, keyEpoch: nat, deletesMessageId: string)

  datatype MessageFields = MessageFields(
    groupId: string, messageId: string, senderDeviceId: string, keyEpoch: nat,
    encryptedPayload: Option<string>, iv: Option<string>, fileR2Key: Option<string>,
    fileIv: Option<string>, fileMeta: Option<string>, fileMetaIv: Option<string>)

  datatype InviteFields = InviteFields(
    pairingId: string, deviceId: string, publicKey: string, signingPublicKey: string, sendOnly: bool)

  // ---------------------------------------------------------------------
  // Building
  // ---------------------------------------------------------------------

  function Digit(n: nat): char
    requires n < 10
  {
    ('0' as int + n) as char
  }

  function Decimal(n: nat): string {
    if n < 10 then [Digit(n)] else Decimal(n / 10) + [Digit(n % 10)]
  }

  function Join(parts: seq<string>): string {
    if parts == [] then ""
    else if |parts| == 1 then parts[0]
    else parts[0] + ":" + Join(parts[1..])
  }

  /** Absent is written differently from every value, the empty one included. */
  function Part(value: Option<string>): string {
    if value.None? then "-" else Decimal(|value.value|) + "." + value.value
  }

  function AttestationStatement(f: AttestationFields): string {
    Join(["fs-device-attestation:1", f.groupId, f.deviceId, f.publicKey, f.signingPublicKey, f.signerDeviceId,
        Decimal(f.issuedAt)])
  }

  function DeleteStatement(f: DeleteFields): string {
    Join(["fs-message-delete:1", f.groupId, f.messageId, f.senderDeviceId, Decimal(f.keyEpoch), f.deletesMessageId])
  }

  function MessageStatement(f: MessageFields): string {
    Join(["fs-message:1", f.groupId, f.messageId, f.senderDeviceId, Decimal(f.keyEpoch),
          Part(f.encryptedPayload), Part(f.iv), Part(f.fileR2Key), Part(f.fileIv), Part(f.fileMeta),
              Part(f.fileMetaIv)])
  }

  function InviteStatement(f: InviteFields): string {
    Join(["fs-pairing-invite:1", f.pairingId, f.deviceId, f.publicKey, f.signingPublicKey,
        if f.sendOnly then "send-only" else "full"])
  }

  // ---------------------------------------------------------------------
  // Reading back
  // ---------------------------------------------------------------------

  predicate Plain(s: string) {
    ':' !in s
  }

  function DigitValue(c: char): int {
    c as int - '0' as int
  }

  function Value(s: string): int {
    if s == "" then 0 else 10 * Value(s[..|s| - 1]) + DigitValue(s[|s| - 1])
  }

  lemma {:induction false} DecimalReads(n: nat)
    ensures Value(Decimal(n)) == n && Decimal(n) != ""
    ensures forall i :: 0 <= i < |Decimal(n)| ==> '0' <= Decimal(n)[i] <= '9'
  {
    if n < 10 {
      assert Decimal(n)[..0] == "";
    } else {
      DecimalReads(n / 10);
      assert Decimal(n)[..|Decimal(n)| - 1] == Decimal(n / 10);
    }
  }

  lemma DecimalPlain(n: nat)
    ensures Plain(Decimal(n))
  {
    DecimalReads(n);
  }

  lemma DecimalInjective(n: nat, m: nat)
    requires Decimal(n) == Decimal(m)
    ensures n == m
  {
    DecimalReads(n);
    DecimalReads(m);
  }

  lemma HeadNotShorter(a: string, x: string, b: string, y: string, separator: char)
    requires a + [separator] + x == b + [separator] + y && separator !in b
    ensures |b| <= |a|
  {
    var s, t := a + [separator] + x, b + [separator] + y;
    assert s[|a|] == separator && t[|b|] == separator;
    assert forall i :: 0 <= i < |b| ==> t[i] == b[i];
  }

  /** Text up to a separator it does not contain can be read off. */
  lemma HeadUnique(a: string, x: string, b: string, y: string, separator: char)
    requires a + [separator] + x == b + [separator] + y && separator !in a && separator !in b
    ensures a == b && x == y
  {
    var s, t := a + [separator] + x, b + [separator] + y;
    HeadNotShorter(a, x, b, y, separator);
    HeadNotShorter(b, y, a, x, separator);
    assert a == s[..|a|] && b == t[..|b|] && x == s[|a| + 1..] && y == t[|b| + 1..];
  }

  /** Only the last part of a join may contain the separator. */
  lemma {:induction false} JoinUnique(a: seq<string>, b: seq<string>)
    requires |a| == |b| && Join(a) == Join(b)
    requires forall i :: 0 <= i < |a| - 1 ==> Plain(a[i]) && Plain(b[i])
    ensures a == b
  {
    if |a| > 1 {
      HeadUnique(a[0], Join(a[1..]), b[0], Join(b[1..]), ':');
      JoinUnique(a[1..], b[1..]);
      assert a == [a[0]] + a[1..] && b == [b[0]] + b[1..];
    } else if |a| == 1 {
      assert a == [a[0]] && b == [b[0]];
    }
  }

  /** A length-prefixed part can be read off whatever it contains and whatever follows. */
  lemma PartUnique(v: Option<string>, x: string, w: Option<string>, y: string)
    requires Part(v) + x == Part(w) + y
    ensures v == w && x == y
  {
    if v.Some? {
      DecimalReads(|v.value|);
      assert (Part(v) + x)[0] == Decimal(|v.value|)[0];
    } else {
      assert (Part(v) + x)[0] == '-';
    }
    if w.Some? {
      DecimalReads(|w.value|);
      assert (Part(w) + y)[0] == Decimal(|w.value|)[0];
    } else {
      assert (Part(w) + y)[0] == '-';
    }
    if v.Some? && w.Some? {
      SameValue(v.value, x, w.value, y);
    } else if v.None? && w.None? {
      assert x == (Part(v) + x)[1..] && y == (Part(w) + y)[1..];
    }
  }

  lemma PartThen(v: string, x: string)
    ensures Part(Some(v)) + x == Decimal(|v|) + ['.'] + (v + x)
  {
  }

  lemma SplitAt(v: string, x: string, w: string, y: string)
    requires v + x == w + y && |v| == |w|
    ensures v == w && x == y
  {
    assert v == (v + x)[..|v|] && w == (w + y)[..|w|] && x == (v + x)[|v|..] && y == (w + y)[|w|..];
  }

  lemma SameValue(v: string, x: string, w: string, y: string)
    requires Part(Some(v)) + x == Part(Some(w)) + y
    ensures v == w && x == y
  {
    DecimalReads(|v|);
    DecimalReads(|w|);
    PartThen(v, x);
    PartThen(w, y);
    HeadUnique(Decimal(|v|), v + x, Decimal(|w|), w + y, '.');
    DecimalInjective(|v|, |w|);
    SplitAt(v, x, w, y);
  }

  lemma {:induction false} PartsUnique(a: seq<Option<string>>, b: seq<Option<string>>)
    requires |a| == |b| && Join(Parts(a)) == Join(Parts(b))
    ensures a == b
  {
    if |a| > 1 {
      assert Parts(a)[0] == Part(a[0]) && Parts(b)[0] == Part(b[0]);
      assert Parts(a)[1..] == Parts(a[1..]) && Parts(b)[1..] == Parts(b[1..]);
      assert Join(Parts(a)) == Part(a[0]) + (":" + Join(Parts(a[1..])));
      assert Join(Parts(b)) == Part(b[0]) + (":" + Join(Parts(b[1..])));
      PartUnique(a[0], ":" + Join(Parts(a[1..])), b[0], ":" + Join(Parts(b[1..])));
      assert (":" + Join(Parts(a[1..])))[1..] == Join(Parts(a[1..]))
          && (":" + Join(Parts(b[1..])))[1..] == Join(Parts(b[1..]));
      PartsUnique(a[1..], b[1..]);
      assert a == [a[0]] + a[1..] && b == [b[0]] + b[1..];
    } else if |a| == 1 {
      assert Join(Parts(a)) == Part(a[0]) + "" && Join(Parts(b)) == Part(b[0]) + "";
      PartUnique(a[0], "", b[0], "");
      assert a == [a[0]] && b == [b[0]];
    }
  }

  function Parts(values: seq<Option<string>>): seq<string> {
    if values == [] then [] else [Part(values[0])] + Parts(values[1..])
  }

  // ---------------------------------------------------------------------
  // One statement, one meaning
  // ---------------------------------------------------------------------

  /** An attestation vouches for exactly one set of fields. */
  lemma AttestationInjective(f: AttestationFields, g: AttestationFields)
    requires AttestationStatement(f) == AttestationStatement(g)
    requires Plain(f.groupId) && Plain(f.deviceId) && Plain(f.publicKey) && Plain(f.signingPublicKey)
    requires Plain(f.signerDeviceId)
    requires Plain(g.groupId) && Plain(g.deviceId) && Plain(g.publicKey) && Plain(g.signingPublicKey)
    requires Plain(g.signerDeviceId)
    ensures f == g
  {
    var a := [f.groupId, f.deviceId, f.publicKey, f.signingPublicKey, f.signerDeviceId, Decimal(f.issuedAt)];
    var b := [g.groupId, g.deviceId, g.publicKey, g.signingPublicKey, g.signerDeviceId, Decimal(g.issuedAt)];
    SameTag("fs-device-attestation:1", a, b);
    JoinUnique(a, b);
    assert a[0] == b[0] && a[1] == b[1] && a[2] == b[2] && a[3] == b[3] && a[4] == b[4] && a[5] == b[5];
    DecimalInjective(f.issuedAt, g.issuedAt);
  }

  lemma DeleteInjective(f: DeleteFields, g: DeleteFields)
    requires DeleteStatement(f) == DeleteStatement(g)
    requires Plain(f.groupId) && Plain(f.messageId) && Plain(f.senderDeviceId)
    requires Plain(g.groupId) && Plain(g.messageId) && Plain(g.senderDeviceId)
    ensures f == g
  {
    var a := [f.groupId, f.messageId, f.senderDeviceId, Decimal(f.keyEpoch), f.deletesMessageId];
    var b := [g.groupId, g.messageId, g.senderDeviceId, Decimal(g.keyEpoch), g.deletesMessageId];
    DecimalPlain(f.keyEpoch);
    DecimalPlain(g.keyEpoch);
    SameTag("fs-message-delete:1", a, b);
    JoinUnique(a, b);
    assert a[0] == b[0] && a[1] == b[1] && a[2] == b[2] && a[3] == b[3] && a[4] == b[4];
    DecimalInjective(f.keyEpoch, g.keyEpoch);
  }

  lemma InviteInjective(f: InviteFields, g: InviteFields)
    requires InviteStatement(f) == InviteStatement(g)
    requires Plain(f.pairingId) && Plain(f.deviceId) && Plain(f.publicKey) && Plain(f.signingPublicKey)
    requires Plain(g.pairingId) && Plain(g.deviceId) && Plain(g.publicKey) && Plain(g.signingPublicKey)
    ensures f == g
  {
    var a := [f.pairingId, f.deviceId, f.publicKey, f.signingPublicKey, if f.sendOnly then "send-only" else "full"];
    var b := [g.pairingId, g.deviceId, g.publicKey, g.signingPublicKey, if g.sendOnly then "send-only" else "full"];
    SameTag("fs-pairing-invite:1", a, b);
    JoinUnique(a, b);
    assert a[0] == b[0] && a[1] == b[1] && a[2] == b[2] && a[3] == b[3] && a[4] == b[4];
    assert "send-only"[0] != "full"[0];
  }

  /** A message's signature covers every field, whatever characters its ciphertexts contain. */
  lemma MessageInjective(f: MessageFields, g: MessageFields)
    requires MessageStatement(f) == MessageStatement(g)
    requires Plain(f.groupId) && Plain(f.messageId) && Plain(f.senderDeviceId)
    requires Plain(g.groupId) && Plain(g.messageId) && Plain(g.senderDeviceId)
    ensures f == g
  {
    var a := [f.encryptedPayload, f.iv, f.fileR2Key, f.fileIv, f.fileMeta, f.fileMetaIv];
    var b := [g.encryptedPayload, g.iv, g.fileR2Key, g.fileIv, g.fileMeta, g.fileMetaIv];
    var headsA := [f.groupId, f.messageId, f.senderDeviceId, Decimal(f.keyEpoch)];
    var headsB := [g.groupId, g.messageId, g.senderDeviceId, Decimal(g.keyEpoch)];
    MessageLayout(f);
    MessageLayout(g);
    DecimalPlain(f.keyEpoch);
    DecimalPlain(g.keyEpoch);
    SameTag("fs-message:1", headsA + Parts(a), headsB + Parts(b));
    PartsLength(a);
    PartsLength(b);
    HeadsUnique(headsA, Parts(a), headsB, Parts(b));
    PartsUnique(a, b);
    assert headsA[0] == headsB[0] && headsA[1] == headsB[1] && headsA[2] == headsB[2] && headsA[3] == headsB[3];
    DecimalInjective(f.keyEpoch, g.keyEpoch);
    assert a[0] == b[0] && a[1] == b[1] && a[2] == b[2] && a[3] == b[3] && a[4] == b[4] && a[5] == b[5];
  }

  lemma MessageLayout(f: MessageFields)
    ensures MessageStatement(f) == Join(["fs-message:1"] + (
              [f.groupId, f.messageId, f.senderDeviceId, Decimal(f.keyEpoch)]
              + Parts([f.encryptedPayload, f.iv, f.fileR2Key, f.fileIv, f.fileMeta, f.fileMetaIv])))
  {
    var v := [f.encryptedPayload, f.iv, f.fileR2Key, f.fileIv, f.fileMeta, f.fileMetaIv];
    SixParts(v);
    assert ["fs-message:1"] + ([f.groupId, f.messageId, f.senderDeviceId, Decimal(f.keyEpoch)] + Parts(v))
        == ["fs-message:1", f.groupId, f.messageId, f.senderDeviceId, Decimal(f.keyEpoch),
            Part(f.encryptedPayload), Part(f.iv), Part(f.fileR2Key), Part(f.fileIv), Part(f.fileMeta),
                Part(f.fileMetaIv)];
  }

  /** Plain leading parts can be read off a join, whatever the rest contains. */
  lemma {:induction false} HeadsUnique(a: seq<string>, x: seq<string>, b: seq<string>, y: seq<string>)
    requires |a| == |b| && x != [] && y != [] && Join(a + x) == Join(b + y)
    requires forall i :: 0 <= i < |a| ==> Plain(a[i]) && Plain(b[i])
    ensures a == b && Join(x) == Join(y)
  {
    if a == [] {
      assert a + x == x && b + y == y;
    } else {
      assert a + x == [a[0]] + (a[1..] + x) && b + y == [b[0]] + (b[1..] + y);
      JoinCons(a[0], a[1..] + x);
      JoinCons(b[0], b[1..] + y);
      HeadUnique(a[0], Join(a[1..] + x), b[0], Join(b[1..] + y), ':');
      HeadsUnique(a[1..], x, b[1..], y);
      assert a == [a[0]] + a[1..] && b == [b[0]] + b[1..];
    }
  }

  lemma SixParts(v: seq<Option<string>>)
    requires |v| == 6
    ensures Parts(v) == [Part(v[0]), Part(v[1]), Part(v[2]), Part(v[3]), Part(v[4]), Part(v[5])]
  {
    PartsAt(v, 0);
    PartsAt(v, 1);
    PartsAt(v, 2);
    PartsAt(v, 3);
    PartsAt(v, 4);
    PartsAt(v, 5);
  }

  lemma {:induction false} PartsAt(v: seq<Option<string>>, i: nat)
    requires i < |v|
    ensures |Parts(v)| == |v| && Parts(v)[i] == Part(v[i])
  {
    if i == 0 {
      PartsLength(v);
    } else {
      PartsAt(v[1..], i - 1);
    }
  }

  lemma PartsLength(v: seq<Option<string>>)
    ensures |Parts(v)| == |v|
  {
  }

  lemma JoinCons(head: string, rest: seq<string>)
    requires rest != []
    ensures Join([head] + rest) == head + ":" + Join(rest)
  {
    assert ([head] + rest)[1..] == rest;
  }

  lemma SameTag(tag: string, a: seq<string>, b: seq<string>)
    requires a != [] && b != [] && Join([tag] + a) == Join([tag] + b)
    ensures Join(a) == Join(b)
  {
    JoinCons(tag, a);
    JoinCons(tag, b);
    assert Join(a) == (tag + ":" + Join(a))[|tag| + 1..];
    assert Join(b) == (tag + ":" + Join(b))[|tag| + 1..];
  }

  // ---------------------------------------------------------------------
  // No statement of one kind is one of another
  // ---------------------------------------------------------------------

  datatype Statement =
    | Attestation(attestation: AttestationFields)
    | Delete(delete: DeleteFields)
    | Message(message: MessageFields)
    | Invite(invite: InviteFields)

  function Text(s: Statement): string {
    match s
    case Attestation(f) => AttestationStatement(f)
    case Delete(f) => DeleteStatement(f)
    case Message(f) => MessageStatement(f)
    case Invite(f) => InviteStatement(f)
  }

  function Tag(s: Statement): string {
    match s
    case Attestation(_) => "fs-device-attestation"
    case Delete(_) => "fs-message-delete"
    case Message(_) => "fs-message"
    case Invite(_) => "fs-pairing-invite"
  }

  lemma TagAndVersion(tag: string, parts: seq<string>)
    requires parts != []
    ensures Join([tag + ":1"] + parts) == tag + [':'] + ("1:" + Join(parts))
  {
    JoinCons(tag + ":1", parts);
  }

  function Fields(s: Statement): seq<string> {
    match s
    case Attestation(f) => [f.groupId, f.deviceId, f.publicKey, f.signingPublicKey, f.signerDeviceId,
        Decimal(f.issuedAt)]
    case Delete(f) => [f.groupId, f.messageId, f.senderDeviceId, Decimal(f.keyEpoch), f.deletesMessageId]
    case Message(f) =>
      [f.groupId, f.messageId, f.senderDeviceId, Decimal(f.keyEpoch),
       Part(f.encryptedPayload), Part(f.iv), Part(f.fileR2Key), Part(f.fileIv), Part(f.fileMeta), Part(f.fileMetaIv)]
    case Invite(f) => [f.pairingId, f.deviceId, f.publicKey, f.signingPublicKey, if f.sendOnly then "send-only"
        else "full"]
  }

  lemma TextIsTagged(s: Statement)
    ensures Text(s) == Join([Tag(s) + ":1"] + Fields(s))
  {
    match s
    case Attestation(f) => assert "fs-device-attestation" + ":1" == "fs-device-attestation:1";
    case Delete(f) => assert "fs-message-delete" + ":1" == "fs-message-delete:1";
    case Message(f) => assert "fs-message" + ":1" == "fs-message:1";
    case Invite(f) => assert "fs-pairing-invite" + ":1" == "fs-pairing-invite:1";
  }

  lemma TagsPlain(s: Statement)
    ensures Plain(Tag(s))
  {
  }

  /** Whatever the fields hold, a statement of one kind never equals one of another. */
  lemma KindsNeverCoincide(s: Statement, t: Statement)
    requires Text(s) == Text(t)
    ensures s.Attestation? == t.Attestation? && s.Delete? == t.Delete? && s.Message? == t.Message?
    ensures s.Invite? == t.Invite?
  {
    TextIsTagged(s);
    TextIsTagged(t);
    TagAndVersion(Tag(s), Fields(s));
    TagAndVersion(Tag(t), Fields(t));
    TagsPlain(s);
    TagsPlain(t);
    HeadUnique(Tag(s), "1:" + Join(Fields(s)), Tag(t), "1:" + Join(Fields(t)), ':');
    assert "fs-message-delete"[3] != "fs-pairing-invite"[3];
  }

  /** No id or key field holds the separator. Ciphertexts, numbers and a last field are free to. */
  predicate PlainIds(s: Statement) {
    match s
    case Attestation(f) => Plain(f.groupId) && Plain(f.deviceId) && Plain(f.publicKey) && Plain(f.signingPublicKey)
        && Plain(f.signerDeviceId)
    case Delete(f) => Plain(f.groupId) && Plain(f.messageId) && Plain(f.senderDeviceId)
    case Message(f) => Plain(f.groupId) && Plain(f.messageId) && Plain(f.senderDeviceId)
    case Invite(f) => Plain(f.pairingId) && Plain(f.deviceId) && Plain(f.publicKey) && Plain(f.signingPublicKey)
  }

  /** What was signed is what is read: one text, one statement, of one kind. */
  lemma OneTextOneStatement(s: Statement, t: Statement)
    requires Text(s) == Text(t) && PlainIds(s) && PlainIds(t)
    ensures s == t
  {
    KindsNeverCoincide(s, t);
    match s
    case Attestation(f) => AttestationInjective(f, t.attestation);
    case Delete(f) => DeleteInjective(f, t.delete);
    case Message(f) => MessageInjective(f, t.message);
    case Invite(f) => InviteInjective(f, t.invite);
  }

  /** Why ids must not contain the separator: two different attestations with one statement. */
  lemma SeparatorInIdCollides() returns (f: AttestationFields, g: AttestationFields)
    ensures f != g && AttestationStatement(f) == AttestationStatement(g)
  {
    f := AttestationFields("a:b", "c", "p", "s", "d", 1);
    g := AttestationFields("a", "b:c", "p", "s", "d", 1);
    var rest := ["p", "s", "d", Decimal(1)];
    JoinCons("c", rest);
    JoinCons("b:c", rest);
    JoinCons("a:b", ["c"] + rest);
    JoinCons("a", ["b:c"] + rest);
    JoinCons("fs-device-attestation:1", ["a:b"] + (["c"] + rest));
    JoinCons("fs-device-attestation:1", ["a"] + (["b:c"] + rest));
    assert "a:b" + ":" + ("c" + ":" + Join(rest)) == "a" + ":" + ("b:c" + ":" + Join(rest));
    assert ["fs-device-attestation:1"] + (["a:b"] + (["c"] + rest)) == ["fs-device-attestation:1", "a:b", "c", "p",
        "s", "d", Decimal(1)];
    assert ["fs-device-attestation:1"] + (["a"] + (["b:c"] + rest)) == ["fs-device-attestation:1", "a", "b:c", "p",
        "s", "d", Decimal(1)];
  }
}

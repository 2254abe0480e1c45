/** The server name in a TLS ClientHello: the hand-written parser against an encoder that
    follows section 4.1.2 of RFC 8446 and section 3 of RFC 6066. */
module Sni {
  import opened Options

  type Byte = b: int | 0 <= b < 256

  // ---- The parser ----

  function U16(s: seq<Byte>, i: nat): (r: int)
    requires i + 1 < |s|
    ensures 0 <= r < 0x1_0000
  {
    s[i] as int * 256 + s[i + 1] as int
  }

  /** The name in the data of a server_name extension, which starts at `offset`. */
  function NameAt(hs: seq<Byte>, offset: nat, dataLen: nat): Option<seq<Byte>>
    requires offset + dataLen <= |hs|
  {
    if dataLen < 5 then None
    else
      var listLen := U16(hs, offset);
      if listLen > dataLen - 2 || listLen < 3 then None
      else
        var nameLen := U16(hs, offset + 3);
        if hs[offset + 2] == 0 && nameLen > 0 && offset + 5 + nameLen <= |hs|
        then Some(hs[offset + 5..offset + 5 + nameLen])
        else None
  }

  /** The scan of the extensions from `offset` up to `end`. */
  function Scan(hs: seq<Byte>, offset: nat, end: nat): Option<seq<Byte>>
    requires end <= |hs|
    decreases end - offset
  {
    if offset + 4 > end then None
    else
      var dataLen := U16(hs, offset + 2);
      if offset + 4 + dataLen > end then None
      else if U16(hs, offset) == 0 then NameAt(hs, offset + 4, dataLen)
      else Scan(hs, offset + 4 + dataLen, end)
  }

  /** Past a vector with a one-byte length, if its length byte is there. */
  function Skip8(hs: seq<Byte>, offset: nat): Option<nat> {
    if offset + 1 > |hs| then None else Some(offset + 1 + hs[offset])
  }

  function Skip16(hs: seq<Byte>, offset: nat): Option<nat> {
    if offset + 2 > |hs| then None else Some(offset + 2 + U16(hs, offset))
  }

  /** From the handshake message on: session ID, cipher suites, compression methods, and
      then the extensions. */
  function NameInHandshake(hs: seq<Byte>): Option<seq<Byte>>
    requires |hs| >= 38
  {
    var ciphers := Skip8(hs, 38);
    var compression := if ciphers.Some? then Skip16(hs, ciphers.value) else None;
    var extensions := if compression.Some? then Skip8(hs, compression.value) else None;
    if extensions.None? then None else NameInBlock(hs, extensions.value)
  }

  /** From the total length of the extensions on. */
  function NameInBlock(hs: seq<Byte>, i: nat): Option<seq<Byte>> {
    if i + 2 > |hs| then None
    else
      var end := i + 2 + U16(hs, i);
      Scan(hs, i + 2, if end > |hs| then |hs| else end)
  }

  function SniOf(payload: seq<Byte>): Option<seq<Byte>> {
    if |payload| < 43 || payload[0] != 0x16 || 5 + U16(payload, 3) > |payload| || payload[5] != 0x01 then None
    else NameInHandshake(payload[5..])
  }

  /** The program's parser, every index in bounds on every input. */
  method ExtractTlsSni(payload: seq<Byte>) returns (sni: Option<seq<Byte>>)
    ensures sni == SniOf(payload)
  {
    sni := None;
    if |payload| < 43 || payload[0] != 0x16 {
      return;
    }
    var recordLen := U16(payload, 3);
    if 5 + recordLen > |payload| {
      return;
    }
    var hs := payload[5..];
    if |hs| < 38 || hs[0] != 0x01 {
      return;
    }
    var offset := 38;
    if offset >= |hs| {
      return;
    }
    offset := offset + 1 + hs[offset];
    if offset + 2 > |hs| {
      return;
    }
    offset := offset + 2 + U16(hs, offset);
    if offset + 1 > |hs| {
      return;
    }
    offset := offset + 1 + hs[offset];
    if offset + 2 > |hs| {
      return;
    }
    var extLen := U16(hs, offset);
    offset := offset + 2;
    var end := offset + extLen;
    if end > |hs| {
      end := |hs|;
    }
    sni := ScanExtensions(hs, offset, end);
  }

  method ScanExtensions(hs: seq<Byte>, start: nat, end: nat) returns (sni: Option<seq<Byte>>)
    requires end <= |hs|
    ensures sni == Scan(hs, start, end)
  {
    sni := None;
    var offset := start;
    while offset + 4 <= end
      invariant Scan(hs, offset, end) == Scan(hs, start, end)
    {
      var extType := U16(hs, offset);
      var extDataLen := U16(hs, offset + 2);
      offset := offset + 4;
      if offset + extDataLen > end {
        break;
      }
      if extType == 0 {
        if extDataLen >= 5 {
          var snListLen := U16(hs, offset);
          if snListLen <= extDataLen - 2 && snListLen >= 3 {
            var nameType, nameLen := hs[offset + 2], U16(hs, offset + 3);
            if nameType == 0 && nameLen > 0 && offset + 5 + nameLen <= |hs| {
              sni := Some(hs[offset + 5..offset + 5 + nameLen]);
            }
          }
        }
        return;
      }
      offset := offset + extDataLen;
    }
  }

  // ---- Any bytes ----

  /** A name is only ever taken from a server_name extension: before it stand its length and the
      kind of host names, before these the length of the list, which fits the extension, and
      before that the extension's length and kind. */
  ghost predicate NameStands(hs: seq<Byte>, i: nat, name: seq<Byte>) {
    && 9 <= i && i + |name| <= |hs| && hs[i..i + |name|] == name && |name| > 0
    && U16(hs, i - 2) == |name| && hs[i - 3] == 0
    && 3 <= U16(hs, i - 5) <= U16(hs, i - 7) - 2
    && U16(hs, i - 9) == 0 && i - 5 + U16(hs, i - 7) <= |hs|
  }

  lemma {:induction false} ScannedStands(hs: seq<Byte>, offset: nat, end: nat) returns (i: nat)
    requires end <= |hs| && Scan(hs, offset, end).Some?
    ensures offset <= i && NameStands(hs, i, Scan(hs, offset, end).value)
    decreases end - offset
  {
    if U16(hs, offset) == 0 {
      i := offset + 9;
    } else {
      i := ScannedStands(hs, offset + 4 + U16(hs, offset + 2), end);
    }
  }

  /** Whatever the bytes: if a name is found it stands there, in a handshake record that starts
      with a ClientHello and is complete. */
  lemma FoundNameStands(payload: seq<Byte>) returns (i: nat)
    requires SniOf(payload).Some?
    ensures |payload| >= 43 && payload[0] == 0x16 && payload[5] == 0x01 && 5 + U16(payload, 3) <= |payload|
    ensures NameStands(payload[5..], i, SniOf(payload).value)
  {
    var hs := payload[5..];
    var extensions := Skip8(hs, Skip16(hs, Skip8(hs, 38).value).value).value;
    var end := extensions + 2 + U16(hs, extensions);
    i := ScannedStands(hs, extensions + 2, if end > |hs| then |hs| else end);
  }

  // ---- The messages ----

  /** An entry of a server name list: kind 0 is a host name. */
  datatype ServerName = ServerName(kind: Byte, name: seq<Byte>)

  datatype Extension = ServerNames(entries: seq<ServerName>) | OtherExtension(kind: nat, data: seq<Byte>)

  datatype ClientHello = ClientHello(version: seq<Byte>, random: seq<Byte>, session: seq<Byte>,
                                     ciphers: seq<Byte>, compression: seq<Byte>, extensions: seq<Extension>)

  function Bytes2(n: int): seq<Byte>
    requires 0 <= n < 0x1_0000
  {
    [n / 256, n % 256]
  }

  /** A vector with its length in one byte, or in two, and what follows it. */
  function Vector8(body: seq<Byte>, rest: seq<Byte>): seq<Byte>
    requires |body| < 256
  {
    [|body|] + (body + rest)
  }

  function Vector16(body: seq<Byte>, rest: seq<Byte>): seq<Byte>
    requires |body| < 0x1_0000
  {
    Bytes2(|body|) + (body + rest)
  }

  function Entries(entries: seq<ServerName>): seq<Byte>
    requires forall i :: 0 <= i < |entries| ==> |entries[i].name| < 0x1_0000
  {
    if entries == [] then [] else [entries[0].kind] + Vector16(entries[0].name, Entries(entries[1..]))
  }

  /** A server name list is not empty, and fits its length field. */
  predicate ExtensionOk(e: Extension) {
    match e
    case ServerNames(entries) =>
      && entries != [] && (forall i :: 0 <= i < |entries| ==> |entries[i].name| < 0x1_0000)
      && |Entries(entries)| < 0x1_0000 - 2
    case OtherExtension(kind, data) => 0 < kind < 0x1_0000 && |data| < 0x1_0000
  }

  predicate ExtensionsOk(exts: seq<Extension>) {
    forall i :: 0 <= i < |exts| ==> ExtensionOk(exts[i])
  }

  function Kind(e: Extension): int {
    match e case ServerNames(_) => 0 case OtherExtension(kind, _) => kind
  }

  function Data(e: Extension): seq<Byte>
    requires ExtensionOk(e)
  {
    match e case ServerNames(entries) => Vector16(Entries(entries), []) case OtherExtension(_, data) => data
  }

  function Extensions(exts: seq<Extension>, rest: seq<Byte>): seq<Byte>
    requires ExtensionsOk(exts)
  {
    if exts == [] then rest
    else Bytes2(Kind(exts[0])) + Vector16(Data(exts[0]), Extensions(exts[1..], rest))
  }

  predicate FieldsOk(h: ClientHello) {
    && |h.version| == 2 && |h.random| == 32 && |h.session| < 256 && |h.ciphers| < 0x1_0000 && |h.compression| < 256
    && ExtensionsOk(h.extensions) && |Extensions(h.extensions, [])| < 0x1_0000
  }

  /** All that follows the client random, and what follows the message. */
  function Body(h: ClientHello, rest: seq<Byte>): seq<Byte>
    requires FieldsOk(h)
  {
    Vector8(h.session, Vector16(h.ciphers, Vector8(h.compression, ExtensionBlock(h, rest))))
  }

  function ExtensionBlock(h: ClientHello, rest: seq<Byte>): seq<Byte>
    requires FieldsOk(h)
  {
    Bytes2(|Extensions(h.extensions, [])|) + Extensions(h.extensions, rest)
  }

  /** Every length is what its length field can say; the message fits one record. */
  predicate WellFormed(h: ClientHello) {
    FieldsOk(h) && 38 + |Body(h, [])| < 0x1_0000
  }

  /** The handshake message, and what follows it. */
  function Handshake(h: ClientHello, rest: seq<Byte>): seq<Byte>
    requires WellFormed(h)
  {
    [0x01, 0x00] + (Bytes2(34 + |Body(h, [])|) + (h.version + (h.random + Body(h, rest))))
  }

  /** One handshake record, and what follows it. */
  function Record(h: ClientHello, major: Byte, minor: Byte, rest: seq<Byte>): seq<Byte>
    requires WellFormed(h)
  {
    [0x16, major, minor] + (Bytes2(|Handshake(h, [])|) + Handshake(h, rest))
  }

  // ---- The round trip ----

  /** What follows a message really just follows it. */
  lemma {:induction false} ExtensionsThenRest(exts: seq<Extension>, rest: seq<Byte>)
    requires ExtensionsOk(exts)
    ensures Extensions(exts, rest) == Extensions(exts, []) + rest
  {
    if exts != [] {
      var later := Extensions(exts[1..], []);
      ExtensionsThenRest(exts[1..], rest);
      Vector16Rest(Data(exts[0]), later, rest);
      Joined(Bytes2(Kind(exts[0])), Vector16(Data(exts[0]), later), rest);
    }
  }

  lemma BodyRest(h: ClientHello, rest: seq<Byte>)
    requires FieldsOk(h)
    ensures Body(h, rest) == Body(h, []) + rest
  {
    ExtensionsThenRest(h.extensions, rest);
    var block := ExtensionBlock(h, []);
    assert ExtensionBlock(h, rest) == block + rest;
    Vector8Rest(h.compression, block, rest);
    Vector16Rest(h.ciphers, Vector8(h.compression, block), rest);
    Vector8Rest(h.session, Vector16(h.ciphers, Vector8(h.compression, block)), rest);
  }

  lemma Joined(a: seq<Byte>, b: seq<Byte>, c: seq<Byte>)
    ensures a + (b + c) == a + b + c
  {}

  lemma RestFollows(h: ClientHello, major: Byte, minor: Byte, rest: seq<Byte>)
    requires WellFormed(h)
    ensures Record(h, major, minor, rest) == Record(h, major, minor, []) + rest
  {
    BodyRest(h, rest);
    var body, size := Body(h, []), Bytes2(34 + |Body(h, [])|);
    Joined(h.random, body, rest);
    Joined(h.version, h.random + body, rest);
    Joined(size, h.version + (h.random + body), rest);
    Joined([0x01, 0x00], size + (h.version + (h.random + body)), rest);
    Joined(Bytes2(|Handshake(h, [])|), Handshake(h, []), rest);
    Joined([0x16, major, minor], Bytes2(|Handshake(h, [])|) + Handshake(h, []), rest);
  }

  lemma Vector8Rest(body: seq<Byte>, middle: seq<Byte>, rest: seq<Byte>)
    requires |body| < 256
    ensures Vector8(body, middle + rest) == Vector8(body, middle) + rest
  {}

  lemma Vector16Rest(body: seq<Byte>, middle: seq<Byte>, rest: seq<Byte>)
    requires |body| < 0x1_0000
    ensures Vector16(body, middle + rest) == Vector16(body, middle) + rest
  {}

  lemma ReadBytes2(s: seq<Byte>, i: nat, n: int, rest: seq<Byte>)
    requires 0 <= n < 0x1_0000 && i <= |s| && s[i..] == Bytes2(n) + rest
    ensures i + 2 <= |s| && U16(s, i) == n && s[i + 2..] == rest
  {
    assert s[i] == s[i..][0] && s[i + 1] == s[i..][1];
    assert s[i + 2..] == s[i..][2..];
  }

  /** The body of a vector, and what comes after it. */
  lemma ReadBody16(s: seq<Byte>, i: nat, body: seq<Byte>, rest: seq<Byte>)
    requires |body| < 0x1_0000 && i <= |s| && s[i..] == Vector16(body, rest)
    ensures i + 2 + |body| <= |s| && U16(s, i) == |body|
    ensures s[i + 2..] == body + rest && s[i + 2..i + 2 + |body|] == body
  {
    ReadBytes2(s, i, |body|, body + rest);
    assert s[i + 2..][..|body|] == body;
  }

  lemma ReadVector16(s: seq<Byte>, i: nat, body: seq<Byte>, rest: seq<Byte>)
    requires |body| < 0x1_0000 && i <= |s| && s[i..] == Vector16(body, rest)
    ensures i + 2 + |body| <= |s| && U16(s, i) == |body| && Skip16(s, i) == Some(i + 2 + |body|)
    ensures s[i + 2 + |body|..] == rest
  {
    ReadBytes2(s, i, |body|, body + rest);
    assert s[i + 2..][|body|..] == rest;
  }

  lemma ReadVector8(s: seq<Byte>, i: nat, body: seq<Byte>, rest: seq<Byte>)
    requires |body| < 256 && i <= |s| && s[i..] == Vector8(body, rest)
    ensures i + 1 + |body| <= |s| && Skip8(s, i) == Some(i + 1 + |body|)
    ensures s[i + 1 + |body|..] == rest
  {
    assert s[i] == s[i..][0];
    assert s[i..][1..] == body + rest;
    assert s[i + 1..] == s[i..][1..];
    assert s[i + 1..][|body|..] == rest;
  }

  function FirstName(e: Extension): Option<seq<Byte>>
    requires ExtensionOk(e) && e.ServerNames?
  {
    if e.entries[0].kind == 0 && e.entries[0].name != [] then Some(e.entries[0].name) else None
  }

  /** What the message says: the first server name of the first list, if it is a host name
      and not empty. */
  function Named(exts: seq<Extension>): Option<seq<Byte>>
    requires ExtensionsOk(exts)
  {
    if exts == [] then None else if exts[0].OtherExtension? then Named(exts[1..]) else FirstName(exts[0])
  }

  lemma ReadEntry(hs: seq<Byte>, i: nat, kind: Byte, name: seq<Byte>, more: seq<Byte>)
    requires |name| < 0x1_0000 && i <= |hs| && hs[i..] == [kind] + Vector16(name, more)
    ensures i + 3 + |name| <= |hs| && hs[i] == kind && U16(hs, i + 1) == |name|
    ensures hs[i + 3..i + 3 + |name|] == name
  {
    assert hs[i] == hs[i..][0];
    assert hs[i + 1..] == hs[i..][1..];
    ReadBody16(hs, i + 1, name, more);
  }

  lemma FirstEntry(entries: seq<ServerName>, rest: seq<Byte>)
    requires entries != [] && forall i :: 0 <= i < |entries| ==> |entries[i].name| < 0x1_0000
    ensures Entries(entries) + rest == [entries[0].kind] + Vector16(entries[0].name, Entries(entries[1..]) + rest)
    ensures |Entries(entries)| >= 3 + |entries[0].name|
  {
    Vector16Rest(entries[0].name, Entries(entries[1..]), rest);
  }

  lemma VectorThenRest(body: seq<Byte>, rest: seq<Byte>)
    requires |body| < 0x1_0000
    ensures Vector16(body, []) + rest == Vector16(body, rest)
    ensures |Vector16(body, [])| == 2 + |body|
  {
    Vector16Rest(body, [], rest);
    assert [] + rest == rest;
  }

  /** A list that is exactly as long as the data says, and begins with a whole entry. */
  lemma NameAtIs(hs: seq<Byte>, offset: nat, dataLen: nat, name: ServerName)
    requires 5 + |name.name| <= dataLen && offset + dataLen <= |hs|
    requires U16(hs, offset) == dataLen - 2 && hs[offset + 2] == name.kind && U16(hs, offset + 3) == |name.name|
    requires hs[offset + 5..offset + 5 + |name.name|] == name.name
    ensures NameAt(hs, offset, dataLen) == if name.kind == 0 && name.name != [] then Some(name.name) else None
  {}

  lemma ReadName(hs: seq<Byte>, offset: nat, e: Extension, rest: seq<Byte>)
    requires ExtensionOk(e) && e.ServerNames? && offset <= |hs| && hs[offset..] == Data(e) + rest
    ensures offset + |Data(e)| <= |hs|
    ensures NameAt(hs, offset, |Data(e)|) == FirstName(e)
  {
    var entries := e.entries;
    VectorThenRest(Entries(entries), rest);
    ReadBody16(hs, offset, Entries(entries), rest);
    FirstEntry(entries, rest);
    ReadEntry(hs, offset + 2, entries[0].kind, entries[0].name, Entries(entries[1..]) + rest);
    NameAtIs(hs, offset, |Data(e)|, entries[0]);
  }

  lemma {:induction false} ExtensionsLength(exts: seq<Extension>, rest: seq<Byte>)
    requires ExtensionsOk(exts)
    ensures |Extensions(exts, rest)| == |Extensions(exts, [])| + |rest|
  {
    if exts != [] {
      ExtensionsLength(exts[1..], rest);
    }
  }

  lemma ReadExtension(hs: seq<Byte>, offset: nat, e: Extension, tail: seq<Byte>)
    requires ExtensionOk(e) && offset <= |hs| && hs[offset..] == Bytes2(Kind(e)) + Vector16(Data(e), tail)
    ensures offset + 4 + |Data(e)| == |hs| - |tail| && hs[offset + 4 + |Data(e)|..] == tail
    ensures U16(hs, offset) == Kind(e) && U16(hs, offset + 2) == |Data(e)|
  {
    ReadBytes2(hs, offset, Kind(e), Vector16(Data(e), tail));
    ReadVector16(hs, offset + 2, Data(e), tail);
  }

  lemma ReadNames(hs: seq<Byte>, offset: nat, e: Extension, tail: seq<Byte>)
    requires ExtensionOk(e) && e.ServerNames?
    requires offset <= |hs| && hs[offset..] == Bytes2(Kind(e)) + Vector16(Data(e), tail)
    ensures offset + 4 + |Data(e)| <= |hs| && NameAt(hs, offset + 4, |Data(e)|) == FirstName(e)
  {
    ReadBytes2(hs, offset, Kind(e), Vector16(Data(e), tail));
    ReadBody16(hs, offset + 2, Data(e), tail);
    ReadName(hs, offset + 4, e, tail);
  }

  /** An extension as the parser reads it. */
  predicate ExtensionAt(hs: seq<Byte>, offset: nat, next: nat, e: Extension)
    requires ExtensionOk(e) && next <= |hs|
  {
    && next == offset + 4 + |Data(e)|
    && U16(hs, offset) == Kind(e) && U16(hs, offset + 2) == |Data(e)|
    && (e.ServerNames? ==> NameAt(hs, offset + 4, |Data(e)|) == FirstName(e))
  }

  /** The extensions lie in the message from `offset` up to `end`, one after the other. */
  ghost predicate Laid(hs: seq<Byte>, offset: nat, end: nat, exts: seq<Extension>)
    requires ExtensionsOk(exts) && end <= |hs|
    decreases exts
  {
    if exts == [] then offset == end
    else
      var next := offset + 4 + |Data(exts[0])|;
      next <= end && ExtensionAt(hs, offset, next, exts[0]) && Laid(hs, next, end, exts[1..])
  }

  lemma EncodedStep(hs: seq<Byte>, offset: nat, exts: seq<Extension>, rest: seq<Byte>) returns (next: nat)
    requires ExtensionsOk(exts) && exts != [] && offset <= |hs| && hs[offset..] == Extensions(exts, rest)
    ensures next + |rest| <= |hs| && ExtensionAt(hs, offset, next, exts[0])
    ensures hs[next..] == Extensions(exts[1..], rest)
  {
    var tail := Extensions(exts[1..], rest);
    next := offset + 4 + |Data(exts[0])|;
    ReadExtension(hs, offset, exts[0], tail);
    if exts[0].ServerNames? {
      ReadNames(hs, offset, exts[0], tail);
    }
    ExtensionsLength(exts[1..], rest);
  }

  lemma {:induction false} EncodedIsLaid(hs: seq<Byte>, offset: nat, end: nat, exts: seq<Extension>, rest: seq<Byte>)
    requires ExtensionsOk(exts) && offset <= |hs| && hs[offset..] == Extensions(exts, rest) && end == |hs| - |rest|
    ensures Laid(hs, offset, end, exts)
    decreases exts
  {
    if exts != [] {
      var next := EncodedStep(hs, offset, exts, rest);
      EncodedIsLaid(hs, next, end, exts[1..], rest);
    }
  }

  lemma {:induction false} ScanFinds(hs: seq<Byte>, offset: nat, end: nat, exts: seq<Extension>)
    requires ExtensionsOk(exts) && end <= |hs| && Laid(hs, offset, end, exts)
    ensures Scan(hs, offset, end) == Named(exts)
    decreases exts
  {
    if exts != [] && exts[0].OtherExtension? {
      ScanFinds(hs, offset + 4 + |Data(exts[0])|, end, exts[1..]);
    }
  }

  lemma ReachCompression(h: ClientHello, hs: seq<Byte>, rest: seq<Byte>) returns (ciphers: nat, compression: nat)
    requires FieldsOk(h) && |hs| >= 38 && hs[38..] == Body(h, rest)
    ensures Skip8(hs, 38) == Some(ciphers) && Skip16(hs, ciphers) == Some(compression)
    ensures compression <= |hs| && hs[compression..] == Vector8(h.compression, ExtensionBlock(h, rest))
  {
    var tail := Vector8(h.compression, ExtensionBlock(h, rest));
    ReadVector8(hs, 38, h.session, Vector16(h.ciphers, tail));
    ciphers := 39 + |h.session|;
    ReadVector16(hs, ciphers, h.ciphers, tail);
    compression := ciphers + 2 + |h.ciphers|;
  }

  lemma ReachExtensions(h: ClientHello, hs: seq<Byte>, rest: seq<Byte>) returns (extensions: nat)
    requires FieldsOk(h) && |hs| >= 38 && hs[38..] == Body(h, rest)
    ensures var ciphers := Skip8(hs, 38);
            ciphers.Some? &&
            var compression := Skip16(hs, ciphers.value);
            compression.Some? && Skip8(hs, compression.value) == Some(extensions)
    ensures extensions <= |hs| && hs[extensions..] == ExtensionBlock(h, rest)
  {
    var ciphers, compression := ReachCompression(h, hs, rest);
    ReadVector8(hs, compression, h.compression, ExtensionBlock(h, rest));
    extensions := compression + 1 + |h.compression|;
  }

  lemma LaidNamed(hs: seq<Byte>, i: nat, end: nat, exts: seq<Extension>)
    requires ExtensionsOk(exts) && i + 2 <= end <= |hs| && Laid(hs, i + 2, end, exts)
    requires end == if i + 2 + U16(hs, i) > |hs| then |hs| else i + 2 + U16(hs, i)
    ensures NameInBlock(hs, i) == Named(exts)
  {
    ScanFinds(hs, i + 2, end, exts);
  }

  lemma BlockNamed(h: ClientHello, hs: seq<Byte>, i: nat, rest: seq<Byte>)
    requires FieldsOk(h) && i <= |hs| && hs[i..] == ExtensionBlock(h, rest)
    ensures NameInBlock(hs, i) == Named(h.extensions)
  {
    var exts := h.extensions;
    ReadBytes2(hs, i, |Extensions(exts, [])|, Extensions(exts, rest));
    ExtensionsLength(exts, rest);
    EncodedIsLaid(hs, i + 2, |hs| - |rest|, exts, rest);
    LaidNamed(hs, i, |hs| - |rest|, exts);
  }

  /** A total length that goes beyond the end of the message does no harm. */
  lemma OverlongBlockNamed(hs: seq<Byte>, i: nat, total: int, exts: seq<Extension>)
    requires ExtensionsOk(exts) && i <= |hs| && |Extensions(exts, [])| <= total < 0x1_0000
    requires hs[i..] == Bytes2(total) + Extensions(exts, [])
    ensures NameInBlock(hs, i) == Named(exts)
  {
    ReadBytes2(hs, i, total, Extensions(exts, []));
    EncodedIsLaid(hs, i + 2, |hs|, exts, []);
    LaidNamed(hs, i, |hs|, exts);
  }

  lemma HandshakeNamed(h: ClientHello, hs: seq<Byte>, rest: seq<Byte>)
    requires FieldsOk(h) && |hs| >= 38 && hs[38..] == Body(h, rest)
    ensures NameInHandshake(hs) == Named(h.extensions)
  {
    var extensions := ReachExtensions(h, hs, rest);
    BlockNamed(h, hs, extensions, rest);
  }

  lemma RecordShape(h: ClientHello, major: Byte, minor: Byte, rest: seq<Byte>)
    requires WellFormed(h)
    ensures var (payload, hs) := (Record(h, major, minor, rest), Handshake(h, rest));
            |payload| == 5 + |hs| && payload[0] == 0x16 && payload[5] == hs[0] && payload[5..] == hs
            && U16(payload, 3) == |Handshake(h, [])|
  {
    var payload, hs := Record(h, major, minor, rest), Handshake(h, rest);
    assert payload[3..] == Bytes2(|Handshake(h, [])|) + hs;
    ReadBytes2(payload, 3, |Handshake(h, [])|, hs);
  }

  /** Every well-formed single-record ClientHello, with any extensions in any order and
      anything after the record: the parser returns exactly the name the message says, and
      none if it says none. */
  lemma RoundTrip(h: ClientHello, major: Byte, minor: Byte, rest: seq<Byte>)
    requires WellFormed(h)
    ensures SniOf(Record(h, major, minor, []) + rest) == Named(h.extensions)
  {
    RestFollows(h, major, minor, rest);
    RecordShape(h, major, minor, rest);
    HandshakeShape(h, rest);
    HandshakeShape(h, []);
    HandshakeNamed(h, Handshake(h, rest), rest);
  }

  lemma HandshakeShape(h: ClientHello, rest: seq<Byte>)
    requires WellFormed(h)
    ensures var hs := Handshake(h, rest);
            |hs| == 38 + |Body(h, rest)| && hs[0] == 0x01 && hs[38..] == Body(h, rest)
            && |Body(h, rest)| == |Body(h, [])| + |rest|
  {
    ExtensionsThenRest(h.extensions, rest);
  }

  /** In particular, a host name that comes first in its list is found after any other
      extensions. */
  lemma {:induction false} HostNameFound(before: seq<Extension>, name: seq<Byte>, more: seq<ServerName>, after: seq<Extension>)
    requires forall i :: 0 <= i < |before| ==> before[i].OtherExtension?
    requires ExtensionsOk(before + [ServerNames([ServerName(0, name)] + more)] + after)
    ensures Named(before + [ServerNames([ServerName(0, name)] + more)] + after) == if name == [] then None else Some(name)
    decreases before
  {
    var exts := before + [ServerNames([ServerName(0, name)] + more)] + after;
    if before != [] {
      assert exts[0] == before[0];
      assert exts[1..] == before[1..] + [ServerNames([ServerName(0, name)] + more)] + after;
      HostNameFound(before[1..], name, more, after);
    }
  }
}

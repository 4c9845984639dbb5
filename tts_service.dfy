/** The text-to-speech request broker of services/ttsService.ts.

    `EdgeTtsService` holds a cache from `voice:text` keys to object URLs, a
    FIFO queue of pending requests and a busy flag.  At most one request is
    in flight; its WebSocket exchange is modelled by the session record
    `inFlight`, and every socket or timer callback of the source is a method
    here (`OnOpen`, `OnBinary`, `OnText`, `OnError`, `OnClose`, `OnTimeout`).
    The object URL of a finished Blob, the UUID and the timestamp are
    supplied by the caller of those methods, since they come from the host.

    Two ghost logs make the promises of the broker checkable: `started`
    lists the tickets of the requests whose exchange began, in order, and
    `settled` lists how each of them ended (synthesized audio, or the
    fallback voice after a rejection).  A settlement is the moment the
    promise returned by `speak` resolves: playback and the fallback voice
    both resolve on success and on failure alike. */
module TtsService {
  import opened Wrappers
  import opened Strings
  import opened Sequences

  type Byte = b: int | 0 <= b < 256

  /** An object URL (`URL.createObjectURL`), used as an opaque token. */
  type Url = string

  // ---------------------------------------------------------------------------
  // Voices and cache keys

  datatype Voice = XiaoxiaoNeural | YunxiNeural

  function VoiceName(v: Voice): string {
    match v
    case XiaoxiaoNeural => "zh-CN-XiaoxiaoNeural"
    case YunxiNeural => "zh-CN-YunxiNeural"
  }

  /** `speak`'s default voice. */
  const DefaultVoice: Voice := XiaoxiaoNeural

  /** The cache key `${voice}:${cleanText}`. */
  function CacheKey(v: Voice, text: string): (k: string)
    ensures StripPrefix(k, VoiceName(v) + ":") == Some(text)
  {
    StripPrefixOf(VoiceName(v) + ":", text);
    VoiceName(v) + ":" + text
  }

  /** Distinct (voice, text) pairs never share a cache entry. */
  lemma CacheKeyInjective(v1: Voice, t1: string, v2: Voice, t2: string)
    ensures CacheKey(v1, t1) == CacheKey(v2, t2) <==> v1 == v2 && t1 == t2
  {
    var k1, k2 := CacheKey(v1, t1), CacheKey(v2, t2);
    assert k1[6] == (if v1 == XiaoxiaoNeural then 'X' else 'Y');
    assert k2[6] == (if v2 == XiaoxiaoNeural then 'X' else 'Y');
    if k1 == k2 {
      var n := |VoiceName(v1)| + 1;
      assert t1 == k1[n..] && t2 == k2[n..];
    }
  }

  // ---------------------------------------------------------------------------
  // Binary audio frames

  /** A binary message: a 2-byte big-endian header length, that many header
      bytes, then audio. */
  datatype Frame = Frame(headerLength: nat, header: seq<Byte>, payload: seq<Byte>)

  /** The decoding in `ws.onmessage` for an ArrayBuffer.  A message shorter
      than two bytes makes `getUint16(0)` throw inside the handler, so no
      chunk is recorded for it (`None`).  A header length that runs past the
      end yields an empty payload rather than an error. */
  function ParseFrame(data: seq<Byte>): (r: Option<Frame>)
    ensures r.None? <==> |data| < 2
    ensures r.Some? ==> r.value.headerLength == data[0] as int * 256 + data[1] as int
    ensures r.Some? ==> data == data[..2] + r.value.header + r.value.payload
    ensures r.Some? ==> |r.value.header| == Min(r.value.headerLength, |data| - 2)
    ensures r.Some? && 2 + r.value.headerLength >= |data| ==> r.value.payload == []
  {
    if |data| < 2 then None
    else
      var len := data[0] as int * 256 + data[1] as int;
      var start := Min(2 + len, |data|);
      assert data == data[..2] + data[2..start] + data[start..];
      Some(Frame(len, data[2..start], data[start..]))
  }

  /** How the synthesis endpoint lays out a frame (the inverse of ParseFrame). */
  function EncodeFrame(header: seq<Byte>, payload: seq<Byte>): seq<Byte>
    requires |header| < 65536
  {
    [|header| / 256, |header| % 256] + header + payload
  }

  lemma ParseEncodeFrame(header: seq<Byte>, payload: seq<Byte>)
    requires |header| < 65536
    ensures ParseFrame(EncodeFrame(header, payload)) == Some(Frame(|header|, header, payload))
  {
    var data := EncodeFrame(header, payload);
    assert data[0] as int * 256 + data[1] as int == |header|;
    assert data[2..2 + |header|] == header;
    assert data[2 + |header|..] == payload;
  }

  /** Two frames with the 5-byte header "HELLO" and 3 and 4 audio bytes
      reassemble into exactly the 7 audio bytes. */
  lemma ReassemblyExample()
    ensures var hello: seq<Byte> := [72, 69, 76, 76, 79];
            var f1 := ParseFrame([0, 5] + hello + [1, 2, 3]);
            var f2 := ParseFrame([0, 5] + hello + [4, 5, 6, 7]);
            f1.Some? && f2.Some? &&
            Flatten([f1.value.payload, f2.value.payload]) == [1, 2, 3, 4, 5, 6, 7]
  {
    var hello: seq<Byte> := [72, 69, 76, 76, 79];
    ParseEncodeFrame(hello, [1, 2, 3]);
    ParseEncodeFrame(hello, [4, 5, 6, 7]);
    assert EncodeFrame(hello, [1, 2, 3]) == [0, 5] + hello + [1, 2, 3];
    assert EncodeFrame(hello, [4, 5, 6, 7]) == [0, 5] + hello + [4, 5, 6, 7];
    var a: seq<Byte> := [1, 2, 3];
    FlattenAppend([], a);
    FlattenAppend([a], [4, 5, 6, 7]);
    assert [a] == [] + [a];
  }

  // ---------------------------------------------------------------------------
  // Request ids (getUuid)

  type Nibble = n: int | 0 <= n < 16

  predicate IsHex(c: char) {
    '0' <= c <= '9' || 'a' <= c <= 'f'
  }

  function HexDigit(n: Nibble): (c: char)
    ensures IsHex(c)
  {
    "0123456789abcdef"[n]
  }

  /** A UUID in its 8-4-4-4-12 textual form. */
  predicate UuidShaped(u: string) {
    |u| == 36 &&
    forall i :: 0 <= i < 36 ==>
      if i == 8 || i == 13 || i == 18 || i == 23 then u[i] == '-' else IsHex(u[i])
  }

  /** The character at position `i` of the template
      `xxxxxxxx-xxxx-4xxx-yxxx-xxxxxxxxxxxx`. */
  function TemplateChar(i: nat): char {
    if i == 8 || i == 13 || i == 18 || i == 23 then '-'
    else if i == 14 then '4'
    else if i == 19 then 'y'
    else 'x'
  }

  function UuidTemplate(): (t: string)
    ensures |t| == 36 && forall i :: 0 <= i < 36 ==> t[i] == TemplateChar(i)
  {
    seq(36, i requires 0 <= i < 36 => TemplateChar(i))
  }

  lemma UuidTemplateText()
    ensures UuidTemplate() == "xxxxxxxx-xxxx-4xxx-yxxx-xxxxxxxxxxxx"
  {
  }

  /** `r & 0x3 | 0x8`: the variant digit of a version-4 UUID. */
  function VariantNibble(r: Nibble): (v: Nibble)
    ensures 8 <= v < 12
  {
    ((r as bv4 & 3) | 8) as int
  }

  /** The template replacement of `getUuid` without `crypto.randomUUID`:
      the k-th `x` or `y` consumes the k-th value of `Math.random() * 16 | 0`. */
  function FillTemplate(t: string, random: nat -> Nibble, k: nat): (u: string)
    ensures |u| == |t|
    decreases |t|
  {
    if t == [] then []
    else if t[0] == 'x' then [HexDigit(random(k))] + FillTemplate(t[1..], random, k + 1)
    else if t[0] == 'y' then [HexDigit(VariantNibble(random(k)))] + FillTemplate(t[1..], random, k + 1)
    else [t[0]] + FillTemplate(t[1..], random, k)
  }

  predicate IsVariantDigit(c: char) {
    c == '8' || c == '9' || c == 'a' || c == 'b'
  }

  /** Position by position, the filled template keeps every character other
      than `x` and `y`, puts a hexadecimal digit for each `x` and a variant
      digit for each `y`. */
  lemma {:induction false} FillTemplateAt(t: string, random: nat -> Nibble, k: nat, i: nat)
    requires i < |t|
    ensures var u := FillTemplate(t, random, k);
            (t[i] != 'x' && t[i] != 'y' ==> u[i] == t[i]) &&
            (t[i] == 'x' ==> IsHex(u[i])) &&
            (t[i] == 'y' ==> IsVariantDigit(u[i]))
    decreases i
  {
    if i == 0 {
      if t[0] == 'y' {
        var v := VariantNibble(random(k));
        assert "0123456789abcdef"[v] == HexDigit(v);
      }
    } else {
      var k' := if t[0] == 'x' || t[0] == 'y' then k + 1 else k;
      FillTemplateAt(t[1..], random, k', i - 1);
      assert FillTemplate(t, random, k)[i] == FillTemplate(t[1..], random, k')[i - 1];
    }
  }

  /** `getUuid()`: `crypto.randomUUID()` when the host offers it, else the
      template filled from `Math.random`. */
  function GetUuid(cryptoUuid: Option<string>, random: nat -> Nibble): (u: string)
    ensures cryptoUuid.Some? ==> u == cryptoUuid.value
    ensures cryptoUuid.None? ==> UuidShaped(u) && u[14] == '4' && IsVariantDigit(u[19])
  {
    FallbackUuidIsVersion4(random);
    if cryptoUuid.Some? then cryptoUuid.value else FillTemplate(UuidTemplate(), random, 0)
  }

  lemma FallbackUuidIsVersion4(random: nat -> Nibble)
    ensures var u := FillTemplate(UuidTemplate(), random, 0);
            UuidShaped(u) && u[14] == '4' && IsVariantDigit(u[19])
  {
    var u := FillTemplate(UuidTemplate(), random, 0);
    forall i | 0 <= i < 36
      ensures if i == 8 || i == 13 || i == 18 || i == 23 then u[i] == '-' else IsHex(u[i])
    {
      FillTemplateAt(UuidTemplate(), random, 0, i);
      assert UuidTemplate()[i] == TemplateChar(i);
      if i == 8 || i == 13 || i == 18 || i == 23 {
        assert UuidTemplate()[i] == '-';
      } else if i == 14 {
        assert UuidTemplate()[i] == '4';
      } else {
        assert UuidTemplate()[i] == 'x' || UuidTemplate()[i] == 'y';
      }
    }
    FillTemplateAt(UuidTemplate(), random, 0, 14);
    FillTemplateAt(UuidTemplate(), random, 0, 19);
    assert UuidTemplate()[14] == '4' && UuidTemplate()[19] == 'y';
  }

  /** `s.replace(/c/g, '')`. */
  function RemoveChar(s: string, c: char): (r: string)
    ensures |r| <= |s|
    ensures c !in r
  {
    if s == [] then [] else (if s[0] == c then [] else [s[0]]) + RemoveChar(s[1..], c)
  }

  lemma {:induction false} RemoveCharAppend(a: string, b: string, c: char)
    ensures RemoveChar(a + b, c) == RemoveChar(a, c) + RemoveChar(b, c)
  {
    if a != [] {
      assert (a + b)[0] == a[0];
      assert (a + b)[1..] == a[1..] + b;
      RemoveCharAppend(a[1..], b, c);
    } else {
      assert a + b == b;
    }
  }

  lemma {:induction false} RemoveCharAbsent(s: string, c: char)
    requires c !in s
    ensures RemoveChar(s, c) == s
  {
    if s != [] { RemoveCharAbsent(s[1..], c); }
  }

  /** The request id: the UUID with its dashes removed.  A UUID without
      dashes is its own request id; a well-formed one gives 32 hex digits. */
  function RequestId(uuid: string): (r: string)
    ensures '-' !in r
    ensures '-' !in uuid ==> r == uuid
    ensures UuidShaped(uuid) ==> |r| == 32 && forall i :: 0 <= i < 32 ==> IsHex(r[i])
  {
    DashlessCases(uuid);
    RemoveChar(uuid, '-')
  }

  lemma DashlessCases(u: string)
    ensures '-' !in u ==> RemoveChar(u, '-') == u
    ensures UuidShaped(u) ==> |RemoveChar(u, '-')| == 32 && forall i :: 0 <= i < 32 ==> IsHex(RemoveChar(u, '-')[i])
  {
    if '-' !in u {
      RemoveCharAbsent(u, '-');
    }
    if UuidShaped(u) {
      DashlessUuidIs32Hex(u);
    }
  }

  lemma RemoveDashAfter(a: string, b: string)
    requires '-' !in a
    ensures RemoveChar(a + "-" + b, '-') == a + RemoveChar(b, '-')
  {
    var l := a + "-";
    RemoveCharAppend(l, b, '-');
    RemoveCharAppend(a, "-", '-');
    RemoveCharAbsent(a, '-');
    assert RemoveChar("-", '-') == [] by {
      assert "-"[1..] == [];
    }
    assert RemoveChar(l, '-') == a by {
      assert a + [] == a;
    }
  }

  /** Removing the dashes of `u[i..]` when the first one is at `k`. */
  lemma RemoveFirstDash(u: string, i: nat, k: nat)
    requires i <= k < |u| && u[k] == '-' && '-' !in u[i..k]
    ensures RemoveChar(u[i..], '-') == u[i..k] + RemoveChar(u[k + 1..], '-')
  {
    assert u[i..] == u[i..k] + "-" + u[k + 1..];
    RemoveDashAfter(u[i..k], u[k + 1..]);
  }

  /** A well-formed UUID has no dash outside its four separator positions. */
  lemma UuidGroupsHaveNoDash(u: string, lo: nat, hi: nat)
    requires UuidShaped(u) && lo <= hi <= 36
    requires hi <= 8 || (9 <= lo && hi <= 13) || (14 <= lo && hi <= 18) || (19 <= lo && hi <= 23) || 24 <= lo
    ensures '-' !in u[lo..hi]
  {
    forall i | lo <= i < hi ensures u[i] != '-' {
      assert IsHex(u[i]);
    }
  }

  /** The dashes of a UUID removed one group at a time. */
  lemma RemoveUuidDashes(u: string)
    requires UuidShaped(u)
    ensures RemoveChar(u, '-') == u[..8] + (u[9..13] + (u[14..18] + (u[19..23] + u[24..])))
  {
    UuidGroupsHaveNoDash(u, 0, 8);
    UuidGroupsHaveNoDash(u, 9, 13);
    UuidGroupsHaveNoDash(u, 14, 18);
    UuidGroupsHaveNoDash(u, 19, 23);
    UuidGroupsHaveNoDash(u, 24, 36);
    assert u[0..] == u && u[0..8] == u[..8];
    RemoveFirstDash(u, 0, 8);
    RemoveFirstDash(u, 9, 13);
    RemoveFirstDash(u, 14, 18);
    RemoveFirstDash(u, 19, 23);
    RemoveCharAbsent(u[24..], '-');
  }

  /** Without its dashes a UUID is its five groups, in order. */
  lemma DashlessUuidGroups(u: string)
    requires UuidShaped(u)
    ensures RemoveChar(u, '-') == u[..8] + u[9..13] + u[14..18] + u[19..23] + u[24..]
  {
    RemoveUuidDashes(u);
    var g1, g2, g3, g4, g5 := u[..8], u[9..13], u[14..18], u[19..23], u[24..];
    assert g1 + (g2 + (g3 + (g4 + g5))) == g1 + g2 + g3 + g4 + g5;
  }



  /** A well-formed UUID without its dashes is 32 hexadecimal digits. */
  lemma DashlessUuidIs32Hex(u: string)
    requires UuidShaped(u)
    ensures |RemoveChar(u, '-')| == 32 && forall i :: 0 <= i < 32 ==> IsHex(RemoveChar(u, '-')[i])
  {
    DashlessUuidGroups(u);
    var r := RemoveChar(u, '-');
    forall i | 0 <= i < 32 ensures IsHex(r[i]) {
      var j := if i < 8 then i else if i < 12 then i + 1 else if i < 16 then i + 2
               else if i < 20 then i + 3 else i + 4;
      assert r[i] == u[j];
    }
  }

  // ---------------------------------------------------------------------------
  // The two text messages sent when the socket opens

  const SpeechConfigJson: string :=
    "{\"context\":{\"synthesis\":{\"audio\":{\"metadataoptions\":{\"sentenceBoundaryEnabled\":\"false\",\"wordBoundaryEnabled\":\"false\"},\"outputFormat\":\"audio-24khz-48kbitrate-mono-mp3\"}}}}"

  const ConfigHeaderTail: string := "\r\nContent-Type:application/json; charset=utf-8\r\nPath:speech.config\r\n\r\n"

  const TimestampHeader: string := "X-Timestamp:"

  /** Everything in a `speech.config` message after the timestamp. */
  const ConfigTail: string := ConfigHeaderTail + SpeechConfigJson

  /** The `speech.config` message; `timestamp` is `new Date().toString()`. */
  function ConfigMessage(timestamp: string): (m: string)
    ensures ParseConfigMessage(m) == Some(timestamp)
  {
    BetweenOf(TimestampHeader, timestamp, ConfigTail);
    TimestampHeader + timestamp + ConfigTail
  }

  /** The `<speak>` root element (section 3.1.1 of W3C SSML 1.0) with its
      fixed attributes, as the source writes it. */
  const SpeakOpen: string := "<speak version='1.0' xmlns='http://www.w3.org/2001/10/synthesis' xml:lang='zh-CN'>"

  /** The SSML document: the text inside a `<voice>` element (section 3.2.1
      of W3C SSML 1.0), inserted without escaping. */
  function SsmlDocument(v: Voice, text: string): (d: string)
    ensures |d| >= |text| + |SsmlClose|
    ensures OccursAt(d, text, |d| - |text| - |SsmlClose|) && OccursAt(d, SsmlClose, |d| - |SsmlClose|)
  {
    var open := SpeakOpen + "<voice name='" + VoiceName(v) + "'>";
    assert (open + text + SsmlClose)[|open|..|open| + |text|] == text;
    assert (open + text + SsmlClose)[|open| + |text|..] == SsmlClose;
    open + text + SsmlClose
  }

  const SsmlClose: string := "</voice></speak>"

  const SsmlHeaderTail: string := "\r\nContent-Type:application/ssml+xml\r\nPath:ssml\r\n\r\n"

  /** The `ssml` message.  With a request id of the 32 characters
      `RequestId` produces, the request id, voice and text are read back
      out of it unchanged: the text is carried verbatim. */
  function SsmlMessage(requestId: string, v: Voice, text: string): (m: string)
    ensures |requestId| == 32 ==> ParseSsmlMessage(m) == Some((requestId, v, text))
  {
    SsmlRoundTrip(requestId, v, text);
    "X-RequestId:" + requestId + SsmlHeaderTail + SsmlDocument(v, text)
  }

  function StripPrefix(s: string, p: string): (r: Option<string>)
    ensures r.Some? <==> |p| <= |s| && s[..|p|] == p
    ensures r.Some? ==> s == p + r.value
  {
    if |p| <= |s| && s[..|p|] == p then
      assert s == p + s[|p|..];
      Some(s[|p|..])
    else None
  }

  function StripSuffix(s: string, p: string): (r: Option<string>)
    ensures r.Some? <==> |p| <= |s| && s[|s| - |p|..] == p
    ensures r.Some? ==> s == r.value + p
  {
    if |p| <= |s| && s[|s| - |p|..] == p then
      assert s == s[..|s| - |p|] + p;
      Some(s[..|s| - |p|])
    else None
  }

  lemma StripPrefixOf(p: string, s: string)
    ensures StripPrefix(p + s, p) == Some(s)
  {
    assert (p + s)[..|p|] == p;
  }

  lemma StripSuffixOf(s: string, p: string)
    ensures StripSuffix(s + p, p) == Some(s)
  {
    assert (s + p)[|s + p| - |p|..] == p;
  }

  /** The part of `s` between the prefix `p` and the suffix `q`. */
  function Between(s: string, p: string, q: string): Option<string> {
    match StripPrefix(s, p)
    case None => None
    case Some(rest) => StripSuffix(rest, q)
  }

  lemma BetweenOf(p: string, x: string, q: string)
    ensures Between(p + x + q, p, q) == Some(x)
  {
    assert p + x + q == p + (x + q);
    StripPrefixOf(p, x + q);
    StripSuffixOf(x, q);
  }

  /** Reads the timestamp back out of a `speech.config` message. */
  function ParseConfigMessage(msg: string): Option<string> {
    Between(msg, TimestampHeader, ConfigTail)
  }

  /** The voice whose name (followed by `'>`) starts `s`, and what follows. */
  function ParseVoice(s: string): Option<(Voice, string)> {
    match StripPrefix(s, VoiceName(XiaoxiaoNeural) + "'>")
    case Some(rest) => Some((XiaoxiaoNeural, rest))
    case None =>
      match StripPrefix(s, VoiceName(YunxiNeural) + "'>")
      case Some(rest) => Some((YunxiNeural, rest))
      case None => None
  }

  /** Reads request id, voice and text back out of an `ssml` message whose
      request id has the 32 characters `RequestId` produces. */
  function ParseSsmlMessage(msg: string): Option<(string, Voice, string)> {
    match StripPrefix(msg, "X-RequestId:")
    case None => None
    case Some(rest) =>
      if |rest| < 32 then None
      else
        match StripPrefix(rest[32..], SsmlHeaderTail + SpeakOpen + "<voice name='")
        case None => None
        case Some(body) =>
          match ParseVoice(body)
          case None => None
          case Some((v, inner)) =>
            match StripSuffix(inner, SsmlClose)
            case None => None
            case Some(text) => Some((rest[..32], v, text))
  }

  lemma ParseVoiceOf(v: Voice, s: string)
    ensures ParseVoice(VoiceName(v) + "'>" + s) == Some((v, s))
  {
    var x := VoiceName(v) + "'>" + s;
    StripPrefixOf(VoiceName(v) + "'>", s);
    if v == YunxiNeural {
      assert x[6] == 'Y';
      assert StripPrefix(x, VoiceName(XiaoxiaoNeural) + "'>").None?;
    }
  }

  lemma Regroup(a: string, id: string, h: string, o: string, w: string, n: string, g: string, t: string, c: string)
    ensures a + id + h + (o + w + n + g + t + c) == a + (id + ((h + o + w) + (n + g + (t + c))))
  {
  }

  lemma SsmlRoundTrip(requestId: string, v: Voice, text: string)
    ensures |requestId| == 32 ==>
      ParseSsmlMessage("X-RequestId:" + requestId + SsmlHeaderTail + SsmlDocument(v, text)) == Some((requestId, v, text))
  {
    if |requestId| != 32 {
      return;
    }
    var close := SsmlClose;
    var mid := SsmlHeaderTail + SpeakOpen + "<voice name='";
    var inner := text + close;
    var body := VoiceName(v) + "'>" + inner;
    var rest := requestId + (mid + body);
    Regroup("X-RequestId:", requestId, SsmlHeaderTail, SpeakOpen, "<voice name='", VoiceName(v), "'>", text, close);
    StripPrefixOf("X-RequestId:", rest);
    assert rest[..32] == requestId && rest[32..] == mid + body;
    StripPrefixOf(mid, body);
    ParseVoiceOf(v, inner);
    StripSuffixOf(text, close);
  }

  /** The end-of-turn marker a text message must contain. */
  const TurnEndMarker: string := "Path:turn.end"

  // ---------------------------------------------------------------------------
  // The broker

  /** A queued `TTSRequest`.  Its callbacks are fixed by `speak`: `onAudio`
      stores the URL under the request's key and plays it, `onError` runs
      the fallback voice; `ticket` numbers the `speak` calls. */
  datatype Request = Request(ticket: nat, text: string, voice: Voice)

  function RequestKey(r: Request): string {
    CacheKey(r.voice, r.text)
  }

  /** `speak` only ever queues trimmed, non-empty text. */
  predicate WellFormed(r: Request) {
    r.text != [] && !IsWhitespace(r.text[0]) && !IsWhitespace(r.text[|r.text| - 1])
  }

  /** What the host gives when a request starts: whether `new WebSocket(...)`
      succeeded, and what `getUuid()` draws on (`crypto.randomUUID()` when
      it exists, the `Math.random` digits otherwise). */
  datatype Connection = Connection(socketCreated: bool, cryptoUuid: Option<string>, random: nat -> Nibble)

  /** The request id of the request started on `conn`. */
  function ConnectionRequestId(conn: Connection): string {
    RequestId(GetUuid(conn.cryptoUuid, conn.random))
  }

  datatype SocketState = Connecting | Open | Closed

  /** The state of one `fetchEdgeAudio` call: its request, request id,
      socket and the payloads received so far (`audioData`). */
  datatype Session = Session(req: Request, requestId: string, socket: SocketState, chunks: seq<seq<Byte>>)

  /** How a started request ended: `onAudio` with the URL of the assembled
      audio, or `onError` and the fallback voice. */
  datatype Settlement = Synthesized(ticket: nat, url: Url, audio: seq<Byte>) | FellBack(ticket: nat)

  datatype SpeakOutcome = Ignored | PlayedFromCache(url: Url) | Enqueued(ticket: nat)

  /** The payloads after one more binary message: a frame that cannot be
      read leaves them as they were. */
  function Received(chunks: seq<seq<Byte>>, data: seq<Byte>): (r: seq<seq<Byte>>)
    ensures |chunks| <= |r| <= |chunks| + 1 && r[..|chunks|] == chunks
    ensures |data| >= 2 <==> |r| == |chunks| + 1
    ensures |r| == |chunks| + 1 ==> data[..2] + ParseFrame(data).value.header + r[|chunks|] == data
  {
    match ParseFrame(data)
    case Some(f) => chunks + [f.payload]
    case None => chunks
  }

  function TicketsOf(s: seq<Settlement>): seq<nat> {
    seq(|s|, i requires 0 <= i < |s| => s[i].ticket)
  }

  predicate Increasing(s: seq<nat>) {
    forall i, j :: 0 <= i < j < |s| ==> s[i] < s[j]
  }

  /** The broker's invariant over its state: queued tickets increase, are
      below the next ticket and above every started one; started tickets
      increase; the busy flag is set exactly while a session is in flight,
      whose request is the last one started; and the settled requests are
      the started ones except the one in flight, in start order. */
  ghost predicate Inv(queue: seq<Request>, nextTicket: nat, started: seq<nat>, settled: seq<Settlement>,
                      inFlight: Option<Session>, isProcessing: bool)
  {
    && QueueOrdered(queue, nextTicket)
    && StartedBefore(started, queue, nextTicket)
    && FlightIsLastStarted(started, inFlight, isProcessing)
    && SettledAreStarted(settled, started, inFlight)
  }

  /** Queued requests are well formed, in ticket order, below the next
      ticket. */
  ghost predicate QueueOrdered(queue: seq<Request>, nextTicket: nat) {
    && (forall i, j :: 0 <= i < j < |queue| ==> queue[i].ticket < queue[j].ticket)
    && (forall r :: r in queue ==> r.ticket < nextTicket && WellFormed(r))
  }

  /** Started tickets increase, are below the next ticket and below every
      queued one. */
  ghost predicate StartedBefore(started: seq<nat>, queue: seq<Request>, nextTicket: nat) {
    && Increasing(started)
    && (forall i :: 0 <= i < |started| ==> started[i] < nextTicket)
    && (forall i, r :: 0 <= i < |started| && r in queue ==> started[i] < r.ticket)
  }

  /** The busy flag is set exactly while a session is in flight, whose
      request is the last one started. */
  ghost predicate FlightIsLastStarted(started: seq<nat>, inFlight: Option<Session>, isProcessing: bool) {
    && (isProcessing <==> inFlight.Some?)
    && (inFlight.Some? ==>
          |started| > 0 && started[|started| - 1] == inFlight.value.req.ticket &&
          WellFormed(inFlight.value.req))
  }

  /** The settled requests are the started ones except the one in flight,
      in start order. */
  ghost predicate SettledAreStarted(settled: seq<Settlement>, started: seq<nat>, inFlight: Option<Session>) {
    if inFlight.Some? then |started| > 0 && TicketsOf(settled) == started[..|started| - 1]
    else TicketsOf(settled) == started
  }

  lemma TicketsOfAppend(s: seq<Settlement>, x: Settlement)
    ensures TicketsOf(s + [x]) == TicketsOf(s) + [x.ticket]
  {
  }

  /** Every request behind the head of the queue has a later ticket. */
  lemma HeadTicketFirst(queue: seq<Request>)
    requires queue != [] && forall i, j :: 0 <= i < j < |queue| ==> queue[i].ticket < queue[j].ticket
    ensures forall r :: r in queue[1..] ==> queue[0].ticket < r.ticket
  {
    forall r | r in queue[1..] ensures queue[0].ticket < r.ticket {
      var k :| 0 <= k < |queue[1..]| && queue[1..][k] == r;
      assert queue[k + 1] == r;
    }
  }

  /** Taking the head of the queue and opening its socket keeps the
      invariant. */
  lemma InvStart(queue: seq<Request>, nextTicket: nat, started: seq<nat>, settled: seq<Settlement>, s: Session)
    requires Inv(queue, nextTicket, started, settled, None, false) && queue != [] && s.req == queue[0]
    ensures Inv(queue[1..], nextTicket, started + [queue[0].ticket], settled, Some(s), true)
  {
    var st := started + [queue[0].ticket];
    assert queue[0] in queue;
    assert QueueOrdered(queue[1..], nextTicket);
    assert StartedBefore(st, queue[1..], nextTicket) by {
      HeadTicketFirst(queue);
    }
    assert FlightIsLastStarted(st, Some(s), true);
    assert SettledAreStarted(settled, st, Some(s)) by {
      assert st[..|st| - 1] == started;
    }
  }

  /** Taking the head of the queue when its socket cannot be created, so
      that it falls back at once, keeps the invariant. */
  lemma InvStartFails(queue: seq<Request>, nextTicket: nat, started: seq<nat>, settled: seq<Settlement>)
    requires Inv(queue, nextTicket, started, settled, None, false) && queue != []
    ensures Inv(queue[1..], nextTicket, started + [queue[0].ticket], settled + [FellBack(queue[0].ticket)], None, false)
  {
    var st := started + [queue[0].ticket];
    assert queue[0] in queue;
    assert QueueOrdered(queue[1..], nextTicket);
    assert StartedBefore(st, queue[1..], nextTicket) by {
      HeadTicketFirst(queue);
    }
    assert SettledAreStarted(settled + [FellBack(queue[0].ticket)], st, None) by {
      TicketsOfAppend(settled, FellBack(queue[0].ticket));
    }
  }

  /** Settling the request in flight keeps the invariant. */
  lemma InvSettle(queue: seq<Request>, nextTicket: nat, started: seq<nat>, settled: seq<Settlement>,
                  s: Session, x: Settlement)
    requires Inv(queue, nextTicket, started, settled, Some(s), true) && x.ticket == s.req.ticket
    ensures Inv(queue, nextTicket, started, settled + [x], None, false)
  {
    TicketsOfAppend(settled, x);
    assert started == started[..|started| - 1] + [started[|started| - 1]];
  }

  /** Queuing a well-formed request under the next ticket keeps the
      invariant. */
  lemma InvEnqueue(queue: seq<Request>, nextTicket: nat, started: seq<nat>, settled: seq<Settlement>,
                   inFlight: Option<Session>, isProcessing: bool, r: Request)
    requires Inv(queue, nextTicket, started, settled, inFlight, isProcessing)
    requires r.ticket == nextTicket && WellFormed(r)
    ensures Inv(queue + [r], nextTicket + 1, started, settled, inFlight, isProcessing)
  {
    forall x | x in queue + [r] ensures x in queue || x == r {
    }
  }

  /** Updating the socket or the payloads of the session in flight keeps
      the invariant. */
  lemma InvSession(queue: seq<Request>, nextTicket: nat, started: seq<nat>, settled: seq<Settlement>,
                   s: Session, s2: Session)
    requires Inv(queue, nextTicket, started, settled, Some(s), true) && s2.req == s.req
    ensures Inv(queue, nextTicket, started, settled, Some(s2), true)
  {
  }

  class EdgeTtsService {
    var cache: map<string, Url>
    var queue: seq<Request>
    var isProcessing: bool
    var inFlight: Option<Session>
    var nextTicket: nat
    ghost var started: seq<nat>
    ghost var settled: seq<Settlement>

    ghost predicate Valid()
      reads this
    {
      Inv(queue, nextTicket, started, settled, inFlight, isProcessing)
    }

    /** The in-flight exchange has lost its socket without settling: nothing
        will ever clear `isProcessing` again. */
    ghost predicate Stuck()
      reads this
    {
      inFlight.Some? && inFlight.value.socket == Closed
    }

    /** The singleton as `getInstance` first creates it. */
    constructor ()
      ensures Valid()
      ensures cache == map[] && queue == [] && !isProcessing && inFlight == None
      ensures started == [] && settled == []
    {
      cache := map[];
      queue := [];
      isProcessing := false;
      inFlight := None;
      nextTicket := 0;
      started := [];
      settled := [];
    }

    /** `processQueue`: when idle and something is queued, take the head
        and start its exchange.  A socket that cannot be created rejects at
        once, which runs the fallback and clears the busy flag. */
    method ProcessQueue(conn: Connection)
      requires Valid()
      modifies this
      ensures Valid()
      ensures old(Stuck()) ==> Stuck() && started == old(started) && settled == old(settled)
      ensures cache == old(cache) && nextTicket == old(nextTicket)
      ensures old(isProcessing) || old(queue) == [] ==>
        queue == old(queue) && inFlight == old(inFlight) && isProcessing == old(isProcessing) &&
        started == old(started) && settled == old(settled)
      ensures !old(isProcessing) && old(queue) != [] ==>
        && queue == old(queue)[1..]
        && started == old(started) + [old(queue)[0].ticket]
        && (conn.socketCreated ==>
              inFlight == Some(Session(old(queue)[0], ConnectionRequestId(conn), Connecting, [])) &&
              isProcessing && settled == old(settled))
        && (!conn.socketCreated ==>
              inFlight == None && !isProcessing &&
              settled == old(settled) + [FellBack(old(queue)[0].ticket)])
    {
      if isProcessing || queue == [] {
        return;
      }
      var req := queue[0];
      var session := Session(req, ConnectionRequestId(conn), Connecting, []);
      InvStart(queue, nextTicket, started, settled, session);
      InvStartFails(queue, nextTicket, started, settled);
      queue := queue[1..];
      started := started + [req.ticket];
      if conn.socketCreated {
        isProcessing := true;
        inFlight := Some(session);
      } else {
        settled := settled + [FellBack(req.ticket)];
      }
    }

    /** Appends a request for `text` to the queue under the next ticket. */
    method Enqueue(text: string, v: Voice) returns (req: Request)
      requires Valid() && WellFormed(Request(nextTicket, text, v))
      modifies this
      ensures Valid()
      ensures req == Request(old(nextTicket), text, v)
      ensures queue == old(queue) + [req] && nextTicket == old(nextTicket) + 1
      ensures cache == old(cache) && isProcessing == old(isProcessing) && inFlight == old(inFlight)
      ensures started == old(started) && settled == old(settled)
    {
      req := Request(nextTicket, text, v);
      InvEnqueue(queue, nextTicket, started, settled, inFlight, isProcessing, req);
      queue := queue + [req];
      nextTicket := nextTicket + 1;
    }

    /** `speak(text, voice)`: blank text does nothing; a cached key plays
        the stored URL; otherwise one request with the trimmed text joins
        the tail of the queue (even when an identical one is already
        waiting) and `processQueue` runs. */
    method Speak(text: string, voice: Option<Voice>, conn: Connection) returns (outcome: SpeakOutcome)
      requires Valid()
      modifies this
      ensures Valid()
      ensures old(Stuck()) ==> Stuck() && started == old(started) && settled == old(settled)
      ensures cache == old(cache)
      ensures Trim(text) == [] ==>
        outcome == Ignored && queue == old(queue) && inFlight == old(inFlight) &&
        isProcessing == old(isProcessing) && started == old(started) && settled == old(settled)
      ensures var key := CacheKey(voice.GetOr(DefaultVoice), Trim(text));
        Trim(text) != [] && key in old(cache) ==>
          outcome == PlayedFromCache(old(cache)[key]) && queue == old(queue) &&
          inFlight == old(inFlight) && isProcessing == old(isProcessing) &&
          started == old(started) && settled == old(settled)
      ensures var req := Request(old(nextTicket), Trim(text), voice.GetOr(DefaultVoice));
        var pending := old(queue) + [req];
        Trim(text) != [] && RequestKey(req) !in old(cache) ==>
          && outcome == Enqueued(req.ticket)
          && nextTicket == old(nextTicket) + 1
          && (old(isProcessing) ==>
                queue == pending && inFlight == old(inFlight) && isProcessing &&
                started == old(started) && settled == old(settled))
          && (!old(isProcessing) ==>
                queue == pending[1..] && started == old(started) + [pending[0].ticket] &&
                (conn.socketCreated ==>
                   inFlight == Some(Session(pending[0], ConnectionRequestId(conn), Connecting, [])) &&
                   settled == old(settled)) &&
                (!conn.socketCreated ==>
                   inFlight == None && settled == old(settled) + [FellBack(pending[0].ticket)]))
    {
      var clean := Trim(text);
      if clean == [] {
        return Ignored;
      }
      var v := voice.GetOr(DefaultVoice);
      var key := CacheKey(v, clean);
      if key in cache {
        return PlayedFromCache(cache[key]);
      }
      var req := Enqueue(clean, v);
      ProcessQueue(conn);
      outcome := Enqueued(req.ticket);
    }

    /** `ws.onopen`: the socket opens and the config and SSML messages are
        sent, in that order. */
    method OnOpen(timestamp: string) returns (sent: seq<string>)
      requires Valid()
      modifies this
      ensures Valid()
      ensures old(Stuck()) ==> Stuck() && started == old(started) && settled == old(settled)
      ensures cache == old(cache) && queue == old(queue) && isProcessing == old(isProcessing)
      ensures started == old(started) && settled == old(settled) && nextTicket == old(nextTicket)
      ensures old(inFlight).Some? && old(inFlight).value.socket == Connecting ==>
        var s := old(inFlight).value;
        inFlight == Some(s.(socket := Open)) &&
        sent == [ConfigMessage(timestamp), SsmlMessage(s.requestId, s.req.voice, s.req.text)]
      ensures !(old(inFlight).Some? && old(inFlight).value.socket == Connecting) ==>
        inFlight == old(inFlight) && sent == []
    {
      sent := [];
      if inFlight.Some? && inFlight.value.socket == Connecting {
        var s := inFlight.value;
        InvSession(queue, nextTicket, started, settled, s, s.(socket := Open));
        inFlight := Some(s.(socket := Open));
        sent := [ConfigMessage(timestamp), SsmlMessage(s.requestId, s.req.voice, s.req.text)];
      }
    }

    /** `ws.onmessage` with an ArrayBuffer: strip the header and keep the
        payload after those already received. */
    method OnBinary(data: seq<Byte>)
      requires Valid()
      modifies this
      ensures Valid()
      ensures old(Stuck()) ==> Stuck() && started == old(started) && settled == old(settled)
      ensures cache == old(cache) && queue == old(queue) && isProcessing == old(isProcessing)
      ensures started == old(started) && settled == old(settled) && nextTicket == old(nextTicket)
      ensures old(inFlight).Some? && old(inFlight).value.socket == Open ==>
        var s := old(inFlight).value;
        inFlight == Some(s.(chunks := Received(s.chunks, data)))
      ensures !(old(inFlight).Some? && old(inFlight).value.socket == Open) ==> inFlight == old(inFlight)
    {
      if inFlight.Some? && inFlight.value.socket == Open {
        var s := inFlight.value;
        InvSession(queue, nextTicket, started, settled, s, s.(chunks := Received(s.chunks, data)));
        inFlight := Some(s.(chunks := Received(s.chunks, data)));
      }
    }

    /** `ws.onmessage` with a string: only a message containing
        `Path:turn.end` matters.  It closes the socket, stores `url` (the
        object URL of the assembled audio) under the request's key, and
        settles the request; any other text changes nothing. */
    method OnText(data: string, url: Url)
      requires Valid()
      modifies this
      ensures Valid()
      ensures old(Stuck()) ==> Stuck() && started == old(started) && settled == old(settled)
      ensures queue == old(queue) && nextTicket == old(nextTicket) && started == old(started)
      ensures old(inFlight).Some? && old(inFlight).value.socket == Open && Contains(data, TurnEndMarker) ==>
        var s := old(inFlight).value;
        && cache == old(cache)[RequestKey(s.req) := url]
        && settled == old(settled) + [Synthesized(s.req.ticket, url, Flatten(s.chunks))]
        && inFlight == None && !isProcessing
      ensures !(old(inFlight).Some? && old(inFlight).value.socket == Open && Contains(data, TurnEndMarker)) ==>
        cache == old(cache) && settled == old(settled) && inFlight == old(inFlight) &&
        isProcessing == old(isProcessing)
    {
      if inFlight.Some? && inFlight.value.socket == Open && Contains(data, TurnEndMarker) {
        var s := inFlight.value;
        var x := Synthesized(s.req.ticket, url, Flatten(s.chunks));
        InvSettle(queue, nextTicket, started, settled, s, x);
        cache := cache[RequestKey(s.req) := url];
        settled := settled + [x];
        inFlight := None;
        isProcessing := false;
      }
    }

    /** Settle the in-flight request by rejection: `onError` runs the
        fallback voice and `finally` clears the busy flag. */
    method FallBack()
      requires Valid() && inFlight.Some?
      modifies this
      ensures Valid()
      ensures cache == old(cache) && queue == old(queue) && nextTicket == old(nextTicket)
      ensures started == old(started)
      ensures settled == old(settled) + [FellBack(old(inFlight).value.req.ticket)]
      ensures inFlight == None && !isProcessing
    {
      InvSettle(queue, nextTicket, started, settled, inFlight.value, FellBack(inFlight.value.req.ticket));
      settled := settled + [FellBack(inFlight.value.req.ticket)];
      inFlight := None;
      isProcessing := false;
    }

    /** `ws.onerror`: the exchange rejects, whatever audio has arrived. */
    method OnError()
      requires Valid()
      modifies this
      ensures Valid()
      ensures old(Stuck()) ==> Stuck() && started == old(started) && settled == old(settled)
      ensures cache == old(cache) && queue == old(queue) && nextTicket == old(nextTicket)
      ensures started == old(started)
      ensures old(inFlight).Some? && old(inFlight).value.socket != Closed ==>
        settled == old(settled) + [FellBack(old(inFlight).value.req.ticket)] &&
        inFlight == None && !isProcessing
      ensures !(old(inFlight).Some? && old(inFlight).value.socket != Closed) ==>
        settled == old(settled) && inFlight == old(inFlight) && isProcessing == old(isProcessing)
    {
      if inFlight.Some? && inFlight.value.socket != Closed {
        FallBack();
      }
    }

    /** `ws.onclose` when the server closes first: the handler does nothing,
        so the request stays unsettled and the broker stays busy. */
    method OnClose()
      requires Valid()
      modifies this
      ensures Valid()
      ensures old(Stuck()) ==> Stuck() && started == old(started) && settled == old(settled)
      ensures cache == old(cache) && queue == old(queue) && isProcessing == old(isProcessing)
      ensures started == old(started) && settled == old(settled) && nextTicket == old(nextTicket)
      ensures old(inFlight).Some? ==> inFlight == Some(old(inFlight).value.(socket := Closed))
      ensures old(inFlight).None? ==> inFlight == None
    {
      if inFlight.Some? {
        InvSession(queue, nextTicket, started, settled, inFlight.value, inFlight.value.(socket := Closed));
        inFlight := Some(inFlight.value.(socket := Closed));
      }
    }

    /** The 10-second safety timer: if the socket is still connecting or
        open it is closed, and the request rejects only when no audio chunk
        has arrived.  With partial audio nothing settles, so `isProcessing`
        is never cleared. */
    method OnTimeout()
      requires Valid()
      modifies this
      ensures Valid()
      ensures old(Stuck()) ==> Stuck() && started == old(started) && settled == old(settled)
      ensures cache == old(cache) && queue == old(queue) && nextTicket == old(nextTicket)
      ensures started == old(started)
      ensures old(inFlight).Some? && old(inFlight).value.socket != Closed && old(inFlight).value.chunks == [] ==>
        settled == old(settled) + [FellBack(old(inFlight).value.req.ticket)] &&
        inFlight == None && !isProcessing
      ensures old(inFlight).Some? && old(inFlight).value.socket != Closed && old(inFlight).value.chunks != [] ==>
        settled == old(settled) && inFlight == Some(old(inFlight).value.(socket := Closed)) &&
        isProcessing && Stuck()
      ensures !(old(inFlight).Some? && old(inFlight).value.socket != Closed) ==>
        settled == old(settled) && inFlight == old(inFlight) && isProcessing == old(isProcessing)
    {
      if inFlight.Some? && inFlight.value.socket != Closed {
        if inFlight.value.chunks == [] {
          FallBack();
        } else {
          InvSession(queue, nextTicket, started, settled, inFlight.value, inFlight.value.(socket := Closed));
          inFlight := Some(inFlight.value.(socket := Closed));
        }
      }
    }
  }

  /** Requests settle in the order they started and none settles twice:
      the settled tickets are strictly increasing. */
  lemma SettledInStartOrder(svc: EdgeTtsService)
    requires svc.Valid()
    ensures forall i, j :: 0 <= i < j < |svc.settled| ==> svc.settled[i].ticket < svc.settled[j].ticket
  {
    var ts := TicketsOf(svc.settled);
    forall i, j | 0 <= i < j < |svc.settled|
      ensures svc.settled[i].ticket < svc.settled[j].ticket
    {
      assert ts[i] == svc.settled[i].ticket && ts[j] == svc.settled[j].ticket;
      assert ts[i] == svc.started[i] && ts[j] == svc.started[j];
    }
  }

}

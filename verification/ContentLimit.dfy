// The limit on contents (internal/domain/validation.go): it is described in
// characters and compared with the number of bytes of their UTF-8 encoding.

module ContentLimit {
  import opened Domain
  import opened UseCases

  type CodePoint = c: int | 0 <= c < 0xD800 || 0xE000 <= c < 0x11_0000

  function Byte(b: int): char
    requires 0 <= b < 256
  {
    b as char
  }

  // RFC 3629, section 3.
  function Utf8(c: CodePoint): (bytes: string)
    ensures 1 <= |bytes| <= 4 && (|bytes| == 1 <==> c < 0x80)
  {
    if c < 0x80 then [Byte(c)]
    else if c < 0x800 then [Byte(0xC0 + c / 64), Byte(0x80 + c % 64)]
    else if c < 0x1_0000 then [Byte(0xE0 + c / 4096), Byte(0x80 + c / 64 % 64), Byte(0x80 + c % 64)]
    else [Byte(0xF0 + c / 262144), Byte(0x80 + c / 4096 % 64), Byte(0x80 + c / 64 % 64), Byte(0x80 + c % 64)]
  }

  function Encoded(text: seq<CodePoint>): string {
    if text == [] then "" else Utf8(text[0]) + Encoded(text[1..])
  }

  // The bytes that follow the first one of each character.
  function Continuation(text: seq<CodePoint>): nat {
    if text == [] then 0 else |Utf8(text[0])| - 1 + Continuation(text[1..])
  }

  lemma {:induction false} EncodedLength(text: seq<CodePoint>)
    ensures |Encoded(text)| == |text| + Continuation(text)
    ensures Continuation(text) == 0 <==> forall i :: 0 <= i < |text| ==> text[i] < 0x80
  {
    hide Utf8;
    if text != [] {
      EncodedLength(text[1..]);
      assert text == [text[0]] + text[1..];
    }
  }

  predicate Within(length: nat, limit: nat) {
    length <= limit
  }

  // Counting bytes is counting characters, whatever the limit, exactly for ASCII texts.
  lemma LimitsAgreeIffAscii(text: seq<CodePoint>)
    ensures (forall limit :: Within(|Encoded(text)|, limit) <==> Within(|text|, limit)) <==>
            (forall i :: 0 <= i < |text| ==> text[i] < 0x80)
  {
    EncodedLength(text);
    assert Within(|text|, |text|);
    assert Within(|Encoded(text)|, |text|) ==> Continuation(text) == 0;
  }

  // A content that is a text is accepted on a channel as the limit in characters
  // says, unless its continuation bytes take it over the limit.
  lemma AcceptedAsDescribed(n: Notification, text: seq<CodePoint>)
    requires n.content == Encoded(text) && text != []
    requires ValidChannel(n.channel) && ValidPriority(n.priority) && n.recipient != ""
    ensures (Validates(n) <==> |text| <= MaxLen(n.channel)) <==>
            (|text| > MaxLen(n.channel) || Continuation(text) <= MaxLen(n.channel) - |text|)
  {
    EncodedLength(text);
  }

  // 801 times U+00E9 is half of what an SMS is said to hold, and is refused.
  lemma AccentsRefused(n: Notification)
    requires n.channel == SMS && n.content == Encoded(seq(801, i => 0xE9))
    ensures !Validates(n) && |seq<CodePoint>(801, i => 0xE9)| <= MaxLen(SMS)
  {
    var text: seq<CodePoint> := seq(801, i => 0xE9);
    EncodedLength(text);
    TwoBytesEach(text);
  }

  lemma {:induction false} TwoBytesEach(text: seq<CodePoint>)
    requires forall i :: 0 <= i < |text| ==> 0x80 <= text[i] < 0x800
    ensures Continuation(text) == |text|
  {
    if text != [] {
      TwoBytesEach(text[1..]);
    }
  }
}

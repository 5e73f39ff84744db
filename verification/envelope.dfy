/**
  The message envelope the hub puts on participants' queues (room.go, ClientMessage),
  and its serialisation.

  `json.Marshal` of a `ClientMessage` writes the three fields in declaration order
  under their JSON tags, each value as a JSON string. The string escaping below is the
  one `encoding/json` applies by default: `"` and `\` are backslash-escaped, newline,
  carriage return and tab use their short forms, every other character below U+0020 and
  the HTML-sensitive `<`, `>`, `&` and the separators U+2028, U+2029 become `\u` with
  four lower-case hex digits; everything else is copied. `Unmarshal` reads back exactly
  what `Marshal` writes, which makes serialisation injective: two different envelopes
  never put the same bytes on the wire.
 */
module Envelope {
  import opened Optional

  /** The `type` field; the program uses exactly these three strings. */
  datatype MessageType = ChatMessage | UserJoined | UserLeft

  function TypeName(t: MessageType): (s: string)
    ensures ParseTypeName(s) == Some(t)
  {
    match t
    case ChatMessage => "chatMessage"
    case UserJoined => "userJoined"
    case UserLeft => "userLeft"
  }

  function ParseTypeName(s: string): Option<MessageType> {
    if s == "chatMessage" then Some(ChatMessage)
    else if s == "userJoined" then Some(UserJoined)
    else if s == "userLeft" then Some(UserLeft)
    else None
  }

  /** `ClientMessage{Type, Message, User}`; Go strings and byte slices are both sequences of characters here. */
  datatype ClientMessage = ClientMessage(kind: MessageType, message: string, user: string)

  /** The fixed `User` the forward path writes into every chat message. */
  const PlaceholderUser: string := "SenderUsername"

  /** broadcastUserJoined's envelope for a participant named `user`. */
  function JoinedNotice(user: string): ClientMessage {
    ClientMessage(UserJoined, user + " joined the chat.", user)
  }

  /** broadcastUserLeft's envelope for a participant named `user`. */
  function LeftNotice(user: string): ClientMessage {
    ClientMessage(UserLeft, user + " left the chat.", user)
  }

  /** The forward path's envelope around raw inbound bytes. */
  function ChatNotice(raw: string): ClientMessage {
    ClientMessage(ChatMessage, raw, PlaceholderUser)
  }

  /** Serialised bytes as they sit on an outbound queue. */
  type Payload = string

  // ---------------------------------------------------------------- hex digits

  function HexDigit(d: nat): char
    requires d < 16
  {
    if d < 10 then ('0' as int + d) as char else ('a' as int + d - 10) as char
  }

  function HexValue(c: char): Option<nat> {
    if '0' <= c <= '9' then Some(c as int - '0' as int)
    else if 'a' <= c <= 'f' then Some(c as int - 'a' as int + 10)
    else if 'A' <= c <= 'F' then Some(c as int - 'A' as int + 10)
    else None
  }

  /** Two lower-case hex digits of a byte, most significant first. */
  function Hex2(b: nat): (s: string)
    requires b < 0x100
    ensures |s| == 2
  {
    [HexDigit(b / 16), HexDigit(b % 16)]
  }

  function ParseHex2(s: string): Option<nat>
    requires |s| == 2
  {
    match (HexValue(s[0]), HexValue(s[1]))
    case (Some(hi), Some(lo)) => Some(hi * 16 + lo)
    case _ => None
  }

  /** Four lower-case hex digits, most significant first. */
  function Hex4(n: nat): (s: string)
    requires n < 0x1_0000
    ensures |s| == 4
  {
    Hex2(n / 0x100) + Hex2(n % 0x100)
  }

  function ParseHex4(s: string): Option<nat>
    requires |s| == 4
  {
    match (ParseHex2(s[..2]), ParseHex2(s[2..]))
    case (Some(hi), Some(lo)) => Some(hi * 0x100 + lo)
    case _ => None
  }

  lemma HexValueOfHexDigit(d: nat)
    requires d < 16
    ensures HexValue(HexDigit(d)) == Some(d)
  {
  }

  lemma ParseHex2OfHex2(b: nat)
    requires b < 0x100
    ensures ParseHex2(Hex2(b)) == Some(b)
  {
    HexValueOfHexDigit(b / 16);
    HexValueOfHexDigit(b % 16);
  }

  lemma ParseHex4OfHex4(n: nat)
    requires n < 0x1_0000
    ensures ParseHex4(Hex4(n)) == Some(n)
  {
    var s := Hex4(n);
    assert s[..2] == Hex2(n / 0x100) && s[2..] == Hex2(n % 0x100);
    ParseHex2OfHex2(n / 0x100);
    ParseHex2OfHex2(n % 0x100);
  }

  // ---------------------------------------------------------------- string escaping

  /** Characters written as `\uXXXX`. */
  predicate UnicodeEscaped(c: char) {
    || (c < ' ' && c != '\n' && c != '\r' && c != '\t')
    || c == '<' || c == '>' || c == '&'
    || c == '\U{2028}' || c == '\U{2029}'
  }

  function EscapeChar(c: char): string {
    if c == '"' then ['\\', '"']
    else if c == '\\' then ['\\', '\\']
    else if c == '\n' then ['\\', 'n']
    else if c == '\r' then ['\\', 'r']
    else if c == '\t' then ['\\', 't']
    else if UnicodeEscaped(c) then ['\\', 'u'] + Hex4(c as int)
    else [c]
  }

  /** The body of a JSON string literal for `s`, without the surrounding quotes. */
  function Escape(s: string): string
    decreases |s|
  {
    if |s| == 0 then [] else EscapeChar(s[0]) + Escape(s[1..])
  }

  predicate IsScalarValue(n: nat) {
    n < 0xD800 || 0xE000 <= n < 0x11_0000
  }

  function Prepend(c: char, r: Option<(string, string)>): Option<(string, string)> {
    match r
    case None => None
    case Some((body, rest)) => Some(([c] + body, rest))
  }

  /**
    Reads the body of a JSON string literal whose opening quote has already been
    consumed: returns the decoded text and what follows the closing quote.
   */
  function ParseString(s: string): Option<(string, string)>
    decreases |s|
  {
    if |s| == 0 then None
    else if s[0] == '"' then Some(([], s[1..]))
    else if s[0] == '\\' then
      if |s| < 2 then None
      else if s[1] == '"' || s[1] == '\\' || s[1] == '/' then Prepend(s[1], ParseString(s[2..]))
      else if s[1] == 'n' then Prepend('\n', ParseString(s[2..]))
      else if s[1] == 'r' then Prepend('\r', ParseString(s[2..]))
      else if s[1] == 't' then Prepend('\t', ParseString(s[2..]))
      else if s[1] == 'b' then Prepend('\U{8}', ParseString(s[2..]))
      else if s[1] == 'f' then Prepend('\U{C}', ParseString(s[2..]))
      else if s[1] == 'u' && |s| >= 6 then
        match ParseHex4(s[2..6])
        case None => None
        case Some(n) => if IsScalarValue(n) then Prepend(n as char, ParseString(s[6..])) else None
      else None
    else if s[0] < ' ' then None
    else Prepend(s[0], ParseString(s[1..]))
  }

  lemma ParseShortEscape(c: char, t: string)
    requires c == '"' || c == '\\' || c == '\n' || c == '\r' || c == '\t'
    ensures ParseString(EscapeChar(c) + t) == Prepend(c, ParseString(t))
  {
    assert (EscapeChar(c) + t)[2..] == t;
  }

  lemma ParseUnicodeEscape(c: char, t: string)
    requires c != '"' && c != '\\' && c != '\n' && c != '\r' && c != '\t' && UnicodeEscaped(c)
    ensures ParseString(EscapeChar(c) + t) == Prepend(c, ParseString(t))
  {
    var s := EscapeChar(c) + t;
    var n := c as int;
    assert s[2..6] == Hex4(n);
    assert s[6..] == t;
    ParseHex4OfHex4(n);
  }

  lemma ParsePlainChar(c: char, t: string)
    requires c != '"' && c != '\\' && c != '\n' && c != '\r' && c != '\t' && !UnicodeEscaped(c)
    ensures ParseString(EscapeChar(c) + t) == Prepend(c, ParseString(t))
  {
    assert (EscapeChar(c) + t)[1..] == t;
  }

  /** Decoding undoes the escape of one character, whatever follows it. */
  lemma ParseEscapeChar(c: char, t: string)
    ensures ParseString(EscapeChar(c) + t) == Prepend(c, ParseString(t))
  {
    if c == '"' || c == '\\' || c == '\n' || c == '\r' || c == '\t' {
      ParseShortEscape(c, t);
    } else if UnicodeEscaped(c) {
      ParseUnicodeEscape(c, t);
    } else {
      ParsePlainChar(c, t);
    }
  }

  lemma {:induction false} ParseEscaped(x: string, t: string)
    ensures ParseString(Escape(x) + ['"'] + t) == Some((x, t))
    decreases |x|
  {
    if |x| == 0 {
      assert Escape(x) + ['"'] + t == ['"'] + t;
    } else {
      assert Escape(x) + ['"'] + t == EscapeChar(x[0]) + (Escape(x[1..]) + ['"'] + t);
      ParseEscapeChar(x[0], Escape(x[1..]) + ['"'] + t);
      ParseEscaped(x[1..], t);
      assert [x[0]] + x[1..] == x;
    }
  }

  // ---------------------------------------------------------------- the envelope

  const TypeOpen: string := "{\"type\":\""
  const MessageOpen: string := ",\"message\":\""
  const UserOpen: string := ",\"user\":\""
  const ObjectClose: string := "}"

  /** One `"key":"value"` member: `open` carries the separator, key and opening quote. */
  function Field(open: string, value: string): string {
    open + Escape(value) + ['"']
  }

  function ParseField(open: string, s: string): Option<(string, string)> {
    if |open| <= |s| && s[..|open|] == open then ParseString(s[|open|..]) else None
  }

  lemma ParseFieldOfField(open: string, value: string, t: string)
    ensures ParseField(open, Field(open, value) + t) == Some((value, t))
  {
    var s := Field(open, value) + t;
    assert s[..|open|] == open;
    assert s[|open|..] == Escape(value) + ['"'] + t;
    ParseEscaped(value, t);
  }

  predicate IsLetter(c: char) {
    'a' <= c <= 'z' || 'A' <= c <= 'Z'
  }

  /** Escaping leaves a string of ASCII letters as it is. */
  lemma {:induction false} EscapeOfLetters(s: string)
    requires forall i :: 0 <= i < |s| ==> IsLetter(s[i])
    ensures Escape(s) == s
    decreases |s|
  {
    if |s| > 0 {
      EscapeOfLetters(s[1..]);
      assert [s[0]] + s[1..] == s;
    }
  }

  /** The three type tags consist of letters only, so escaping leaves them as they are. */
  lemma TypeNameNeedsNoEscape(t: MessageType)
    ensures Escape(TypeName(t)) == TypeName(t)
  {
    EscapeOfLetters(TypeName(t));
  }

  /**
    json.Marshal of a ClientMessage. The type tag is written without running it
    through `Escape`, which would return it unchanged (TypeNameNeedsNoEscape).
   */
  function Marshal(m: ClientMessage): Payload {
    TypeOpen + TypeName(m.kind) + ['"'] + (Field(MessageOpen, m.message) + (Field(UserOpen, m.user) + ObjectClose))
  }

  /** Reads a payload of the shape Marshal writes. */
  function Unmarshal(p: Payload): Option<ClientMessage> {
    match ParseField(TypeOpen, p)
    case None => None
    case Some((typeName, afterType)) =>
      match ParseTypeName(typeName)
      case None => None
      case Some(kind) =>
        match ParseField(MessageOpen, afterType)
        case None => None
        case Some((message, afterMessage)) =>
          match ParseField(UserOpen, afterMessage)
          case None => None
          case Some((user, afterUser)) =>
            if afterUser == ObjectClose then Some(ClientMessage(kind, message, user)) else None
  }

  /** Every envelope survives serialisation: its bytes decode to the very same envelope. */
  lemma UnmarshalMarshal(m: ClientMessage)
    ensures Unmarshal(Marshal(m)) == Some(m)
  {
    var f1 := Field(TypeOpen, TypeName(m.kind));
    var f2 := Field(MessageOpen, m.message);
    var f3 := Field(UserOpen, m.user);
    TypeNameNeedsNoEscape(m.kind);
    assert Marshal(m) == f1 + (f2 + (f3 + ObjectClose));
    ParseFieldOfField(TypeOpen, TypeName(m.kind), f2 + (f3 + ObjectClose));
    ParseFieldOfField(MessageOpen, m.message, f3 + ObjectClose);
    ParseFieldOfField(UserOpen, m.user, ObjectClose);
  }

  /** On the wire, broadcastUserJoined's envelope reads back with its tag, its sentence and the joiner's name. */
  lemma JoinedNoticeOnWire(user: string)
    ensures Unmarshal(Marshal(JoinedNotice(user))) == Some(ClientMessage(UserJoined, user + " joined the chat.", user))
  {
    UnmarshalMarshal(JoinedNotice(user));
  }

  /** On the wire, broadcastUserLeft's envelope reads back with its tag, its sentence and the leaver's name. */
  lemma LeftNoticeOnWire(user: string)
    ensures Unmarshal(Marshal(LeftNotice(user))) == Some(ClientMessage(UserLeft, user + " left the chat.", user))
  {
    UnmarshalMarshal(LeftNotice(user));
  }

  /** On the wire, a forwarded frame reads back as a chat message with the raw text and the placeholder user. */
  lemma ChatNoticeOnWire(raw: string)
    ensures Unmarshal(Marshal(ChatNotice(raw))) == Some(ClientMessage(ChatMessage, raw, "SenderUsername"))
  {
    UnmarshalMarshal(ChatNotice(raw));
  }

  /** Serialisation is injective: different envelopes never share a payload. */
  lemma MarshalInjective(a: ClientMessage, b: ClientMessage)
    ensures Marshal(a) == Marshal(b) ==> a == b
  {
    UnmarshalMarshal(a);
    UnmarshalMarshal(b);
  }
}

/** The reference codec of internal/mcpbridge/office_executor.go.  A reference is
    "microsoft-graph:" + kind + ":" + the object id in unpadded base64url (section 5 of RFC 4648). */
module GraphReference {
  import opened Common

  type Byte = x: int | 0 <= x < 256
  type Sextet = x: int | 0 <= x < 64

  const MAX_ID_BYTES := 2048
  const PREFIX := "microsoft-graph"

  // ---------------------------------------------------------------- base64url

  function Symbol(d: Sextet): char {
    if d < 26 then ('A' as int + d) as char
    else if d < 52 then ('a' as int + d - 26) as char
    else if d < 62 then ('0' as int + d - 52) as char
    else if d == 62 then '-'
    else '_'
  }

  function Value(c: char): Option<Sextet> {
    if 'A' <= c <= 'Z' then Some(c as int - 'A' as int)
    else if 'a' <= c <= 'z' then Some(c as int - 'a' as int + 26)
    else if '0' <= c <= '9' then Some(c as int - '0' as int + 52)
    else if c == '-' then Some(62)
    else if c == '_' then Some(63)
    else None
  }

  function Base64(s: seq<Byte>): string {
    if |s| == 0 then ""
    else if |s| == 1 then [Symbol(s[0] / 4), Symbol(s[0] % 4 * 16)]
    else if |s| == 2 then [Symbol(s[0] / 4), Symbol(s[0] % 4 * 16 + s[1] / 16), Symbol(s[1] % 16 * 4)]
    else
      [Symbol(s[0] / 4), Symbol(s[0] % 4 * 16 + s[1] / 16), Symbol(s[1] % 16 * 4 + s[2] / 64), Symbol(s[2] % 64)]
      + Base64(s[3..])
  }

  /** The library decoder skips line breaks anywhere in its input. */
  function DropLineBreaks(t: string): string {
    if t == "" then ""
    else if t[0] == '\r' || t[0] == '\n' then DropLineBreaks(t[1..])
    else [t[0]] + DropLineBreaks(t[1..])
  }

  function Values(t: string): Option<seq<Sextet>> {
    if t == "" then Some([])
    else
      match (Value(t[0]), Values(t[1..]))
      case (Some(d), Some(ds)) => Some([d] + ds)
      case _ => None
  }

  function High(a: Sextet, b: Sextet): Byte { a as int * 4 + b as int / 16 }

  function Middle(b: Sextet, c: Sextet): Byte { b as int % 16 * 16 + c as int / 4 }

  function Low(c: Sextet, d: Sextet): Byte { c as int % 4 * 64 + d as int }

  /** A group of four sextets gives three bytes; a last group of two or three gives one or two,
      its unused low bits being ignored; a last group of one is malformed. */
  function Pack(d: seq<Sextet>): Option<seq<Byte>> {
    if |d| == 0 then Some([])
    else if |d| == 1 then None
    else if |d| == 2 then Some([High(d[0], d[1])])
    else if |d| == 3 then Some([High(d[0], d[1]), Middle(d[1], d[2])])
    else
      match Pack(d[4..])
      case Some(rest) => Some([High(d[0], d[1]), Middle(d[1], d[2]), Low(d[2], d[3])] + rest)
      case None => None
  }

  function DecodeBase64(t: string): Option<seq<Byte>> {
    match Values(DropLineBreaks(t))
    case Some(d) => Pack(d)
    case None => None
  }

  lemma SymbolRoundTrip(d: Sextet)
    ensures Value(Symbol(d)) == Some(d)
    ensures Symbol(d) != '\r' && Symbol(d) != '\n' && Symbol(d) != ':'
  {
  }

  /** The sextets Base64 writes, before they become characters. */
  function Sextets(s: seq<Byte>): seq<Sextet> {
    if |s| == 0 then []
    else if |s| == 1 then [s[0] / 4, s[0] % 4 * 16]
    else if |s| == 2 then [s[0] / 4, s[0] % 4 * 16 + s[1] / 16, s[1] % 16 * 4]
    else [s[0] / 4, s[0] % 4 * 16 + s[1] / 16, s[1] % 16 * 4 + s[2] / 64, s[2] % 64] + Sextets(s[3..])
  }

  function Spell(d: seq<Sextet>): string {
    if d == [] then "" else [Symbol(d[0])] + Spell(d[1..])
  }

  lemma {:induction false} SpellConcat(a: seq<Sextet>, b: seq<Sextet>)
    ensures Spell(a + b) == Spell(a) + Spell(b)
  {
    if a == [] {
      assert a + b == b;
    } else {
      assert (a + b)[1..] == a[1..] + b;
      SpellConcat(a[1..], b);
    }
  }

  lemma SpellTwo(a: Sextet, b: Sextet)
    ensures Spell([a]) == [Symbol(a)]
    ensures Spell([a, b]) == [Symbol(a), Symbol(b)]
  {
    assert [a][1..] == [] && [a, b][1..] == [b];
    assert Spell([b]) == [Symbol(b)] by { assert [b][1..] == []; }
  }

  lemma {:induction false} Base64Spells(s: seq<Byte>)
    ensures Base64(s) == Spell(Sextets(s))
  {
    if |s| == 1 {
      SpellTwo(s[0] / 4, s[0] % 4 * 16);
    } else if |s| == 2 {
      var d := Sextets(s);
      assert d == [d[0], d[1]] + [d[2]];
      SpellTwo(d[0], d[1]);
      SpellTwo(d[2], d[2]);
      SpellConcat([d[0], d[1]], [d[2]]);
    } else if |s| > 2 {
      var d := Sextets(s)[..4];
      assert d == [d[0], d[1]] + [d[2], d[3]];
      SpellTwo(d[0], d[1]);
      SpellTwo(d[2], d[3]);
      SpellConcat([d[0], d[1]], [d[2], d[3]]);
      assert Sextets(s) == d + Sextets(s[3..]);
      SpellConcat(d, Sextets(s[3..]));
      Base64Spells(s[3..]);
    }
  }

  lemma {:induction false} SpellIsRead(d: seq<Sextet>)
    ensures DropLineBreaks(Spell(d)) == Spell(d)
    ensures Values(Spell(d)) == Some(d)
    ensures ':' !in Spell(d)
  {
    if d != [] {
      SymbolRoundTrip(d[0]);
      SpellIsRead(d[1..]);
      assert Spell(d)[1..] == Spell(d[1..]);
      assert [d[0]] + d[1..] == d;
    }
  }

  lemma {:induction false} PackSextets(s: seq<Byte>)
    ensures Pack(Sextets(s)) == Some(s)
  {
    var d := Sextets(s);
    if |s| == 1 {
      assert High(d[0], d[1]) == s[0] && s == [s[0]];
    } else if |s| == 2 {
      assert High(d[0], d[1]) == s[0] && Middle(d[1], d[2]) == s[1] && s == [s[0], s[1]];
    } else if |s| > 2 {
      assert d[4..] == Sextets(s[3..]);
      PackSextets(s[3..]);
      assert High(d[0], d[1]) == s[0] && Middle(d[1], d[2]) == s[1] && Low(d[2], d[3]) == s[2];
      assert s == [s[0], s[1], s[2]] + s[3..];
    }
  }

  /** Decoding inverts encoding on every byte string. */
  lemma {:induction false} Base64RoundTrip(s: seq<Byte>)
    ensures DecodeBase64(Base64(s)) == Some(s)
    ensures ':' !in Base64(s)
  {
    Base64Spells(s);
    SpellIsRead(Sextets(s));
    PackSextets(s);
  }

  /** The symbols are those of section 5 of RFC 4648, in its order: capitals, small letters, digits, and two more. */
  lemma SymbolsAreTheAlphabet(d: Sextet)
    ensures Symbol(0) == 'A' && Symbol(25) == 'Z' && Symbol(26) == 'a' && Symbol(51) == 'z'
    ensures Symbol(52) == '0' && Symbol(61) == '9' && Symbol(62) == '-' && Symbol(63) == '_'
    ensures d !in {25, 51, 61, 62, 63} ==> Symbol(d + 1) as int == Symbol(d) as int + 1
  {
  }

  lemma Digits24(a: Byte, b: Byte, c: Byte)
    ensures a * 65_536 + b * 256 + c ==
      a / 4 * 262_144 + (a % 4 * 16 + b / 16) * 4_096 + (b % 16 * 4 + c / 64) * 64 + c % 64
  {
    assert a == a / 4 * 4 + a % 4;
    assert b == b / 16 * 16 + b % 16;
    assert c == c / 64 * 64 + c % 64;
  }

  /** Three bytes are four symbols for the same 24 bits, most significant first. */
  lemma BytesAreSextets(a: Byte, b: Byte, c: Byte, rest: seq<Byte>) returns (p: Sextet, q: Sextet, r: Sextet, t: Sextet)
    ensures a * 65_536 + b * 256 + c == p * 262_144 + q * 4_096 + r * 64 + t
    ensures Base64([a, b, c] + rest) == [Symbol(p), Symbol(q), Symbol(r), Symbol(t)] + Base64(rest)
  {
    hide Symbol;
    p, q, r, t := a / 4, a % 4 * 16 + b / 16, b % 16 * 4 + c / 64, c % 64;
    Digits24(a, b, c);
    var s := [a, b, c] + rest;
    assert s[0] == a && s[1] == b && s[2] == c && s[3..] == rest;
  }

  /** One or two last bytes are two or three symbols for their bits, with zeros below. */
  lemma LastBytesAreSextets(a: Byte, b: Byte) returns (p: Sextet, q: Sextet, x: Sextet, y: Sextet, z: Sextet)
    ensures Base64([]) == ""
    ensures a * 16 == p * 64 + q && Base64([a]) == [Symbol(p), Symbol(q)]
    ensures (a * 256 + b) * 4 == x * 4_096 + y * 64 + z && Base64([a, b]) == [Symbol(x), Symbol(y), Symbol(z)]
  {
    hide Symbol;
    p, q := a / 4, a % 4 * 16;
    x, y, z := a / 4, a % 4 * 16 + b / 16, b % 16 * 4;
  }

  lemma {:induction false} DroppedApart(a: string, b: string)
    ensures DropLineBreaks(a + b) == DropLineBreaks(a) + DropLineBreaks(b)
  {
    if a == "" {
      assert a + b == b;
    } else {
      assert (a + b)[1..] == a[1..] + b;
      DroppedApart(a[1..], b);
    }
  }

  /** A line break anywhere makes no difference to the decoder. */
  lemma LineBreaksAreIgnored(a: string, c: char, b: string)
    requires c == '\r' || c == '\n'
    ensures DecodeBase64(a + ([c] + b)) == DecodeBase64(a + b)
  {
    DroppedApart(a, [c] + b);
    DroppedApart(a, b);
    assert ([c] + b)[1..] == b;
  }

  // ---------------------------------------------------------------- references

  function Split(t: string, separator: char): (parts: seq<string>)
    ensures |parts| > 0
  {
    if t == "" then [""]
    else
      var rest := Split(t[1..], separator);
      if t[0] == separator then [""] + rest else [[t[0]] + rest[0]] + rest[1..]
  }

  predicate ValidId(id: seq<Byte>) {
    0 < |id| <= MAX_ID_BYTES && '\r' as int !in id && '\n' as int !in id
  }

  function Encode(kind: string, id: seq<Byte>): string {
    PREFIX + ":" + kind + ":" + Base64(id)
  }

  function Decode(reference: string, expectedKind: string): Option<seq<Byte>> {
    var parts := Split(reference, ':');
    if |parts| != 3 || parts[0] != PREFIX || parts[1] != expectedKind then None
    else
      match DecodeBase64(parts[2])
      case Some(id) => if ValidId(id) then Some(id) else None
      case None => None
  }

  lemma {:induction false} SplitAtSeparator(head: string, tail: string, separator: char)
    requires separator !in head
    ensures Split(head + [separator] + tail, separator) == [head] + Split(tail, separator)
  {
    var t := head + [separator] + tail;
    if head == "" {
      assert t[1..] == tail;
    } else {
      assert t[1..] == head[1..] + [separator] + tail;
      SplitAtSeparator(head[1..], tail, separator);
      assert [t[0]] + head[1..] == head;
    }
  }

  lemma {:induction false} SplitWithoutSeparator(t: string, separator: char)
    requires separator !in t
    ensures Split(t, separator) == [t]
  {
    if t != "" {
      SplitWithoutSeparator(t[1..], separator);
      assert [t[0]] + t[1..] == t;
    }
  }

  lemma {:induction false} SplitCountsSeparators(t: string, separator: char)
    ensures |Split(t, separator)| == 1 + multiset(t)[separator]
  {
    if t != "" {
      assert t == [t[0]] + t[1..];
      SplitCountsSeparators(t[1..], separator);
    }
  }

  /** A colon in the kind gives the reference a fourth part. */
  lemma {:induction false} ColonKindSplits(kind: string, payload: string)
    requires ':' in kind
    ensures |Split(PREFIX + ":" + kind + ":" + payload, ':')| > 3
  {
    var rest := kind + ":" + payload;
    assert PREFIX + ":" + kind + ":" + payload == PREFIX + ":" + rest;
    SplitAtSeparator(PREFIX, rest, ':');
    SplitCountsSeparators(rest, ':');
    assert rest == kind + (":" + payload);
    assert multiset(rest) == multiset(kind) + multiset(":" + payload);
    assert (":" + payload)[0] == ':';
    assert multiset(":" + payload)[':'] > 0 && multiset(kind)[':'] > 0;
  }

  lemma {:induction false} PlainKindSplits(kind: string, payload: string)
    requires ':' !in kind && ':' !in payload
    ensures Split(PREFIX + ":" + kind + ":" + payload, ':') == [PREFIX, kind, payload]
  {
    var rest := kind + ":" + payload;
    assert PREFIX + ":" + kind + ":" + payload == PREFIX + ":" + rest;
    assert forall i | 0 <= i < |PREFIX| :: PREFIX[i] != ':';
    SplitAtSeparator(PREFIX, rest, ':');
    SplitAtSeparator(kind, payload, ':');
    SplitWithoutSeparator(payload, ':');
  }

  /** What decoding an encoded reference gives, for every kind, expected kind and id: the id back
      exactly when the kinds agree, the kind holds no colon and the id is one Graph would issue. */
  lemma {:induction false} ReferenceRoundTrip(kind: string, id: seq<Byte>, expectedKind: string)
    ensures Decode(Encode(kind, id), expectedKind)
         == if kind == expectedKind && ':' !in kind && 1 <= |id| <= 2048 && 10 !in id && 13 !in id then Some(id)
            else None
  {
    var payload := Base64(id);
    Base64RoundTrip(id);
    assert Encode(kind, id) == PREFIX + ":" + kind + ":" + payload;
    if ':' in kind {
      ColonKindSplits(kind, payload);
    } else {
      PlainKindSplits(kind, payload);
    }
  }

  /** Different objects never share a reference. */
  lemma {:induction false} EncodeInjective(kind: string, a: seq<Byte>, b: seq<Byte>)
    ensures Encode(kind, a) == Encode(kind, b) <==> a == b
    ensures "microsoft-graph:" + kind + ":" <= Encode(kind, a)
  {
    var head := PREFIX + ":" + kind + ":";
    if Encode(kind, a) == Encode(kind, b) {
      assert Base64(a) == Encode(kind, a)[|head|..] == Encode(kind, b)[|head|..] == Base64(b);
      Base64RoundTrip(a);
      Base64RoundTrip(b);
    }
  }
}

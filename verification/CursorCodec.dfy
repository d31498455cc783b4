/**
 Opaque cursors: base64url without padding (sections 3.2 and 5 of RFC 4648) around a payload bound to its
 collection, parent and order.  JSON is a pair of functions with a round trip.
 */
module CursorCodec {
  import opened Common

  type Byte = b: int | 0 <= b < 256

  // ---- base64url -------------------------------------------------------------------------

  function Letter(n: int): char
    requires 0 <= n < 64
  {
    if n < 26 then ('A' as int + n) as char
    else if n < 52 then ('a' as int + n - 26) as char
    else if n < 62 then ('0' as int + n - 52) as char
    else if n == 62 then '-' else '_'
  }

  function Value(c: char): Option<Sextet> {
    if 'A' <= c <= 'Z' then Some(c as int - 'A' as int)
    else if 'a' <= c <= 'z' then Some(c as int - 'a' as int + 26)
    else if '0' <= c <= '9' then Some(c as int - '0' as int + 52)
    else if c == '-' then Some(62)
    else if c == '_' then Some(63)
    else None
  }

  lemma LetterRoundTrip(n: int)
    requires 0 <= n < 64
    ensures Value(Letter(n)) == Some(n) && Letter(n) != '='
  {
  }

  function Equals(n: nat): string {
    seq(n, i => '=')
  }

  type Sextet = n: int | 0 <= n < 64

  datatype Four = Four(a: Sextet, b: Sextet, c: Sextet, d: Sextet)

  datatype Three = Three(x: Byte, y: Byte, z: Byte)

  /** Twenty-four bits as three bytes and as four sextets. */
  function Split(t: Three): Four {
    Four(t.x / 4, t.x % 4 * 16 + t.y / 16, t.y % 16 * 4 + t.z / 64, t.z % 64)
  }

  function Merge(f: Four): Three {
    Three(f.a * 4 + f.b / 16, f.b % 16 * 16 + f.c / 4, f.c % 4 * 64 + f.d)
  }

  lemma Quotient16(q: int, r: int)
    requires 0 <= r < 16
    ensures (q * 16 + r) / 16 == q && (q * 16 + r) % 16 == r
  {
  }

  lemma Quotient4(q: int, r: int)
    requires 0 <= r < 4
    ensures (q * 4 + r) / 4 == q && (q * 4 + r) % 4 == r
  {
  }

  lemma MergeSplit(t: Three)
    ensures Merge(Split(t)) == t
  {
    var f := Split(t);
    Quotient16(t.x % 4, t.y / 16);
    Quotient4(t.y % 16, t.z / 64);
    assert f.b / 16 == t.x % 4 && f.b % 16 == t.y / 16;
    assert f.c / 4 == t.y % 16 && f.c % 4 == t.z / 64;
  }

  /** Three bytes make four letters; a last group of one or two bytes, filled with zeros, makes two or three. */
  function Unpadded(bytes: seq<Byte>): string {
    if |bytes| == 0 then ""
    else if |bytes| == 1 then var f := Split(Three(bytes[0], 0, 0)); [Letter(f.a), Letter(f.b)]
    else if |bytes| == 2 then var f := Split(Three(bytes[0], bytes[1], 0)); [Letter(f.a), Letter(f.b), Letter(f.c)]
    else Letters(Split(Three(bytes[0], bytes[1], bytes[2]))) + Unpadded(bytes[3..])
  }

  function Letters(f: Four): string {
    [Letter(f.a), Letter(f.b), Letter(f.c), Letter(f.d)]
  }

  /** The padding of the last group. */
  function Padding(n: nat): nat {
    if n % 3 == 0 then 0 else 3 - n % 3
  }

  function Encode(bytes: seq<Byte>): string {
    Unpadded(bytes) + Equals(Padding(|bytes|))
  }

  function Strip(s: string): string {
    if s != "" && s[|s| - 1] == '=' then Strip(s[..|s| - 1]) else s
  }

  /** As many padding characters as the length is short of a multiple of four. */
  function Restore(s: string): string {
    s + Equals((4 - |s| % 4) % 4)
  }

  function Decode(s: string): Option<seq<Byte>> {
    if |s| == 0 then Some([])
    else if |s| < 4 || Value(s[0]).None? || Value(s[1]).None? then None
    else
      var a, b := Value(s[0]).value, Value(s[1]).value;
      if |s| == 4 && s[2] == '=' && s[3] == '=' then Some([Merge(Four(a, b, 0, 0)).x])
      else if Value(s[2]).None? then None
      else if |s| == 4 && s[3] == '=' then
        var t := Merge(Four(a, b, Value(s[2]).value, 0));
        Some([t.x, t.y])
      else if Value(s[3]).None? || Decode(s[4..]).None? then None
      else
        var t := Merge(Four(a, b, Value(s[2]).value, Value(s[3]).value));
        Some([t.x, t.y, t.z] + Decode(s[4..]).value)
  }

  lemma {:induction false} UnpaddedLength(bytes: seq<Byte>)
    ensures |Unpadded(bytes)| == |bytes| / 3 * 4 + if |bytes| % 3 == 0 then 0 else |bytes| % 3 + 1
  {
    if |bytes| >= 3 {
      UnpaddedLength(bytes[3..]);
      assert |bytes[3..]| % 3 == |bytes| % 3 && |bytes[3..]| / 3 == |bytes| / 3 - 1;
    }
  }

  lemma {:induction false} UnpaddedEnd(bytes: seq<Byte>)
    requires bytes != []
    ensures Unpadded(bytes) != "" && Unpadded(bytes)[|Unpadded(bytes)| - 1] != '='
  {
    if |bytes| == 1 {
      LetterRoundTrip(Split(Three(bytes[0], 0, 0)).b);
    } else if |bytes| == 2 {
      LetterRoundTrip(Split(Three(bytes[0], bytes[1], 0)).c);
    } else if |bytes| == 3 {
      LetterRoundTrip(Split(Three(bytes[0], bytes[1], bytes[2])).d);
      assert Unpadded(bytes[3..]) == "";
    } else {
      UnpaddedEnd(bytes[3..]);
    }
  }

  lemma {:induction false} StripsEquals(s: string, n: nat)
    requires s != "" ==> s[|s| - 1] != '='
    ensures Strip(s + Equals(n)) == s
  {
    if n == 0 {
      assert s + Equals(0) == s;
    } else {
      assert (s + Equals(n))[..|s| + n - 1] == s + Equals(n - 1);
      StripsEquals(s, n - 1);
    }
  }

  lemma PaddingCount(n: nat, length: nat)
    requires length == n / 3 * 4 + if n % 3 == 0 then 0 else n % 3 + 1
    ensures (4 - length % 4) % 4 == Padding(n)
  {
  }

  /** Padding that was stripped is restored exactly by the length modulo four. */
  lemma PaddingRestored(bytes: seq<Byte>)
    ensures Restore(Strip(Encode(bytes))) == Encode(bytes)
  {
    UnpaddedLength(bytes);
    if bytes != [] {
      UnpaddedEnd(bytes);
    }
    StripsEquals(Unpadded(bytes), Padding(|bytes|));
    PaddingCount(|bytes|, |Unpadded(bytes)|);
  }

  lemma LettersRoundTrip(f: Four)
    ensures Value(Letter(f.a)) == Some(f.a) && Value(Letter(f.b)) == Some(f.b) && Value(Letter(f.c)) == Some(f.c)
    ensures Value(Letter(f.d)) == Some(f.d)
    ensures Letter(f.c) != '=' && Letter(f.d) != '='
  {
    LetterRoundTrip(f.a);
    LetterRoundTrip(f.b);
    LetterRoundTrip(f.c);
    LetterRoundTrip(f.d);
  }

  /** One full group of letters carries its three bytes. */
  lemma GroupRoundTrip(t: Three, rest: string)
    requires Decode(rest).Some?
    ensures Decode(Letters(Split(t)) + rest) == Some([t.x, t.y, t.z] + Decode(rest).value)
  {
    LettersRoundTrip(Split(t));
    MergeSplit(t);
    assert (Letters(Split(t)) + rest)[4..] == rest;
  }

  lemma TwoRoundTrip(x: Byte, y: Byte)
    ensures var f := Split(Three(x, y, 0)); Decode([Letter(f.a), Letter(f.b), Letter(f.c), '=']) == Some([x, y])
  {
    LettersRoundTrip(Split(Three(x, y, 0)));
    MergeSplit(Three(x, y, 0));
  }

  lemma OneRoundTrip(x: Byte)
    ensures var f := Split(Three(x, 0, 0)); Decode([Letter(f.a), Letter(f.b), '=', '=']) == Some([x])
  {
    LettersRoundTrip(Split(Three(x, 0, 0)));
    MergeSplit(Three(x, 0, 0));
  }

  lemma EncodeGroup(bytes: seq<Byte>)
    requires |bytes| >= 3
    ensures Encode(bytes) == Letters(Split(Three(bytes[0], bytes[1], bytes[2]))) + Encode(bytes[3..])
  {
    assert |bytes[3..]| % 3 == |bytes| % 3;
  }

  lemma {:induction false} Base64RoundTrip(bytes: seq<Byte>)
    ensures Decode(Encode(bytes)) == Some(bytes)
  {
    if |bytes| >= 3 {
      Base64RoundTrip(bytes[3..]);
      EncodeGroup(bytes);
      GroupRoundTrip(Three(bytes[0], bytes[1], bytes[2]), Encode(bytes[3..]));
      assert [bytes[0], bytes[1], bytes[2]] + bytes[3..] == bytes;
    } else if |bytes| == 2 {
      TwoRoundTrip(bytes[0], bytes[1]);
      var f := Split(Three(bytes[0], bytes[1], 0));
      assert bytes == [bytes[0], bytes[1]];
      assert Encode(bytes) == [Letter(f.a), Letter(f.b), Letter(f.c), '='];
    } else if |bytes| == 1 {
      OneRoundTrip(bytes[0]);
      var f := Split(Three(bytes[0], 0, 0));
      assert bytes == [bytes[0]];
      assert Encode(bytes) == [Letter(f.a), Letter(f.b), '=', '='];
    }
  }

  // ---- cursors ---------------------------------------------------------------------------

  datatype Part = Text(text: string) | Number(number: int)

  /** What a cursor is bound to. */
  datatype Scope = Scope(collection: string, parent: Option<string>, order: string)

  datatype Payload = Payload(version: int, scope: Scope, after: seq<Part>)

  datatype Json = Json(dumps: Payload -> seq<Byte>, loads: seq<Byte> -> Option<Payload>) {
    ghost predicate RoundTrips() {
      forall p :: loads(dumps(p)) == Some(p)
    }
  }

  datatype Decoded = Absent | Cursor(after: seq<string>) | Invalid

  function EncodeCursor(json: Json, scope: Scope, after: seq<Part>): string {
    Strip(Encode(json.dumps(Payload(1, scope, after))))
  }

  function DecodeCursor(json: Json, show: Part -> string, value: Option<string>, scope: Scope, parts: nat): Decoded {
    if value.None? then Absent
    else
      var raw := Decode(Restore(value.value));
      if raw.None? then Invalid
      else
        var payload := json.loads(raw.value);
        if payload.None? || payload.value.version != 1 || payload.value.scope != scope
           || |payload.value.after| != parts then Invalid
        else Cursor(seq(parts, i requires 0 <= i < parts => show(payload.value.after[i])))
  }

  /**
   In its own scope a cursor decodes to its key parts as strings; in any other scope, or for another number of parts, it
   is refused.
   */
  lemma CursorRoundTrip(json: Json, show: Part -> string, scope: Scope, after: seq<Part>, asked: Scope, parts: nat)
    requires json.RoundTrips()
    ensures DecodeCursor(json, show, Some(EncodeCursor(json, scope, after)), asked, parts) ==
            if asked == scope && parts == |after|
               then Cursor(seq(|after|, i requires 0 <= i < |after| => show(after[i]))) else Invalid
  {
    var payload := Payload(1, scope, after);
    PaddingRestored(json.dumps(payload));
    Base64RoundTrip(json.dumps(payload));
    assert json.loads(json.dumps(payload)) == Some(payload);
  }
}

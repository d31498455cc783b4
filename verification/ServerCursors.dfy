/** The codec pages are cut with: the opaque cursors of one collection, applied to (created_at, id) keys. */
module ServerCursors {
  import opened Common
  import opened CursorCodec
  import opened Pagination

  /** The text of the two key parts: an ISO time and an id. */
  datatype KeyText = KeyText(showTime: int -> string, readTime: string -> Option<int>, showId: nat -> string,
    readId: string -> Option<nat>) {
    ghost predicate RoundTrips() {
      (forall t :: readTime(showTime(t)) == Some(t)) && (forall i: nat :: readId(showId(i)) == Some(i))
    }

    function Parts(k: Key): seq<Part> {
      [Text(showTime(k.at)), Text(showId(k.id))]
    }

    function Read(after: seq<string>): Option<Key> {
      if |after| != 2 || readTime(after[0]).None? || readId(after[1]).None? then None
      else Some(Key(readTime(after[0]).value, readId(after[1]).value))
    }
  }

  /** Part texts stay as they are; only numbers are formatted. */
  function Shown(digits: int -> string): Part -> string {
    (p: Part) => if p.Text? then p.text else digits(p.number)
  }

  function ReadCursor(json: Json, digits: int -> string, scope: Scope, text: KeyText, cursor: string): Option<Key> {
    match DecodeCursor(json, Shown(digits), Some(cursor), scope, 2)
    case Cursor(after) => text.Read(after)
    case _ => None
  }

  /** The cursors of one collection under one parent in one order. */
  function ServerCodec(json: Json, digits: int -> string, scope: Scope, text: KeyText): Codec {
    Codec(k => EncodeCursor(json, scope, text.Parts(k)), cursor => ReadCursor(json, digits, scope, text, cursor))
  }

  lemma CodecRoundTrips(json: Json, digits: int -> string, scope: Scope, text: KeyText)
    requires json.RoundTrips() && text.RoundTrips()
    ensures ServerCodec(json, digits, scope, text).RoundTrips()
  {
    var codec := ServerCodec(json, digits, scope, text);
    forall k ensures codec.decode(codec.encode(k)) == Some(k) {
      CursorRoundTrip(json, Shown(digits), scope, text.Parts(k), scope, 2);
      assert text.readTime(text.showTime(k.at)) == Some(k.at) && text.readId(text.showId(k.id)) == Some(k.id);
    }
  }

  // ---- a text form that meets the law ----------------------------------------------------

  function ReadNat(s: string): Option<nat> {
    if s == "" || !('0' <= s[|s| - 1] <= '9') then None
    else
      var last := s[|s| - 1] as int - 48;
      if |s| == 1 then Some(last)
      else
        var front := ReadNat(s[..|s| - 1]);
        if front.None? then None else Some(front.value * 10 + last)
  }

  function ShowInt(n: int): string {
    if n < 0 then "-" + Digits(-n) else Digits(n)
  }

  function ReadInt(s: string): Option<int> {
    var negative := s != "" && s[0] == '-';
    var n := ReadNat(if negative then s[1..] else s);
    if n.None? then None
    else
      var value: int := n.value;
      Some(if negative then -value else value)
  }

  lemma {:induction false} DigitsRoundTrip(n: nat)
    ensures ReadNat(Digits(n)) == Some(n) && Digits(n) != "" && Digits(n)[0] != '-'
  {
    if n >= 10 {
      DigitsRoundTrip(n / 10);
      var s := Digits(n);
      assert s[..|s| - 1] == Digits(n / 10);
    }
  }

  /** Decimal numbers, for times in microseconds and for ids. */
  const DECIMAL := KeyText(ShowInt, ReadInt, Digits, ReadNat)

  lemma DecimalRoundTrips()
    ensures DECIMAL.RoundTrips()
  {
    forall t ensures ReadInt(ShowInt(t)) == Some(t) {
      DigitsRoundTrip(if t < 0 then -t else t);
      if t < 0 {
        assert ShowInt(t)[1..] == Digits(-t);
      }
    }
    forall i: nat ensures ReadNat(Digits(i)) == Some(i) {
      DigitsRoundTrip(i);
    }
  }
}

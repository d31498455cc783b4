/** Keyset pages, forwards for collections and backwards for transcripts, against the listing they cut up. */
module Pagination {
  import opened Common

  /** (created_at, id), the time in microseconds. */
  datatype Key = Key(at: int, id: nat)

  predicate Below(a: Key, b: Key) {
    a.at < b.at || (a.at == b.at && a.id < b.id)
  }

  datatype Row = Row(key: Key, value: string)

  ghost predicate Ascending(rows: seq<Row>) {
    forall i, j :: 0 <= i < j < |rows| ==> Below(rows[i].key, rows[j].key)
  }

  // ---- the queries -----------------------------------------------------------------------

  /** WHERE key > after ORDER BY key, over rows kept in that order. */
  function Above(rows: seq<Row>, after: Key): seq<Row> {
    if rows == [] then [] else (if Below(after, rows[0].key) then [rows[0]] else []) + Above(rows[1..], after)
  }

  /** WHERE key < before. */
  function Under(rows: seq<Row>, before: Key): seq<Row> {
    if rows == [] then [] else (if Below(rows[0].key, before) then [rows[0]] else []) + Under(rows[1..], before)
  }

  /** The first n rows above a key, or of all. */
  function RowsAfter(rows: seq<Row>, after: Option<Key>, n: nat): seq<Row> {
    var above := if after.None? then rows else Above(rows, after.value);
    above[..Least(|above|, n)]
  }

  /** The newest n rows under a key, or of all, oldest first. */
  function RowsBefore(rows: seq<Row>, before: Option<Key>, n: nat): seq<Row> {
    var under := if before.None? then rows else Under(rows, before.value);
    under[|under| - Least(|under|, n)..]
  }

  /** Any key cuts an ascending listing in two: what is not above it, and what is. */
  lemma {:induction false} AboveIsSuffix(rows: seq<Row>, after: Key, n: nat)
    requires n <= |rows| && (forall i :: 0 <= i < n ==> !Below(after, rows[i].key))
    requires forall i :: n <= i < |rows| ==> Below(after, rows[i].key)
    ensures Above(rows, after) == rows[n..]
  {
    if rows != [] {
      AboveIsSuffix(rows[1..], after, if n == 0 then 0 else n - 1);
      if n > 0 {
        assert rows[1..][n - 1..] == rows[n..];
      }
    }
  }

  lemma {:induction false} UnderIsPrefix(rows: seq<Row>, before: Key, n: nat)
    requires n <= |rows| && (forall i :: 0 <= i < n ==> Below(rows[i].key, before))
    requires forall i :: n <= i < |rows| ==> !Below(rows[i].key, before)
    ensures Under(rows, before) == rows[..n]
  {
    if rows != [] {
      UnderIsPrefix(rows[1..], before, if n == 0 then 0 else n - 1);
      if n > 0 {
        assert rows[..n] == [rows[0]] + rows[1..][..n - 1];
      }
    }
  }

  // ---- forwards --------------------------------------------------------------------------

  datatype Page = Page(items: seq<Row>, next: Option<string>)

  /**
   Keys to opaque cursors and back; `ServerCursors.CodecRoundTrips` discharges the law for the server's own cursors.
   */
  datatype Codec = Codec(encode: Key -> string, decode: string -> Option<Key>) {
    ghost predicate RoundTrips() {
      forall k :: decode(encode(k)) == Some(k)
    }
  }

  /** A page cut from one row more than the limit. */
  function CutNext(queried: seq<Row>, limit: nat, codec: Codec): Page {
    var page := queried[..Least(limit, |queried|)];
    Page(page, if |queried| > limit && page != [] then Some(codec.encode(page[|page| - 1].key)) else None)
  }

  function FetchPage(rows: seq<Row>, limit: nat, codec: Codec, cursor: Option<string>): Option<Page> {
    if cursor.Some? && codec.decode(cursor.value).None? then None
    else
      var after := if cursor.None? then None else codec.decode(cursor.value);
      Some(CutNext(RowsAfter(rows, after, limit + 1), limit, codec))
  }

  /** What a page shows: the rows from i to end, and a cursor if rows are left. */
  function NextPage(rows: seq<Row>, codec: Codec, i: nat, end: nat): Page
    requires i <= end <= |rows|
  {
    Page(rows[i..end], if 0 < end < |rows| then Some(codec.encode(rows[end - 1].key)) else None)
  }

  lemma CutIsNext(rows: seq<Row>, limit: nat, codec: Codec, i: nat)
    requires i <= |rows| && limit >= 1
    ensures CutNext(rows[i..Least(|rows|, i + limit + 1)], limit, codec)
         == NextPage(rows, codec, i, Least(|rows|, i + limit))
  {
    var end, queried := Least(|rows|, i + limit), rows[i..Least(|rows|, i + limit + 1)];
    assert queried[..Least(limit, |queried|)] == rows[i..end];
  }

  lemma AfterRow(rows: seq<Row>, i: nat, n: nat)
    requires Ascending(rows) && i <= |rows|
    ensures RowsAfter(rows, if i == 0 then None else Some(rows[i - 1].key), n) == rows[i..Least(|rows|, i + n)]
  {
    if i > 0 {
      AboveIsSuffix(rows, rows[i - 1].key, i);
    }
    assert rows[i..][..Least(|rows| - i, n)] == rows[i..Least(|rows|, i + n)];
  }

  /** From the cursor of row i - 1 the server returns the next rows and, if any are left, the cursor of the last one. */
  lemma PageFrom(rows: seq<Row>, limit: nat, codec: Codec, i: nat)
    requires Ascending(rows) && limit >= 1 && codec.RoundTrips() && i <= |rows|
    ensures var cursor := if i == 0 then None else Some(codec.encode(rows[i - 1].key));
            FetchPage(rows, limit, codec, cursor) == Some(NextPage(rows, codec, i, Least(|rows|, i + limit)))
  {
    AfterRow(rows, i, limit + 1);
    CutIsNext(rows, limit, codec, i);
    if i > 0 {
      assert codec.decode(codec.encode(rows[i - 1].key)) == Some(rows[i - 1].key);
    }
  }

  lemma EncodeInjective(codec: Codec, a: Key, b: Key)
    requires codec.RoundTrips() && codec.encode(a) == codec.encode(b)
    ensures a == b
  {
    assert codec.decode(codec.encode(a)) == Some(a);
    assert codec.decode(codec.encode(b)) == Some(b);
  }

  datatype Listing = Complete(items: seq<Row>) | Repeated

  /** Every cursor seen is that of a row before the n-th. */
  ghost predicate SeenBefore(rows: seq<Row>, codec: Codec, seen: set<string>, n: int) {
    forall c :: c in seen ==> exists k :: 0 <= k < n && k < |rows| && c == codec.encode(rows[k].key)
  }

  lemma SeeOne(rows: seq<Row>, codec: Codec, seen: set<string>, n: nat, m: int)
    requires SeenBefore(rows, codec, seen, n) && n < |rows| && n < m
    ensures SeenBefore(rows, codec, seen + {codec.encode(rows[n].key)}, m)
  {
  }

  /** Cursors of earlier rows differ from the cursor of a later one. */
  lemma NotSeen(rows: seq<Row>, codec: Codec, seen: set<string>, n: nat)
    requires Ascending(rows) && codec.RoundTrips() && n < |rows| && SeenBefore(rows, codec, seen, n)
    ensures codec.encode(rows[n].key) !in seen
  {
    forall k | 0 <= k < n ensures codec.encode(rows[k].key) != codec.encode(rows[n].key) {
      assert Below(rows[k].key, rows[n].key);
      if codec.encode(rows[k].key) == codec.encode(rows[n].key) {
        EncodeInjective(codec, rows[k].key, rows[n].key);
      }
    }
  }

  /** One request of the client, which knows only the cursor. */
  method Request(rows: seq<Row>, limit: nat, codec: Codec, cursor: Option<string>, ghost i: nat) returns (page: Page)
    requires Ascending(rows) && limit >= 1 && codec.RoundTrips() && i <= |rows|
    requires cursor == if i == 0 then None else Some(codec.encode(rows[i - 1].key))
    ensures page == NextPage(rows, codec, i, Least(|rows|, i + limit))
  {
    PageFrom(rows, limit, codec, i);
    page := FetchPage(rows, limit, codec, cursor).value;
  }

  lemma JoinPage(rows: seq<Row>, i: nat, end: nat)
    requires i <= end <= |rows|
    ensures rows[..i] + rows[i..end] == rows[..end]
  {
  }

  /** The client's loop: it yields the whole collection once, in order, and never trips its repeated-cursor guard. */
  method Paginate(rows: seq<Row>, limit: nat, codec: Codec) returns (listing: Listing)
    requires Ascending(rows) && limit >= 1 && codec.RoundTrips()
    ensures listing == Complete(rows)
  {
    var cursor: Option<string> := None;
    var seen: set<string> := {};
    var items: seq<Row> := [];
    var first, repeated := true, false;
    ghost var i := 0;
    while first || cursor.Some?
      invariant first ==> i == 0 && cursor.None? && seen == {}
      invariant !first && cursor.None? ==> i == |rows|
      invariant !first && cursor.Some? ==> 0 < i < |rows| && cursor == Some(codec.encode(rows[i - 1].key))
      invariant 0 <= i <= |rows| && items == rows[..i] && !repeated
      invariant SeenBefore(rows, codec, seen, i - 1)
      decreases |rows| - i, first
    {
      ghost var end := Least(|rows|, i + limit);
      if cursor.Some? {
        NotSeen(rows, codec, seen, i - 1);
        SeeOne(rows, codec, seen, i - 1, end - 1);
        if cursor.value in seen {
          repeated := true;
          break;
        }
        seen := seen + {cursor.value};
      }
      first := false;
      var page := Request(rows, limit, codec, cursor, i);
      JoinPage(rows, i, end);
      items := items + page.items;
      cursor := page.next;
      i := end;
    }
    assert rows[..|rows|] == rows;
    listing := if repeated then Repeated else Complete(items);
  }

  // ---- backwards -------------------------------------------------------------------------

  /** One row more than the limit shows that there are older ones, and is left for the next page. */
  function CutRecent(queried: seq<Row>, limit: nat, codec: Codec): Page {
    var older := |queried| > limit;
    var page := if older then queried[1..] else queried;
    Page(page, if older && page != [] then Some(codec.encode(page[0].key)) else None)
  }

  function RecentPage(rows: seq<Row>, limit: nat, codec: Codec, cursor: Option<string>): Option<Page> {
    if cursor.Some? && codec.decode(cursor.value).None? then None
    else
      var before := if cursor.None? then None else codec.decode(cursor.value);
      Some(CutRecent(RowsBefore(rows, before, limit + 1), limit, codec))
  }

  lemma BeforeRow(rows: seq<Row>, i: nat, n: nat)
    requires Ascending(rows) && i <= |rows|
    ensures RowsBefore(rows, if i == |rows| then None else Some(rows[i].key), n) == rows[i - Least(i, n)..i]
  {
    if i < |rows| {
      UnderIsPrefix(rows, rows[i].key, i);
    }
  }

  /** What a backward page shows: the rows from start to i, and a cursor if older rows are left. */
  function OlderPage(rows: seq<Row>, codec: Codec, start: nat, i: nat): Page
    requires start <= i <= |rows|
  {
    Page(rows[start..i], if 0 < start < |rows| then Some(codec.encode(rows[start].key)) else None)
  }

  lemma CutIsRecent(rows: seq<Row>, limit: nat, codec: Codec, i: nat)
    requires i <= |rows| && limit >= 1
    ensures CutRecent(rows[i - Least(i, limit + 1)..i], limit, codec) == OlderPage(rows, codec, i - Least(i, limit), i)
  {
    var queried := rows[i - Least(i, limit + 1)..i];
    if i > limit {
      assert queried[1..] == rows[i - limit..i];
    }
  }

  lemma RecentFrom(rows: seq<Row>, limit: nat, codec: Codec, i: nat)
    requires Ascending(rows) && limit >= 1 && codec.RoundTrips() && i <= |rows|
    ensures var cursor := if i == |rows| then None else Some(codec.encode(rows[i].key));
            RecentPage(rows, limit, codec, cursor) == Some(OlderPage(rows, codec, i - Least(i, limit), i))
  {
    BeforeRow(rows, i, limit + 1);
    CutIsRecent(rows, limit, codec, i);
    if i < |rows| {
      assert codec.decode(codec.encode(rows[i].key)) == Some(rows[i].key);
    }
  }

  method RequestOlder(rows: seq<Row>, limit: nat, codec: Codec, cursor: Option<string>, ghost i: nat)
    returns (page: Page)
    requires Ascending(rows) && limit >= 1 && codec.RoundTrips() && i <= |rows|
    requires cursor == if i == |rows| then None else Some(codec.encode(rows[i].key))
    ensures page == OlderPage(rows, codec, i - Least(i, limit), i)
  {
    RecentFrom(rows, limit, codec, i);
    page := RecentPage(rows, limit, codec, cursor).value;
  }

  lemma JoinOlder(rows: seq<Row>, start: nat, i: nat)
    requires start <= i <= |rows|
    ensures rows[start..i] + rows[i..] == rows[start..]
  {
  }

  /** Walking backwards from the tail and putting each older page in front gives the whole transcript. */
  method Transcript(rows: seq<Row>, limit: nat, codec: Codec) returns (transcript: seq<Row>)
    requires Ascending(rows) && limit >= 1 && codec.RoundTrips()
    ensures transcript == rows
  {
    var cursor: Option<string> := None;
    var first := true;
    transcript := [];
    ghost var i := |rows|;
    while first || cursor.Some?
      invariant 0 <= i <= |rows| && transcript == rows[i..]
      invariant first ==> i == |rows| && cursor.None?
      invariant !first && cursor.Some? ==> 0 < i < |rows| && cursor == Some(codec.encode(rows[i].key))
      invariant !first && cursor.None? ==> i == 0
      decreases i, first
    {
      var page := RequestOlder(rows, limit, codec, cursor, i);
      ghost var start := i - Least(i, limit);
      JoinOlder(rows, start, i);
      transcript := page.items + transcript;
      cursor := page.next;
      first := false;
      i := start;
    }
    assert rows[0..] == rows;
  }
}

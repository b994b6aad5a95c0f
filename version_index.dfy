/** The DynamoDB table the handler reads, and the one query it sends to it:
    partition key `web_uri = :u`, sort key `from_date <= :d`, newest first
    (`ScanIndexForward=False`), at most one item (`Limit=1`). */
module VersionIndex {
  import opened Wrappers
  import opened Timestamps

  /** The value of an item's `object_key` attribute: a string (type S) or a
      value of any other DynamoDB type. */
  datatype Attr = S(s: string) | NonString

  /** One row of the table: the logical uri, the instant from which the row
      holds, the S3 object key (which a malformed row may lack), and whether
      any attribute of the row holds binary data (type B or BS, or bytes
      inside an L or M value), which boto3 returns as Python `bytes`. */
  datatype Item = Item(webUri: string, fromDate: string, objectKey: Option<Attr>, hasBytes: bool)

  /** The key condition `web_uri = :u and from_date <= :d`, with `<=` the
      string order DynamoDB uses on S values. */
  predicate Matches(e: Item, uri: string, asOf: string) {
    e.webUri == uri && NotAbove(e.fromDate, asOf)
  }

  /** `e` is a row of `items` that matches and that no matching row follows in time. */
  ghost predicate IsLatest(items: seq<Item>, uri: string, asOf: string, e: Item) {
    e in items && Matches(e, uri, asOf)
    && forall x :: x in items && Matches(x, uri, asOf) ==> NotAbove(x.fromDate, e.fromDate)
  }

  /** The table's primary key (web_uri, from_date): rows that agree on both are the same row. */
  ghost predicate KeysUnique(items: seq<Item>) {
    forall x, y :: x in items && y in items && x.webUri == y.webUri && x.fromDate == y.fromDate ==> x == y
  }

  /** The matching row with the greatest `from_date`, if any row matches. */
  function Latest(items: seq<Item>, uri: string, asOf: string): (r: Option<Item>)
    ensures r.Some? ==> r.value in items && Matches(r.value, uri, asOf)
    decreases |items|
  {
    if items == [] then None
    else
      var rest := Latest(items[1..], uri, asOf);
      if Matches(items[0], uri, asOf) && (rest.None? || NotAbove(rest.value.fromDate, items[0].fromDate))
      then Some(items[0])
      else rest
  }

  /** The `Items` list of the query's response: the newest matching row, or nothing. */
  function Query(items: seq<Item>, uri: string, asOf: string): (r: seq<Item>)
    ensures |r| <= 1
    ensures forall e :: e in r ==> e in items && Matches(e, uri, asOf)
  {
    match Latest(items, uri, asOf)
    case Some(e) => [e]
    case None => []
  }

  /** `Latest` finds a row exactly when some row matches, and the row it
      finds is the newest of the matching ones. */
  lemma {:induction false} LatestIsNewest(items: seq<Item>, uri: string, asOf: string)
    ensures Latest(items, uri, asOf).Some? ==> IsLatest(items, uri, asOf, Latest(items, uri, asOf).value)
    ensures Latest(items, uri, asOf).None? <==> forall x :: x in items ==> !Matches(x, uri, asOf)
    decreases |items|
  {
    if items != [] {
      var tail := items[1..];
      var rest := Latest(tail, uri, asOf);
      var e := items[0];
      LatestIsNewest(tail, uri, asOf);
      assert forall x :: x in items <==> x == e || x in tail;
      if rest.Some? {
        NotAboveTotalOrder(rest.value.fromDate, e.fromDate, e.fromDate);
        if Matches(e, uri, asOf) && NotAbove(rest.value.fromDate, e.fromDate) {
          forall x | x in tail && Matches(x, uri, asOf)
            ensures NotAbove(x.fromDate, e.fromDate)
          {
            NotAboveTotalOrder(x.fromDate, rest.value.fromDate, e.fromDate);
          }
        }
      }
    }
  }

  /** The query answers `[e]` exactly when `e` is the newest matching row,
      and `[]` exactly when no row matches. */
  lemma QuerySelectsNewest(items: seq<Item>, uri: string, asOf: string)
    requires KeysUnique(items)
    ensures Query(items, uri, asOf) == [] <==> forall x :: x in items ==> !Matches(x, uri, asOf)
    ensures forall e :: Query(items, uri, asOf) == [e] <==> IsLatest(items, uri, asOf, e)
  {
    LatestIsNewest(items, uri, asOf);
    forall e | IsLatest(items, uri, asOf, e)
      ensures Query(items, uri, asOf) == [e]
    {
      NewestIsUnique(items, uri, asOf, e, Latest(items, uri, asOf).value);
    }
  }

  /** With unique keys at most one row is the newest matching row. */
  lemma NewestIsUnique(items: seq<Item>, uri: string, asOf: string, e1: Item, e2: Item)
    requires KeysUnique(items)
    requires IsLatest(items, uri, asOf, e1) && IsLatest(items, uri, asOf, e2)
    ensures e1 == e2
  {
    NotAboveTotalOrder(e1.fromDate, e2.fromDate, e1.fromDate);
  }

  /** The answer does not depend on the order in which the rows are stored. */
  lemma QueryIgnoresStorageOrder(a: seq<Item>, b: seq<Item>, uri: string, asOf: string)
    requires KeysUnique(a)
    requires forall x :: x in a <==> x in b
    ensures Query(a, uri, asOf) == Query(b, uri, asOf)
  {
    QuerySelectsNewest(a, uri, asOf);
    QuerySelectsNewest(b, uri, asOf);
    LatestIsNewest(b, uri, asOf);
  }

  /** For rows stamped with `isoformat` text, the query compares instants:
      the row it returns is not later than `now`, and no matching row stamped
      at or before `now` is later than it. */
  lemma QueryIsChronological(items: seq<Item>, uri: string, now: Instant, e: Item, te: Instant)
    requires Query(items, uri, Iso(now)) == [e] && e.fromDate == Iso(te)
    ensures e.webUri == uri && !Before(now, te)
    ensures forall x, tx :: x in items && x.webUri == uri && x.fromDate == Iso(tx) && !Before(now, tx) ==> !Before(te, tx)
  {
    LatestIsNewest(items, uri, Iso(now));
    IsoChronological(te, now);
    forall x, tx | x in items && x.webUri == uri && x.fromDate == Iso(tx) && !Before(now, tx)
      ensures !Before(te, tx)
    {
      IsoChronological(tx, now);
      IsoChronological(tx, te);
    }
  }

  /** Two versions of one uri, in force from `t1` and from `t2`: at any
      instant from `t1` up to (not including) `t2` the first version is the
      one in force. */
  lemma EarlierVersionInForce(uri: string, k1: Option<Attr>, k2: Option<Attr>, b1: bool, b2: bool, t1: Instant, t: Instant, t2: Instant)
    requires !Before(t, t1) && Before(t, t2)
    ensures Query([Item(uri, Iso(t1), k1, b1), Item(uri, Iso(t2), k2, b2)], uri, Iso(t)) == [Item(uri, Iso(t1), k1, b1)]
  {
    IsoChronological(t1, t);
    IsoChronological(t2, t);
    var v1, v2 := Item(uri, Iso(t1), k1, b1), Item(uri, Iso(t2), k2, b2);
    assert [v1, v2][1..] == [v2];
    assert Latest([v2], uri, Iso(t)) == None;
  }
}

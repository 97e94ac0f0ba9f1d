/**
 The transaction search: a row is kept when the lower-cased, space-joined
 text of its fields contains the trimmed, lower-cased query.
 */
module RowFilter {
  import opened Text
  import opened Seqs

  datatype Status = Ok | Error

  /** The channel names of both page revisions: KakaoBank/TossBank in the
      typed revision, OpenAPI/Internal in the untyped one. */
  datatype Channel = KakaoBank | TossBank | OpenApi | Internal

  datatype Transaction = Transaction(id: string, time: string, amount: string, status: Status, channel: Channel)

  function StatusText(s: Status): string
  {
    match s
    case Ok => "OK"
    case Error => "ERROR"
  }

  function ChannelText(c: Channel): string
  {
    match c
    case KakaoBank => "KakaoBank"
    case TossBank => "TossBank"
    case OpenApi => "OpenAPI"
    case Internal => "Internal"
  }

  /** Five fields joined with single spaces, as `join(" ")` does. */
  function Spaced(a: string, b: string, c: string, d: string, e: string): string
  {
    a + " " + b + " " + c + " " + d + " " + e
  }

  /** `[r.id, r.time, r.amount, r.status, r.channel].join(" ").toLowerCase()`. */
  function Haystack(r: Transaction): (h: string)
    ensures |h| == |r.id| + |r.time| + |r.amount| + |StatusText(r.status)| + |ChannelText(r.channel)| + 4
  {
    Lower(Spaced(r.id, r.time, r.amount, StatusText(r.status), ChannelText(r.channel)))
  }

  /** The row text is the lower-cased fields, space-separated: lower-casing
      never touches the separators. */
  lemma HaystackFields(r: Transaction)
    ensures Haystack(r) == Spaced(Lower(r.id), Lower(r.time), Lower(r.amount), Lower(StatusText(r.status)), Lower(ChannelText(r.channel)))
  {
    var s3 := r.id + " " + r.time;
    var s2 := s3 + " " + r.amount;
    var s1 := s2 + " " + StatusText(r.status);
    LowerAppend(s1 + " ", ChannelText(r.channel));
    LowerAppend(s1, " ");
    LowerAppend(s2 + " ", StatusText(r.status));
    LowerAppend(s2, " ");
    LowerAppend(s3 + " ", r.amount);
    LowerAppend(s3, " ");
    LowerAppend(r.id + " ", r.time);
    LowerAppend(r.id, " ");
    assert Lower(" ") == " ";
  }

  /** Each field is found in the row text. */
  lemma SpacedHasFields(a: string, b: string, c: string, d: string, e: string)
    ensures Includes(Spaced(a, b, c, d, e), a)
    ensures Includes(Spaced(a, b, c, d, e), b)
    ensures Includes(Spaced(a, b, c, d, e), c)
    ensures Includes(Spaced(a, b, c, d, e), d)
    ensures Includes(Spaced(a, b, c, d, e), e)
  {
    var s := Spaced(a, b, c, d, e);
    assert s == [] + a + (" " + b + " " + c + " " + d + " " + e);
    IncludesInfix([], a, " " + b + " " + c + " " + d + " " + e);
    assert s == a + " " + b + (" " + c + " " + d + " " + e);
    IncludesInfix(a + " ", b, " " + c + " " + d + " " + e);
    assert s == a + " " + b + " " + c + (" " + d + " " + e);
    IncludesInfix(a + " " + b + " ", c, " " + d + " " + e);
    assert s == a + " " + b + " " + c + " " + d + (" " + e);
    IncludesInfix(a + " " + b + " " + c + " ", d, " " + e);
    assert s == a + " " + b + " " + c + " " + d + " " + e + [];
    IncludesInfix(a + " " + b + " " + c + " " + d + " ", e, []);
  }

  /** A needle without spaces is found in the row text only inside one field. */
  lemma SpacedNoSpaceNeedle(a: string, b: string, c: string, d: string, e: string, q: string)
    requires ' ' !in q
    requires !Includes(a, q) && !Includes(b, q) && !Includes(c, q) && !Includes(d, q) && !Includes(e, q)
    ensures !Includes(Spaced(a, b, c, d, e), q)
  {
    NoSpaceSplit(a, b, q);
    NoSpaceSplit(a + " " + b, c, q);
    NoSpaceSplit(a + " " + b + " " + c, d, q);
    NoSpaceSplit(a + " " + b + " " + c + " " + d, e, q);
  }

  /** A needle character missing from the first four fields, followed by one
      missing from the last field, rules the needle out. */
  lemma SpacedInOrder(a: string, b: string, c: string, d: string, e: string, q: string, i: nat, k: nat)
    requires i < k < |q| && q[i] != ' '
    requires q[i] !in a && q[i] !in b && q[i] !in c && q[i] !in d && q[k] !in e
    ensures !Includes(Spaced(a, b, c, d, e), q)
  {
    InOrderAcrossSpace(a + " " + b + " " + c + " " + d, e, q, i, k);
  }

  /** A query with no whitespace at either end is only lower-cased. */
  lemma TightNeedle(query: string)
    requires TightEnds(query)
    ensures Needle(query) == Lower(query)
  {
    assert query[0..|query|] == query;
    TrimUnique(query, query, 0);
  }

  /** On four rows the result is decided row by row. */
  lemma FilterFourRows(rows: seq<Transaction>, query: string)
    requires |rows| == 4
    ensures FilterRows(rows, query) ==
      (if Matches(rows[0], query) then [rows[0]] else []) + (if Matches(rows[1], query) then [rows[1]] else []) +
      (if Matches(rows[2], query) then [rows[2]] else []) + (if Matches(rows[3], query) then [rows[3]] else [])
  {
    FilterRowsIsFilter(rows, query);
    FilterFour(r => Matches(r, query), rows);
  }

  /** `String(query).trim().toLowerCase()`. */
  function Needle(query: string): (n: string)
    ensures n == [] <==> AllWhitespace(query)
    ensures |n| <= |query|
  {
    Lower(Trim(query))
  }

  /** The row predicate passed to `rows.filter`. */
  predicate Matches(r: Transaction, query: string)
  {
    Includes(Haystack(r), Needle(query))
  }

  /** `filterRows`: an empty query returns the rows as they are; otherwise the
      rows whose text contains the normalised query, in their original order. */
  function FilterRows(rows: seq<Transaction>, query: string): (result: seq<Transaction>)
    ensures query == "" ==> result == rows
    ensures IsSubsequence(result, rows)
    ensures forall r :: multiset(result)[r] == if Matches(r, query) then multiset(rows)[r] else 0
    ensures forall i :: 0 <= i < |result| ==> Matches(result[i], query)
  {
    if query == "" then
      EmptyQueryMatchesAll(rows);
      SubsequenceReflexive(rows);
      rows
    else
      var keep := r => Matches(r, query);
      FilterMultiset(keep, rows);
      FilterSubsequence(keep, rows);
      Filter(keep, rows)
  }

  /** The empty query is contained in every row's text. */
  lemma EmptyQueryMatchesAll(rows: seq<Transaction>)
    ensures forall r :: Matches(r, "")
  {
    forall r: Transaction
      ensures Matches(r, "")
    {
      IncludesEmpty(Haystack(r));
    }
  }

  /** A row of the input is in the result exactly when its text contains the query. */
  lemma KeptIff(rows: seq<Transaction>, query: string, r: Transaction)
    requires r in rows
    ensures r in FilterRows(rows, query) <==> Includes(Haystack(r), Lower(Trim(query)))
  {
    assert multiset(rows)[r] > 0;
  }

  /** The empty query, and every other, is the same as `rows.filter` with the row predicate. */
  lemma FilterRowsIsFilter(rows: seq<Transaction>, query: string)
    ensures FilterRows(rows, query) == Filter(r => Matches(r, query), rows)
  {
    if query == "" {
      EmptyQueryMatchesAll(rows);
      FilterKeepsAll(r => Matches(r, query), rows);
    }
  }

  /** A query of only whitespace trims to the empty string and keeps every row. */
  lemma WhitespaceQueryKeepsAll(rows: seq<Transaction>, query: string)
    requires AllWhitespace(query)
    ensures FilterRows(rows, query) == rows
  {
    if query != "" {
      assert Needle(query) == "";
      EmptyQueryMatchesAll(rows);
      assert forall r :: Matches(r, query) == Matches(r, "");
      FilterKeepsAll(r => Matches(r, query), rows);
    }
  }

  /** Filtering the result again with the same query changes nothing. */
  lemma FilterRowsIdempotent(rows: seq<Transaction>, query: string)
    ensures FilterRows(FilterRows(rows, query), query) == FilterRows(rows, query)
  {
    if query != "" {
      FilterIdempotent(r => Matches(r, query), rows);
    }
  }

  /** Queries that differ only in ASCII letter case select the same rows. */
  lemma CaseInsensitive(rows: seq<Transaction>, query: string)
    ensures FilterRows(rows, Lower(query)) == FilterRows(rows, query)
  {
    var lq := Lower(query);
    LowerNeedle(query);
    SameNeedleSameRows(rows, lq, query);
  }

  /** Lower-casing the query does not change what is searched for. */
  lemma LowerNeedle(query: string)
    ensures Needle(Lower(query)) == Needle(query)
  {
    TrimLowerCommute(query);
    LowerIdempotent(Trim(query));
  }

  /** Two queries with the same normalised form select the same rows. */
  lemma SameNeedleSameRows(rows: seq<Transaction>, q1: string, q2: string)
    requires Needle(q1) == Needle(q2)
    ensures FilterRows(rows, q1) == FilterRows(rows, q2)
  {
    FilterRowsIsFilter(rows, q1);
    FilterRowsIsFilter(rows, q2);
    FilterCongruent(r => Matches(r, q1), r => Matches(r, q2), rows);
  }

  /** Whitespace around the query is ignored. */
  lemma PaddingInsensitive(rows: seq<Transaction>, pre: string, query: string, post: string)
    requires AllWhitespace(pre) && AllWhitespace(post)
    ensures FilterRows(rows, pre + query + post) == FilterRows(rows, query)
  {
    TrimIgnoresPadding(pre, query, post);
    SameNeedleSameRows(rows, pre + query + post, query);
  }
}

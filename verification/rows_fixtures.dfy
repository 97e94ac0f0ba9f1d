/**
 The search self-tests of both page revisions, over their four-row samples,
 as lemmas that pin down the exact rows `FilterRows` returns.
 */
module RowFixtures {
  import opened Text
  import opened RowFilter

  /** A row is kept when the normalised query is one of its lower-cased fields. */
  lemma FoundField(r: Transaction, q: string, a: string, b: string, c: string, d: string, e: string, n: string)
    requires Haystack(r) == Spaced(a, b, c, d, e) && Needle(q) == n
    requires n == a || n == b || n == c || n == d || n == e
    ensures Matches(r, q)
  {
    SpacedHasFields(a, b, c, d, e);
  }

  /** Field `x` cannot hold `n`: character `j` of `n` is missing from
      every place it would take in an occurrence. */
  predicate Excludes(x: string, n: string, j: nat)
  {
    j < |n| && (|x| < |n| || n[j] !in x[..|x| - |n| + j + 1])
  }

  /** A needle without spaces that every field excludes is not in the row text. */
  lemma FieldsExclude(a: string, b: string, c: string, d: string, e: string, n: string,
                      ja: nat, jb: nat, jc: nat, jd: nat, je: nat)
    requires ' ' !in n
    requires Excludes(a, n, ja) && Excludes(b, n, jb) && Excludes(c, n, jc) && Excludes(d, n, jd) && Excludes(e, n, je)
    ensures !Includes(Spaced(a, b, c, d, e), n)
  {
    MissingEarly(a, n, ja);
    MissingEarly(b, n, jb);
    MissingEarly(c, n, jc);
    MissingEarly(d, n, jd);
    MissingEarly(e, n, je);
    SpacedNoSpaceNeedle(a, b, c, d, e, n);
  }

  /** A row is dropped when its field-by-field text lacks the normalised query. */
  lemma NotFound(r: Transaction, q: string, a: string, b: string, c: string, d: string, e: string, n: string)
    requires Haystack(r) == Spaced(a, b, c, d, e) && Needle(q) == n && !Includes(Spaced(a, b, c, d, e), n)
    ensures !Matches(r, q)
  {
  }

  /** Four rows of which exactly the second and fourth match. */
  lemma KeepsSecondFourth(rows: seq<Transaction>, q: string)
    requires |rows| == 4
    requires !Matches(rows[0], q) && Matches(rows[1], q) && !Matches(rows[2], q) && Matches(rows[3], q)
    ensures FilterRows(rows, q) == [rows[1], rows[3]]
  {
    FilterFourRows(rows, q);
  }

  /** Four rows of which exactly the first and fourth match. */
  lemma KeepsFirstFourth(rows: seq<Transaction>, q: string)
    requires |rows| == 4
    requires Matches(rows[0], q) && !Matches(rows[1], q) && !Matches(rows[2], q) && Matches(rows[3], q)
    ensures FilterRows(rows, q) == [rows[0], rows[3]]
  {
    FilterFourRows(rows, q);
  }

  /** Four rows of which exactly none match. */
  lemma KeepsNone(rows: seq<Transaction>, q: string)
    requires |rows| == 4
    requires !Matches(rows[0], q) && !Matches(rows[1], q) && !Matches(rows[2], q) && !Matches(rows[3], q)
    ensures FilterRows(rows, q) == []
  {
    FilterFourRows(rows, q);
  }

  /** Four rows of which exactly the third matches. */
  lemma KeepsThird(rows: seq<Transaction>, q: string)
    requires |rows| == 4
    requires !Matches(rows[0], q) && !Matches(rows[1], q) && Matches(rows[2], q) && !Matches(rows[3], q)
    ensures FilterRows(rows, q) == [rows[2]]
  {
    FilterFourRows(rows, q);
  }

  /** Four rows of which exactly the second and third match. */
  lemma KeepsSecondThird(rows: seq<Transaction>, q: string)
    requires |rows| == 4
    requires !Matches(rows[0], q) && Matches(rows[1], q) && Matches(rows[2], q) && !Matches(rows[3], q)
    ensures FilterRows(rows, q) == [rows[1], rows[2]]
  {
    FilterFourRows(rows, q);
  }

  /** The query "error" searches for "error". */
  lemma NeedleError()
    ensures Needle("error") == "error"
  {
    TightNeedle("error");
  }

  /** The query "KakaoBank" searches for "kakaobank". */
  lemma NeedleKakaoBank()
    ensures Needle("KakaoBank") == "kakaobank"
  {
    TightNeedle("KakaoBank");
    assert Lower("KakaoBank") == "kakaobank";
  }

  /** The query "does-not-exist" searches for "does-not-exist". */
  lemma NeedleMissing()
    ensures Needle("does-not-exist") == "does-not-exist"
  {
    TightNeedle("does-not-exist");
  }

  /** The query "3000" searches for "3000". */
  lemma NeedleAmount()
    ensures Needle("3000") == "3000"
  {
    TightNeedle("3000");
  }

  /** The query "tx-3" searches for "tx-3". */
  lemma NeedleId()
    ensures Needle("tx-3") == "tx-3"
  {
    TightNeedle("tx-3");
  }

  /** The query "TOSS BANK" searches for "toss bank". */
  lemma NeedleTossBank()
    ensures Needle("TOSS BANK") == "toss bank"
  {
    TightNeedle("TOSS BANK");
    assert Lower("TOSS BANK") == "toss bank";
  }

  /** The query "OpenAPI" searches for "openapi". */
  lemma NeedleOpenApi()
    ensures Needle("OpenAPI") == "openapi"
  {
    TightNeedle("OpenAPI");
    assert Lower("OpenAPI") == "openapi";
  }

  /** The query "INTERNAL" searches for "internal". */
  lemma NeedleInternal()
    ensures Needle("INTERNAL") == "internal"
  {
    TightNeedle("INTERNAL");
    assert Lower("INTERNAL") == "internal";
  }

  const Bank1: Transaction := Transaction("TX-1", "10:00:00", "1000", Ok, KakaoBank)
  const Bank2: Transaction := Transaction("TX-2", "10:00:01", "2000", Error, TossBank)
  const Bank3: Transaction := Transaction("TX-3", "10:00:02", "3000", Ok, TossBank)
  const Bank4: Transaction := Transaction("TX-4", "10:00:03", "4000", Error, KakaoBank)

  /** The sample of the typed revision (channels KakaoBank and TossBank). */
  const BankSample: seq<Transaction> := [Bank1, Bank2, Bank3, Bank4]

  /** The text searched for row TX-1, field by field. */
  lemma BankText1()
    ensures Haystack(Bank1) == Spaced("tx-1", "10:00:00", "1000", "ok", "kakaobank")
  {
    HaystackFields(Bank1);
    assert Lower("TX-1") == "tx-1";
    assert Lower("10:00:00") == "10:00:00";
    assert Lower("1000") == "1000";
    assert Lower("OK") == "ok";
    assert Lower("KakaoBank") == "kakaobank";
  }

  /** The text searched for row TX-2, field by field. */
  lemma BankText2()
    ensures Haystack(Bank2) == Spaced("tx-2", "10:00:01", "2000", "error", "tossbank")
  {
    HaystackFields(Bank2);
    assert Lower("TX-2") == "tx-2";
    assert Lower("10:00:01") == "10:00:01";
    assert Lower("2000") == "2000";
    assert Lower("ERROR") == "error";
    assert Lower("TossBank") == "tossbank";
  }

  /** The text searched for row TX-3, field by field. */
  lemma BankText3()
    ensures Haystack(Bank3) == Spaced("tx-3", "10:00:02", "3000", "ok", "tossbank")
  {
    HaystackFields(Bank3);
    assert Lower("TX-3") == "tx-3";
    assert Lower("10:00:02") == "10:00:02";
    assert Lower("3000") == "3000";
    assert Lower("OK") == "ok";
    assert Lower("TossBank") == "tossbank";
  }

  /** The text searched for row TX-4, field by field. */
  lemma BankText4()
    ensures Haystack(Bank4) == Spaced("tx-4", "10:00:03", "4000", "error", "kakaobank")
  {
    HaystackFields(Bank4);
    assert Lower("TX-4") == "tx-4";
    assert Lower("10:00:03") == "10:00:03";
    assert Lower("4000") == "4000";
    assert Lower("ERROR") == "error";
    assert Lower("KakaoBank") == "kakaobank";
  }

  /** The empty query returns all four rows. */
  lemma BankEmptyQuery()
    ensures FilterRows(BankSample, "") == BankSample
    ensures |FilterRows(BankSample, "")| == 4
  {
  }

  /** The text of row TX-1 does not contain "error". */
  lemma Bank1ErrorSearch()
    ensures !Includes(Spaced("tx-1", "10:00:00", "1000", "ok", "kakaobank"), "error")
  {
    FieldsExclude("tx-1", "10:00:00", "1000", "ok", "kakaobank", "error", 0, 0, 0, 0, 0);
  }

  /** The text of row TX-3 does not contain "error". */
  lemma Bank3ErrorSearch()
    ensures !Includes(Spaced("tx-3", "10:00:02", "3000", "ok", "tossbank"), "error")
  {
    FieldsExclude("tx-3", "10:00:02", "3000", "ok", "tossbank", "error", 0, 0, 0, 0, 0);
  }

  /** "error" finds the two ERROR rows. */
  lemma BankError()
    ensures FilterRows(BankSample, "error") == [Bank2, Bank4]
    ensures |FilterRows(BankSample, "error")| == 2
  {
    NeedleError();
    BankText1();
    Bank1ErrorSearch();
    NotFound(Bank1, "error", "tx-1", "10:00:00", "1000", "ok", "kakaobank", "error");
    BankText2();
    FoundField(Bank2, "error", "tx-2", "10:00:01", "2000", "error", "tossbank", "error");
    BankText3();
    Bank3ErrorSearch();
    NotFound(Bank3, "error", "tx-3", "10:00:02", "3000", "ok", "tossbank", "error");
    BankText4();
    FoundField(Bank4, "error", "tx-4", "10:00:03", "4000", "error", "kakaobank", "error");
    KeepsSecondFourth(BankSample, "error");
  }

  /** Whitespace around the query is ignored: "  error  " finds what "error" finds. */
  lemma BankPaddedError()
    ensures FilterRows(BankSample, "  error  ") == FilterRows(BankSample, "error")
    ensures |FilterRows(BankSample, "  error  ")| == 2
  {
    assert "  error  " == "  " + "error" + "  ";
    PaddingInsensitive(BankSample, "  ", "error", "  ");
    BankError();
  }

  /** The text of row TX-2 does not contain "kakaobank". */
  lemma Bank2KakaoBankSearch()
    ensures !Includes(Spaced("tx-2", "10:00:01", "2000", "error", "tossbank"), "kakaobank")
  {
    FieldsExclude("tx-2", "10:00:01", "2000", "error", "tossbank", "kakaobank", 0, 0, 0, 0, 0);
  }

  /** The text of row TX-3 does not contain "kakaobank". */
  lemma Bank3KakaoBankSearch()
    ensures !Includes(Spaced("tx-3", "10:00:02", "3000", "ok", "tossbank"), "kakaobank")
  {
    FieldsExclude("tx-3", "10:00:02", "3000", "ok", "tossbank", "kakaobank", 0, 0, 0, 0, 0);
  }

  /** "KakaoBank" finds the two KakaoBank rows. */
  lemma BankKakaoBank()
    ensures FilterRows(BankSample, "KakaoBank") == [Bank1, Bank4]
    ensures |FilterRows(BankSample, "KakaoBank")| == 2
  {
    NeedleKakaoBank();
    BankText1();
    FoundField(Bank1, "KakaoBank", "tx-1", "10:00:00", "1000", "ok", "kakaobank", "kakaobank");
    BankText2();
    Bank2KakaoBankSearch();
    NotFound(Bank2, "KakaoBank", "tx-2", "10:00:01", "2000", "error", "tossbank", "kakaobank");
    BankText3();
    Bank3KakaoBankSearch();
    NotFound(Bank3, "KakaoBank", "tx-3", "10:00:02", "3000", "ok", "tossbank", "kakaobank");
    BankText4();
    FoundField(Bank4, "KakaoBank", "tx-4", "10:00:03", "4000", "error", "kakaobank", "kakaobank");
    KeepsFirstFourth(BankSample, "KakaoBank");
  }

  /** The text of row TX-1 does not contain "does-not-exist". */
  lemma Bank1MissingSearch()
    ensures !Includes(Spaced("tx-1", "10:00:00", "1000", "ok", "kakaobank"), "does-not-exist")
  {
    FieldsExclude("tx-1", "10:00:00", "1000", "ok", "kakaobank", "does-not-exist", 0, 0, 0, 0, 0);
  }

  /** The text of row TX-2 does not contain "does-not-exist". */
  lemma Bank2MissingSearch()
    ensures !Includes(Spaced("tx-2", "10:00:01", "2000", "error", "tossbank"), "does-not-exist")
  {
    FieldsExclude("tx-2", "10:00:01", "2000", "error", "tossbank", "does-not-exist", 0, 0, 0, 0, 0);
  }

  /** The text of row TX-3 does not contain "does-not-exist". */
  lemma Bank3MissingSearch()
    ensures !Includes(Spaced("tx-3", "10:00:02", "3000", "ok", "tossbank"), "does-not-exist")
  {
    FieldsExclude("tx-3", "10:00:02", "3000", "ok", "tossbank", "does-not-exist", 0, 0, 0, 0, 0);
  }

  /** The text of row TX-4 does not contain "does-not-exist". */
  lemma Bank4MissingSearch()
    ensures !Includes(Spaced("tx-4", "10:00:03", "4000", "error", "kakaobank"), "does-not-exist")
  {
    FieldsExclude("tx-4", "10:00:03", "4000", "error", "kakaobank", "does-not-exist", 0, 0, 0, 0, 0);
  }

  /** A keyword that occurs nowhere finds nothing. */
  lemma BankMissing()
    ensures FilterRows(BankSample, "does-not-exist") == []
    ensures |FilterRows(BankSample, "does-not-exist")| == 0
  {
    NeedleMissing();
    BankText1();
    Bank1MissingSearch();
    NotFound(Bank1, "does-not-exist", "tx-1", "10:00:00", "1000", "ok", "kakaobank", "does-not-exist");
    BankText2();
    Bank2MissingSearch();
    NotFound(Bank2, "does-not-exist", "tx-2", "10:00:01", "2000", "error", "tossbank", "does-not-exist");
    BankText3();
    Bank3MissingSearch();
    NotFound(Bank3, "does-not-exist", "tx-3", "10:00:02", "3000", "ok", "tossbank", "does-not-exist");
    BankText4();
    Bank4MissingSearch();
    NotFound(Bank4, "does-not-exist", "tx-4", "10:00:03", "4000", "error", "kakaobank", "does-not-exist");
    KeepsNone(BankSample, "does-not-exist");
  }

  /** The text of row TX-1 does not contain "3000". */
  lemma Bank1AmountSearch()
    ensures !Includes(Spaced("tx-1", "10:00:00", "1000", "ok", "kakaobank"), "3000")
  {
    FieldsExclude("tx-1", "10:00:00", "1000", "ok", "kakaobank", "3000", 0, 0, 0, 0, 0);
  }

  /** The text of row TX-2 does not contain "3000". */
  lemma Bank2AmountSearch()
    ensures !Includes(Spaced("tx-2", "10:00:01", "2000", "error", "tossbank"), "3000")
  {
    FieldsExclude("tx-2", "10:00:01", "2000", "error", "tossbank", "3000", 0, 0, 0, 0, 0);
  }

  /** The text of row TX-4 does not contain "3000". */
  lemma Bank4AmountSearch()
    ensures !Includes(Spaced("tx-4", "10:00:03", "4000", "error", "kakaobank"), "3000")
  {
    FieldsExclude("tx-4", "10:00:03", "4000", "error", "kakaobank", "3000", 0, 0, 0, 0, 0);
  }

  /** "3000" finds the one row with that amount. */
  lemma BankAmount()
    ensures FilterRows(BankSample, "3000") == [Bank3]
    ensures |FilterRows(BankSample, "3000")| == 1
  {
    NeedleAmount();
    BankText1();
    Bank1AmountSearch();
    NotFound(Bank1, "3000", "tx-1", "10:00:00", "1000", "ok", "kakaobank", "3000");
    BankText2();
    Bank2AmountSearch();
    NotFound(Bank2, "3000", "tx-2", "10:00:01", "2000", "error", "tossbank", "3000");
    BankText3();
    FoundField(Bank3, "3000", "tx-3", "10:00:02", "3000", "ok", "tossbank", "3000");
    BankText4();
    Bank4AmountSearch();
    NotFound(Bank4, "3000", "tx-4", "10:00:03", "4000", "error", "kakaobank", "3000");
    KeepsThird(BankSample, "3000");
  }

  /** The text of row TX-1 does not contain "tx-3". */
  lemma Bank1IdSearch()
    ensures !Includes(Spaced("tx-1", "10:00:00", "1000", "ok", "kakaobank"), "tx-3")
  {
    FieldsExclude("tx-1", "10:00:00", "1000", "ok", "kakaobank", "tx-3", 3, 0, 0, 0, 0);
  }

  /** The text of row TX-2 does not contain "tx-3". */
  lemma Bank2IdSearch()
    ensures !Includes(Spaced("tx-2", "10:00:01", "2000", "error", "tossbank"), "tx-3")
  {
    FieldsExclude("tx-2", "10:00:01", "2000", "error", "tossbank", "tx-3", 3, 0, 0, 0, 1);
  }

  /** The text of row TX-4 does not contain "tx-3". */
  lemma Bank4IdSearch()
    ensures !Includes(Spaced("tx-4", "10:00:03", "4000", "error", "kakaobank"), "tx-3")
  {
    FieldsExclude("tx-4", "10:00:03", "4000", "error", "kakaobank", "tx-3", 3, 0, 0, 0, 0);
  }

  /** "tx-3" finds row TX-3 although the id is upper-case. */
  lemma BankId()
    ensures FilterRows(BankSample, "tx-3") == [Bank3]
    ensures |FilterRows(BankSample, "tx-3")| == 1
  {
    NeedleId();
    BankText1();
    Bank1IdSearch();
    NotFound(Bank1, "tx-3", "tx-1", "10:00:00", "1000", "ok", "kakaobank", "tx-3");
    BankText2();
    Bank2IdSearch();
    NotFound(Bank2, "tx-3", "tx-2", "10:00:01", "2000", "error", "tossbank", "tx-3");
    BankText3();
    FoundField(Bank3, "tx-3", "tx-3", "10:00:02", "3000", "ok", "tossbank", "tx-3");
    BankText4();
    Bank4IdSearch();
    NotFound(Bank4, "tx-3", "tx-4", "10:00:03", "4000", "error", "kakaobank", "tx-3");
    KeepsThird(BankSample, "tx-3");
  }

  /** The text of row TX-1 does not contain "toss bank". */
  lemma Bank1TossBankSearch()
    ensures !Includes(Spaced("tx-1", "10:00:00", "1000", "ok", "kakaobank"), "toss bank")
  {
    MissingChar(Spaced("tx-1", "10:00:00", "1000", "ok", "kakaobank"), "toss bank", 2);
  }

  /** The text of row TX-2 does not contain "toss bank". */
  lemma Bank2TossBankSearch()
    ensures !Includes(Spaced("tx-2", "10:00:01", "2000", "error", "tossbank"), "toss bank")
  {
    SpacedInOrder("tx-2", "10:00:01", "2000", "error", "tossbank", "toss bank", 2, 4);
  }

  /** The text of row TX-3 does not contain "toss bank". */
  lemma Bank3TossBankSearch()
    ensures !Includes(Spaced("tx-3", "10:00:02", "3000", "ok", "tossbank"), "toss bank")
  {
    SpacedInOrder("tx-3", "10:00:02", "3000", "ok", "tossbank", "toss bank", 2, 4);
  }

  /** The text of row TX-4 does not contain "toss bank". */
  lemma Bank4TossBankSearch()
    ensures !Includes(Spaced("tx-4", "10:00:03", "4000", "error", "kakaobank"), "toss bank")
  {
    MissingChar(Spaced("tx-4", "10:00:03", "4000", "error", "kakaobank"), "toss bank", 2);
  }

  /** "TOSS BANK" finds nothing: the channel text is "tossbank", without a space. */
  lemma BankTossBank()
    ensures FilterRows(BankSample, "TOSS BANK") == []
    ensures |FilterRows(BankSample, "TOSS BANK")| == 0
  {
    NeedleTossBank();
    BankText1();
    Bank1TossBankSearch();
    NotFound(Bank1, "TOSS BANK", "tx-1", "10:00:00", "1000", "ok", "kakaobank", "toss bank");
    BankText2();
    Bank2TossBankSearch();
    NotFound(Bank2, "TOSS BANK", "tx-2", "10:00:01", "2000", "error", "tossbank", "toss bank");
    BankText3();
    Bank3TossBankSearch();
    NotFound(Bank3, "TOSS BANK", "tx-3", "10:00:02", "3000", "ok", "tossbank", "toss bank");
    BankText4();
    Bank4TossBankSearch();
    NotFound(Bank4, "TOSS BANK", "tx-4", "10:00:03", "4000", "error", "kakaobank", "toss bank");
    KeepsNone(BankSample, "TOSS BANK");
  }

  const Api1: Transaction := Transaction("TX-1", "10:00:00", "1000", Ok, OpenApi)
  const Api2: Transaction := Transaction("TX-2", "10:00:01", "2000", Error, Internal)
  const Api3: Transaction := Transaction("TX-3", "10:00:02", "3000", Ok, Internal)
  const Api4: Transaction := Transaction("TX-4", "10:00:03", "4000", Error, OpenApi)

  /** The sample of the untyped revision (channels OpenAPI and Internal). */
  const ApiSample: seq<Transaction> := [Api1, Api2, Api3, Api4]

  /** The text searched for row TX-1, field by field. */
  lemma ApiText1()
    ensures Haystack(Api1) == Spaced("tx-1", "10:00:00", "1000", "ok", "openapi")
  {
    HaystackFields(Api1);
    assert Lower("TX-1") == "tx-1";
    assert Lower("10:00:00") == "10:00:00";
    assert Lower("1000") == "1000";
    assert Lower("OK") == "ok";
    assert Lower("OpenAPI") == "openapi";
  }

  /** The text searched for row TX-2, field by field. */
  lemma ApiText2()
    ensures Haystack(Api2) == Spaced("tx-2", "10:00:01", "2000", "error", "internal")
  {
    HaystackFields(Api2);
    assert Lower("TX-2") == "tx-2";
    assert Lower("10:00:01") == "10:00:01";
    assert Lower("2000") == "2000";
    assert Lower("ERROR") == "error";
    assert Lower("Internal") == "internal";
  }

  /** The text searched for row TX-3, field by field. */
  lemma ApiText3()
    ensures Haystack(Api3) == Spaced("tx-3", "10:00:02", "3000", "ok", "internal")
  {
    HaystackFields(Api3);
    assert Lower("TX-3") == "tx-3";
    assert Lower("10:00:02") == "10:00:02";
    assert Lower("3000") == "3000";
    assert Lower("OK") == "ok";
    assert Lower("Internal") == "internal";
  }

  /** The text searched for row TX-4, field by field. */
  lemma ApiText4()
    ensures Haystack(Api4) == Spaced("tx-4", "10:00:03", "4000", "error", "openapi")
  {
    HaystackFields(Api4);
    assert Lower("TX-4") == "tx-4";
    assert Lower("10:00:03") == "10:00:03";
    assert Lower("4000") == "4000";
    assert Lower("ERROR") == "error";
    assert Lower("OpenAPI") == "openapi";
  }

  /** The empty query returns all four rows. */
  lemma ApiEmptyQuery()
    ensures FilterRows(ApiSample, "") == ApiSample
    ensures |FilterRows(ApiSample, "")| == 4
  {
  }

  /** The text of row TX-1 does not contain "error". */
  lemma Api1ErrorSearch()
    ensures !Includes(Spaced("tx-1", "10:00:00", "1000", "ok", "openapi"), "error")
  {
    FieldsExclude("tx-1", "10:00:00", "1000", "ok", "openapi", "error", 0, 0, 0, 0, 1);
  }

  /** The text of row TX-3 does not contain "error". */
  lemma Api3ErrorSearch()
    ensures !Includes(Spaced("tx-3", "10:00:02", "3000", "ok", "internal"), "error")
  {
    FieldsExclude("tx-3", "10:00:02", "3000", "ok", "internal", "error", 0, 0, 0, 0, 3);
  }

  /** "error" finds the two ERROR rows. */
  lemma ApiError()
    ensures FilterRows(ApiSample, "error") == [Api2, Api4]
    ensures |FilterRows(ApiSample, "error")| == 2
  {
    NeedleError();
    ApiText1();
    Api1ErrorSearch();
    NotFound(Api1, "error", "tx-1", "10:00:00", "1000", "ok", "openapi", "error");
    ApiText2();
    FoundField(Api2, "error", "tx-2", "10:00:01", "2000", "error", "internal", "error");
    ApiText3();
    Api3ErrorSearch();
    NotFound(Api3, "error", "tx-3", "10:00:02", "3000", "ok", "internal", "error");
    ApiText4();
    FoundField(Api4, "error", "tx-4", "10:00:03", "4000", "error", "openapi", "error");
    KeepsSecondFourth(ApiSample, "error");
  }

  /** Whitespace around the query is ignored: "  error  " finds what "error" finds. */
  lemma ApiPaddedError()
    ensures FilterRows(ApiSample, "  error  ") == FilterRows(ApiSample, "error")
    ensures |FilterRows(ApiSample, "  error  ")| == 2
  {
    assert "  error  " == "  " + "error" + "  ";
    PaddingInsensitive(ApiSample, "  ", "error", "  ");
    ApiError();
  }

  /** The text of row TX-2 does not contain "openapi". */
  lemma Api2OpenApiSearch()
    ensures !Includes(Spaced("tx-2", "10:00:01", "2000", "error", "internal"), "openapi")
  {
    FieldsExclude("tx-2", "10:00:01", "2000", "error", "internal", "openapi", 0, 0, 0, 0, 0);
  }

  /** The text of row TX-3 does not contain "openapi". */
  lemma Api3OpenApiSearch()
    ensures !Includes(Spaced("tx-3", "10:00:02", "3000", "ok", "internal"), "openapi")
  {
    FieldsExclude("tx-3", "10:00:02", "3000", "ok", "internal", "openapi", 0, 0, 0, 0, 0);
  }

  /** "OpenAPI" finds the two OpenAPI rows. */
  lemma ApiOpenApi()
    ensures FilterRows(ApiSample, "OpenAPI") == [Api1, Api4]
    ensures |FilterRows(ApiSample, "OpenAPI")| == 2
  {
    NeedleOpenApi();
    ApiText1();
    FoundField(Api1, "OpenAPI", "tx-1", "10:00:00", "1000", "ok", "openapi", "openapi");
    ApiText2();
    Api2OpenApiSearch();
    NotFound(Api2, "OpenAPI", "tx-2", "10:00:01", "2000", "error", "internal", "openapi");
    ApiText3();
    Api3OpenApiSearch();
    NotFound(Api3, "OpenAPI", "tx-3", "10:00:02", "3000", "ok", "internal", "openapi");
    ApiText4();
    FoundField(Api4, "OpenAPI", "tx-4", "10:00:03", "4000", "error", "openapi", "openapi");
    KeepsFirstFourth(ApiSample, "OpenAPI");
  }

  /** The text of row TX-1 does not contain "does-not-exist". */
  lemma Api1MissingSearch()
    ensures !Includes(Spaced("tx-1", "10:00:00", "1000", "ok", "openapi"), "does-not-exist")
  {
    FieldsExclude("tx-1", "10:00:00", "1000", "ok", "openapi", "does-not-exist", 0, 0, 0, 0, 0);
  }

  /** The text of row TX-2 does not contain "does-not-exist". */
  lemma Api2MissingSearch()
    ensures !Includes(Spaced("tx-2", "10:00:01", "2000", "error", "internal"), "does-not-exist")
  {
    FieldsExclude("tx-2", "10:00:01", "2000", "error", "internal", "does-not-exist", 0, 0, 0, 0, 0);
  }

  /** The text of row TX-3 does not contain "does-not-exist". */
  lemma Api3MissingSearch()
    ensures !Includes(Spaced("tx-3", "10:00:02", "3000", "ok", "internal"), "does-not-exist")
  {
    FieldsExclude("tx-3", "10:00:02", "3000", "ok", "internal", "does-not-exist", 0, 0, 0, 0, 0);
  }

  /** The text of row TX-4 does not contain "does-not-exist". */
  lemma Api4MissingSearch()
    ensures !Includes(Spaced("tx-4", "10:00:03", "4000", "error", "openapi"), "does-not-exist")
  {
    FieldsExclude("tx-4", "10:00:03", "4000", "error", "openapi", "does-not-exist", 0, 0, 0, 0, 0);
  }

  /** A keyword that occurs nowhere finds nothing. */
  lemma ApiMissing()
    ensures FilterRows(ApiSample, "does-not-exist") == []
    ensures |FilterRows(ApiSample, "does-not-exist")| == 0
  {
    NeedleMissing();
    ApiText1();
    Api1MissingSearch();
    NotFound(Api1, "does-not-exist", "tx-1", "10:00:00", "1000", "ok", "openapi", "does-not-exist");
    ApiText2();
    Api2MissingSearch();
    NotFound(Api2, "does-not-exist", "tx-2", "10:00:01", "2000", "error", "internal", "does-not-exist");
    ApiText3();
    Api3MissingSearch();
    NotFound(Api3, "does-not-exist", "tx-3", "10:00:02", "3000", "ok", "internal", "does-not-exist");
    ApiText4();
    Api4MissingSearch();
    NotFound(Api4, "does-not-exist", "tx-4", "10:00:03", "4000", "error", "openapi", "does-not-exist");
    KeepsNone(ApiSample, "does-not-exist");
  }

  /** The text of row TX-1 does not contain "3000". */
  lemma Api1AmountSearch()
    ensures !Includes(Spaced("tx-1", "10:00:00", "1000", "ok", "openapi"), "3000")
  {
    FieldsExclude("tx-1", "10:00:00", "1000", "ok", "openapi", "3000", 0, 0, 0, 0, 0);
  }

  /** The text of row TX-2 does not contain "3000". */
  lemma Api2AmountSearch()
    ensures !Includes(Spaced("tx-2", "10:00:01", "2000", "error", "internal"), "3000")
  {
    FieldsExclude("tx-2", "10:00:01", "2000", "error", "internal", "3000", 0, 0, 0, 0, 0);
  }

  /** The text of row TX-4 does not contain "3000". */
  lemma Api4AmountSearch()
    ensures !Includes(Spaced("tx-4", "10:00:03", "4000", "error", "openapi"), "3000")
  {
    FieldsExclude("tx-4", "10:00:03", "4000", "error", "openapi", "3000", 0, 0, 0, 0, 0);
  }

  /** "3000" finds the one row with that amount. */
  lemma ApiAmount()
    ensures FilterRows(ApiSample, "3000") == [Api3]
    ensures |FilterRows(ApiSample, "3000")| == 1
  {
    NeedleAmount();
    ApiText1();
    Api1AmountSearch();
    NotFound(Api1, "3000", "tx-1", "10:00:00", "1000", "ok", "openapi", "3000");
    ApiText2();
    Api2AmountSearch();
    NotFound(Api2, "3000", "tx-2", "10:00:01", "2000", "error", "internal", "3000");
    ApiText3();
    FoundField(Api3, "3000", "tx-3", "10:00:02", "3000", "ok", "internal", "3000");
    ApiText4();
    Api4AmountSearch();
    NotFound(Api4, "3000", "tx-4", "10:00:03", "4000", "error", "openapi", "3000");
    KeepsThird(ApiSample, "3000");
  }

  /** The text of row TX-1 does not contain "tx-3". */
  lemma Api1IdSearch()
    ensures !Includes(Spaced("tx-1", "10:00:00", "1000", "ok", "openapi"), "tx-3")
  {
    FieldsExclude("tx-1", "10:00:00", "1000", "ok", "openapi", "tx-3", 3, 0, 0, 0, 0);
  }

  /** The text of row TX-2 does not contain "tx-3". */
  lemma Api2IdSearch()
    ensures !Includes(Spaced("tx-2", "10:00:01", "2000", "error", "internal"), "tx-3")
  {
    FieldsExclude("tx-2", "10:00:01", "2000", "error", "internal", "tx-3", 3, 0, 0, 0, 1);
  }

  /** The text of row TX-4 does not contain "tx-3". */
  lemma Api4IdSearch()
    ensures !Includes(Spaced("tx-4", "10:00:03", "4000", "error", "openapi"), "tx-3")
  {
    FieldsExclude("tx-4", "10:00:03", "4000", "error", "openapi", "tx-3", 3, 0, 0, 0, 0);
  }

  /** "tx-3" finds row TX-3 although the id is upper-case. */
  lemma ApiId()
    ensures FilterRows(ApiSample, "tx-3") == [Api3]
    ensures |FilterRows(ApiSample, "tx-3")| == 1
  {
    NeedleId();
    ApiText1();
    Api1IdSearch();
    NotFound(Api1, "tx-3", "tx-1", "10:00:00", "1000", "ok", "openapi", "tx-3");
    ApiText2();
    Api2IdSearch();
    NotFound(Api2, "tx-3", "tx-2", "10:00:01", "2000", "error", "internal", "tx-3");
    ApiText3();
    FoundField(Api3, "tx-3", "tx-3", "10:00:02", "3000", "ok", "internal", "tx-3");
    ApiText4();
    Api4IdSearch();
    NotFound(Api4, "tx-3", "tx-4", "10:00:03", "4000", "error", "openapi", "tx-3");
    KeepsThird(ApiSample, "tx-3");
  }

  /** The text of row TX-1 does not contain "internal". */
  lemma Api1InternalSearch()
    ensures !Includes(Spaced("tx-1", "10:00:00", "1000", "ok", "openapi"), "internal")
  {
    FieldsExclude("tx-1", "10:00:00", "1000", "ok", "openapi", "internal", 0, 0, 0, 0, 0);
  }

  /** The text of row TX-4 does not contain "internal". */
  lemma Api4InternalSearch()
    ensures !Includes(Spaced("tx-4", "10:00:03", "4000", "error", "openapi"), "internal")
  {
    FieldsExclude("tx-4", "10:00:03", "4000", "error", "openapi", "internal", 0, 0, 0, 0, 0);
  }

  /** "INTERNAL" finds the two Internal rows. */
  lemma ApiInternal()
    ensures FilterRows(ApiSample, "INTERNAL") == [Api2, Api3]
    ensures |FilterRows(ApiSample, "INTERNAL")| == 2
  {
    NeedleInternal();
    ApiText1();
    Api1InternalSearch();
    NotFound(Api1, "INTERNAL", "tx-1", "10:00:00", "1000", "ok", "openapi", "internal");
    ApiText2();
    FoundField(Api2, "INTERNAL", "tx-2", "10:00:01", "2000", "error", "internal", "internal");
    ApiText3();
    FoundField(Api3, "INTERNAL", "tx-3", "10:00:02", "3000", "ok", "internal", "internal");
    ApiText4();
    Api4InternalSearch();
    NotFound(Api4, "INTERNAL", "tx-4", "10:00:03", "4000", "error", "openapi", "internal");
    KeepsSecondThird(ApiSample, "INTERNAL");
  }
}

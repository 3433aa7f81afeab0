/**
 * Client scenarios for the engine, proved from the contracts of `Tribo`
 * alone: the expected values and cache lengths of tribo/tribo_test.go.
 */
module TriboTest {
  import opened Tribo

  /** The first thirty terms of the sequence. */
  lemma TermTable()
    ensures T(1) == 0 && T(2) == 0 && T(3) == 1 && T(4) == 1 && T(5) == 2
    ensures T(6) == 4 && T(7) == 7 && T(8) == 13 && T(9) == 24 && T(10) == 44
    ensures T(11) == 81 && T(12) == 149 && T(13) == 274 && T(14) == 504 && T(15) == 927
    ensures T(16) == 1705 && T(17) == 3136 && T(18) == 5768 && T(19) == 10609 && T(20) == 19513
    ensures T(21) == 35890 && T(22) == 66012 && T(23) == 121415 && T(24) == 223317
    ensures T(25) == 410744 && T(26) == 755476 && T(27) == 1389537 && T(28) == 2555757
    ensures T(29) == 4700770 && T(30) == 8646064
  {
  }

  /** A new engine stores its limit and holds the three seed terms. */
  method NewScenario() returns (limit: int, length: nat)
    ensures limit == 10 && length == 3
  {
    var t := new Tribo(10);
    limit := t.cacheSizeLimit;
    length := t.CacheLength();
  }

  /**
   * With limit 100 the cache holds exactly 50 terms after Get(50), and no
   * more than 100 after Get(1000).
   */
  method CacheLimitingScenario() returns (afterFifty: nat, afterThousand: nat)
    ensures afterFifty == 50 && afterThousand == 100
  {
    var t := new Tribo(100);
    var _ := t.Get(Background, 50);
    afterFifty := t.CacheLength();
    var _ := t.Get(Background, 1000);
    afterThousand := t.CacheLength();
  }

  /** Rows of the table of tribo/tribo_test.go, part 1: the indices up to the limit, first computed then from the cache. */
  method TablePart1(t: Tribo) returns (results: seq<Result<nat>>)
    requires t.Valid()
    modifies t
    ensures t.Valid()
    ensures results == [Err(InvalidArgument), Err(InvalidArgument), Ok(0), Ok(0), Ok(1), Ok(504), Ok(927), Ok(1705), Ok(1), Ok(2), Ok(4), Ok(7), Ok(13)]
  {
    TermTable();
    var rm5 := t.Get(Background, -5);
    var r0 := t.Get(Background, 0);
    var r1 := t.Get(Background, 1);
    var r2 := t.Get(Background, 2);
    var r3 := t.Get(Background, 3);
    var r14 := t.Get(Background, 14);
    var r15 := t.Get(Background, 15);
    var r16 := t.Get(Background, 16);
    var r4 := t.Get(Background, 4);
    var r5 := t.Get(Background, 5);
    var r6 := t.Get(Background, 6);
    var r7 := t.Get(Background, 7);
    var r8 := t.Get(Background, 8);
    results := [rm5, r0, r1, r2, r3, r14, r15, r16, r4, r5, r6, r7, r8];
  }

  /** Rows of the table of tribo/tribo_test.go, part 2: indices beyond the limit, computed each time. */
  method TablePart2(t: Tribo) returns (results: seq<Result<nat>>)
    requires t.Valid()
    modifies t
    ensures t.Valid()
    ensures results == [Ok(121415), Ok(223317), Ok(410744), Ok(755476), Ok(1389537), Ok(2555757), Ok(4700770), Ok(8646064)]
  {
    TermTable();
    var r23 := t.Get(Background, 23);
    var r24 := t.Get(Background, 24);
    var r25 := t.Get(Background, 25);
    var r26 := t.Get(Background, 26);
    var r27 := t.Get(Background, 27);
    var r28 := t.Get(Background, 28);
    var r29 := t.Get(Background, 29);
    var r30 := t.Get(Background, 30);
    results := [r23, r24, r25, r26, r27, r28, r29, r30];
  }

  /** Rows of the table of tribo/tribo_test.go, part 3: the remaining indices, from the full cache or computed. */
  method TablePart3(t: Tribo) returns (results: seq<Result<nat>>)
    requires t.Valid()
    modifies t
    ensures t.Valid()
    ensures results == [Ok(24), Ok(44), Ok(81), Ok(149), Ok(274), Ok(3136), Ok(5768), Ok(10609), Ok(19513), Ok(35890), Ok(66012)]
  {
    TermTable();
    var r9 := t.Get(Background, 9);
    var r10 := t.Get(Background, 10);
    var r11 := t.Get(Background, 11);
    var r12 := t.Get(Background, 12);
    var r13 := t.Get(Background, 13);
    var r17 := t.Get(Background, 17);
    var r18 := t.Get(Background, 18);
    var r19 := t.Get(Background, 19);
    var r20 := t.Get(Background, 20);
    var r21 := t.Get(Background, 21);
    var r22 := t.Get(Background, 22);
    results := [r9, r10, r11, r12, r13, r17, r18, r19, r20, r21, r22];
  }

  /**
   * The table of tribo/tribo_test.go, in its order, on one engine with limit
   * 20: non-positive indices fail, every other index yields its term whether
   * it is served from the cache or computed, and a context that fires long
   * before index 1000000 cancels the call and leaves the cache alone.
   */
  method GetScenario() returns (results: seq<Result<nat>>, cacheBefore: seq<nat>, cacheAfter: seq<nat>)
    ensures results == [Err(InvalidArgument), Err(InvalidArgument), Ok(0), Ok(0), Ok(1), Ok(504), Ok(927), Ok(1705), Ok(1), Ok(2), Ok(4), Ok(7), Ok(13), Ok(121415), Ok(223317), Ok(410744), Ok(755476), Ok(1389537), Ok(2555757), Ok(4700770), Ok(8646064), Ok(24), Ok(44), Ok(81), Ok(149), Ok(274), Ok(3136), Ok(5768), Ok(10609), Ok(19513), Ok(35890), Ok(66012), Err(Cancelled)]
    ensures cacheAfter == cacheBefore
  {
    var t := new Tribo(20);
    var part1 := TablePart1(t);
    var part2 := TablePart2(t);
    var part3 := TablePart3(t);
    cacheBefore := t.CacheCopy();
    var cancelled := t.Get(CancelAfter(1000), 1000000);
    cacheAfter := t.CacheCopy();
    results := part1 + part2 + part3 + [cancelled];
  }
}

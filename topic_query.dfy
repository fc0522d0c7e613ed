/**
 * The hand-written serializer of the topic-filtered event-log query
 * (`EventLogTopicPaginatedQuery`). Unlike every other query record it emits
 * a bare sequence of values, with no keys, whose length depends on which of
 * the optional topics `topic1..topic3` are non-empty.
 */
module TopicQuery {
  import opened Values

  datatype EventLogTopicPaginatedQuery = EventLogTopicPaginatedQuery(
    fromBlock: i64,
    toBlock: i64,
    topic0: string,
    topic1: string,
    topic2: string,
    topic3: string,
    opr01: string,   // operator between topic0 and topic1, "and" or "or"
    opr12: string,   // operator between topic1 and topic2
    opr23: string,   // operator between topic2 and topic3
    page: i64,
    offset: i64)

  /** Topic slot `k` of the chain. */
  function Topic(q: EventLogTopicPaginatedQuery, k: nat): string
    requires k <= 3
  {
    match k
    case 0 => q.topic0
    case 1 => q.topic1
    case 2 => q.topic2
    case 3 => q.topic3
  }

  /** The operator of the boundary just before topic `k` (between topics k-1 and k). */
  function Operator(q: EventLogTopicPaginatedQuery, k: nat): string
    requires 1 <= k <= 3
  {
    match k
    case 1 => q.opr01
    case 2 => q.opr12
    case 3 => q.opr23
  }

  /** The element pair for one optional topic: the topic and its operator, or nothing if it is empty. */
  function OptionalTopic(topic: string, opr: string): (r: seq<Elem>)
    ensures topic == "" <==> r == []
  {
    if topic != "" then [S(topic), S(opr)] else []
  }

  /**
   * The encoder's output as one expression: the three guarded steps written
   * as concatenations. fromblock, toblock and topic0 always lead and page,
   * offset always close, even when topic0 is empty.
   */
  function Encoded(q: EventLogTopicPaginatedQuery): (r: seq<Elem>)
    ensures |r| >= 5
    ensures r[0] == I(q.fromBlock) && r[1] == I(q.toBlock) && r[2] == S(q.topic0)
    ensures r[|r| - 2] == I(q.page) && r[|r| - 1] == I(q.offset)
  {
    [I(q.fromBlock), I(q.toBlock), S(q.topic0)]
    + OptionalTopic(q.topic1, q.opr01)
    + OptionalTopic(q.topic2, q.opr12)
    + OptionalTopic(q.topic3, q.opr23)
    + [I(q.page), I(q.offset)]
  }

  /**
   * `serialize`: append the elements one by one to the output sequence, each
   * optional topic guarded by its own emptiness check.
   */
  method Serialize(q: EventLogTopicPaginatedQuery) returns (out: seq<Elem>)
    ensures out == Encoded(q)
  {
    out := [];
    out := out + [I(q.fromBlock)];
    out := out + [I(q.toBlock)];
    out := out + [S(q.topic0)];
    assert out == [I(q.fromBlock), I(q.toBlock), S(q.topic0)];
    ghost var done := out;
    if q.topic1 != "" {
      out := out + [S(q.topic1)];
      out := out + [S(q.opr01)];
    }
    assert out == done + OptionalTopic(q.topic1, q.opr01);
    done := out;
    if q.topic2 != "" {
      out := out + [S(q.topic2)];
      out := out + [S(q.opr12)];
    }
    assert out == done + OptionalTopic(q.topic2, q.opr12);
    done := out;
    if q.topic3 != "" {
      out := out + [S(q.topic3)];
      out := out + [S(q.opr23)];
    }
    assert out == done + OptionalTopic(q.topic3, q.opr23);
    done := out;
    out := out + [I(q.page)];
    out := out + [I(q.offset)];
    assert out == done + [I(q.page), I(q.offset)];
  }

  // ----- An independent description of the output -------------------------

  /** The indices k in from..3 whose topic is non-empty, in increasing order. */
  function PresentFrom(q: EventLogTopicPaginatedQuery, from: nat): seq<nat>
    requires 1 <= from <= 4
    decreases 4 - from
  {
    if from == 4 then []
    else (if Topic(q, from) != "" then [from] else []) + PresentFrom(q, from + 1)
  }

  /** The optional topics that the encoder emits, by index. */
  function PresentTopics(q: EventLogTopicPaginatedQuery): seq<nat>
  {
    PresentFrom(q, 1)
  }

  predicate ValidIndices(ks: seq<nat>)
  {
    forall i :: 0 <= i < |ks| ==> 1 <= ks[i] <= 3
  }

  /** Each listed topic followed by the operator of the boundary before it. */
  function Slots(q: EventLogTopicPaginatedQuery, ks: seq<nat>): (r: seq<Elem>)
    requires ValidIndices(ks)
    ensures |r| == 2 * |ks|
  {
    if ks == [] then []
    else [S(Topic(q, ks[0])), S(Operator(q, ks[0]))] + Slots(q, ks[1..])
  }

  lemma {:induction false} SlotsAppend(q: EventLogTopicPaginatedQuery, a: seq<nat>, b: seq<nat>)
    requires ValidIndices(a) && ValidIndices(b)
    ensures ValidIndices(a + b)
    ensures Slots(q, a + b) == Slots(q, a) + Slots(q, b)
  {
    if a != [] {
      assert (a + b)[1..] == a[1..] + b;
      SlotsAppend(q, a[1..], b);
    } else {
      assert a + b == b;
    }
  }

  lemma {:induction false} SlotsAt(q: EventLogTopicPaginatedQuery, ks: seq<nat>, i: nat)
    requires ValidIndices(ks) && i < |ks|
    ensures Slots(q, ks)[2 * i] == S(Topic(q, ks[i]))
    ensures Slots(q, ks)[2 * i + 1] == S(Operator(q, ks[i]))
  {
    if i > 0 {
      SlotsAt(q, ks[1..], i - 1);
    }
  }

  /** PresentTopics lists, increasingly, exactly the non-empty optional topics. */
  lemma PresentTopicsIff(q: EventLogTopicPaginatedQuery)
    ensures ValidIndices(PresentTopics(q)) && |PresentTopics(q)| <= 3
    ensures forall i, j :: 0 <= i < j < |PresentTopics(q)| ==> PresentTopics(q)[i] < PresentTopics(q)[j]
    ensures forall k :: 1 <= k <= 3 ==> (k in PresentTopics(q) <==> Topic(q, k) != "")
  {
    PresentTopicsUnfold(q);
    PresentTopicsValid(q);
    PresentTopicsIncreasing(q);
    PresentTopicsMembers(q);
  }

  lemma PresentTopicsValid(q: EventLogTopicPaginatedQuery)
    requires PresentTopics(q) == Mark(q, 1) + (Mark(q, 2) + Mark(q, 3))
    ensures ValidIndices(PresentTopics(q)) && |PresentTopics(q)| <= 3
  {
    ValidAppend(Mark(q, 2), Mark(q, 3));
    ValidAppend(Mark(q, 1), Mark(q, 2) + Mark(q, 3));
  }

  lemma ValidAppend(a: seq<nat>, b: seq<nat>)
    requires ValidIndices(a) && ValidIndices(b)
    ensures ValidIndices(a + b)
  {
  }

  lemma PresentTopicsIncreasing(q: EventLogTopicPaginatedQuery)
    requires PresentTopics(q) == Mark(q, 1) + (Mark(q, 2) + Mark(q, 3))
    ensures forall i, j :: 0 <= i < j < |PresentTopics(q)| ==> PresentTopics(q)[i] < PresentTopics(q)[j]
  {
    var m1, m23 := Mark(q, 1), Mark(q, 2) + Mark(q, 3);
    assert forall i, j :: 0 <= i < j < |m23| ==> m23[i] < m23[j];
  }

  lemma PresentTopicsMembers(q: EventLogTopicPaginatedQuery)
    requires PresentTopics(q) == Mark(q, 1) + (Mark(q, 2) + Mark(q, 3))
    ensures forall k :: 1 <= k <= 3 ==> (k in PresentTopics(q) <==> Topic(q, k) != "")
  {
    var m1, m2, m3 := Mark(q, 1), Mark(q, 2), Mark(q, 3);
    forall k | 1 <= k <= 3 ensures k in PresentTopics(q) <==> Topic(q, k) != "" {
      assert k in m1 + (m2 + m3) <==> k in m1 || k in m2 || k in m3;
    }
  }

  /** Every listed topic is non-empty. */
  lemma PresentIsNonEmpty(q: EventLogTopicPaginatedQuery, i: nat)
    requires i < |PresentTopics(q)|
    ensures 1 <= PresentTopics(q)[i] <= 3 && Topic(q, PresentTopics(q)[i]) != ""
  {
    PresentTopicsIff(q);
    assert PresentTopics(q)[i] in PresentTopics(q);
  }

  /** Index k as a one-element list if topic k is non-empty, else nothing. */
  function Mark(q: EventLogTopicPaginatedQuery, k: nat): (r: seq<nat>)
    requires 1 <= k <= 3
    ensures ValidIndices(r) && |r| <= 1
    ensures forall x :: x in r <==> x == k && Topic(q, k) != ""
  {
    if Topic(q, k) != "" then [k] else []
  }

  lemma PresentTopicsUnfold(q: EventLogTopicPaginatedQuery)
    ensures PresentTopics(q) == Mark(q, 1) + (Mark(q, 2) + Mark(q, 3))
  {
    assert PresentFrom(q, 3) == Mark(q, 3) + [];
    assert PresentFrom(q, 2) == Mark(q, 2) + Mark(q, 3);
  }

  lemma SingleSlot(q: EventLogTopicPaginatedQuery, k: nat)
    requires 1 <= k <= 3
    ensures Slots(q, Mark(q, k)) == OptionalTopic(Topic(q, k), Operator(q, k))
  {
    if Topic(q, k) != "" {
      assert Mark(q, k)[1..] == [];
    }
  }

  lemma SlotsUnfold(q: EventLogTopicPaginatedQuery)
    ensures ValidIndices(PresentTopics(q))
    ensures Slots(q, PresentTopics(q)) == OptionalTopic(q.topic1, q.opr01)
                                          + (OptionalTopic(q.topic2, q.opr12) + OptionalTopic(q.topic3, q.opr23))
  {
    PresentTopicsUnfold(q);
    SlotsAppend(q, Mark(q, 2), Mark(q, 3));
    SlotsAppend(q, Mark(q, 1), Mark(q, 2) + Mark(q, 3));
    SingleSlot(q, 1);
    SingleSlot(q, 2);
    SingleSlot(q, 3);
  }

  /** The encoder emits the fixed head, the present topics interleaved with their operators, then the fixed tail. */
  lemma EncodedByReference(q: EventLogTopicPaginatedQuery)
    ensures ValidIndices(PresentTopics(q))
    ensures Encoded(q) == [I(q.fromBlock), I(q.toBlock), S(q.topic0)]
                          + Slots(q, PresentTopics(q))
                          + [I(q.page), I(q.offset)]
  {
    SlotsUnfold(q);
    var o1 := OptionalTopic(q.topic1, q.opr01);
    var o2 := OptionalTopic(q.topic2, q.opr12);
    var o3 := OptionalTopic(q.topic3, q.opr23);
    var head := [I(q.fromBlock), I(q.toBlock), S(q.topic0)];
    var tail := [I(q.page), I(q.offset)];
    assert Encoded(q) == head + o1 + o2 + o3 + tail;
    RegroupMiddle(head, o1, o2, o3, tail);
  }

  lemma RegroupMiddle(head: seq<Elem>, a: seq<Elem>, b: seq<Elem>, c: seq<Elem>, tail: seq<Elem>)
    ensures head + a + b + c + tail == head + (a + (b + c)) + tail
  {
  }

  // ----- Properties ----------------------------------------------------------

  /** The length is 5 plus two per non-empty optional topic. */
  lemma LengthByPresentCount(q: EventLogTopicPaginatedQuery)
    ensures |Encoded(q)| == 5 + 2 * |PresentTopics(q)|
  {
    EncodedByReference(q);
  }

  /** So the length is 5, 7, 9 or 11: the capacity hint of 10 is no bound. */
  lemma LengthValues(q: EventLogTopicPaginatedQuery)
    ensures |Encoded(q)| in {5, 7, 9, 11}
  {
    LengthByPresentCount(q);
    PresentTopicsIff(q);
  }

  /** The i-th emitted optional topic sits at 3 + 2i, its operator right after it. */
  lemma TopicSlot(q: EventLogTopicPaginatedQuery, i: nat)
    requires i < |PresentTopics(q)|
    ensures 1 <= PresentTopics(q)[i] <= 3
    ensures 4 + 2 * i < |Encoded(q)| - 2
    ensures Encoded(q)[3 + 2 * i] == S(Topic(q, PresentTopics(q)[i]))
    ensures Encoded(q)[4 + 2 * i] == S(Operator(q, PresentTopics(q)[i]))
  {
    EncodedByReference(q);
    var ks := PresentTopics(q);
    var slots := Slots(q, ks);
    SlotsAt(q, ks, i);
    var head, tail := [I(q.fromBlock), I(q.toBlock), S(q.topic0)], [I(q.page), I(q.offset)];
    var e := Encoded(q);
    assert e == head + slots + tail;
    assert e[3 + 2 * i] == slots[2 * i];
    assert e[4 + 2 * i] == slots[2 * i + 1];
  }

  /** topic k (1..3) is emitted, as the i-th optional slot and followed by the operator before it, iff it is non-empty. */
  lemma TopicEmittedIff(q: EventLogTopicPaginatedQuery, k: nat)
    requires 1 <= k <= 3
    ensures Topic(q, k) != "" <==>
      exists i :: 0 <= i < |PresentTopics(q)| && PresentTopics(q)[i] == k && 4 + 2 * i < |Encoded(q)| - 2 &&
                  Encoded(q)[3 + 2 * i] == S(Topic(q, k)) && Encoded(q)[4 + 2 * i] == S(Operator(q, k))
  {
    PresentTopicsIff(q);
    var ks := PresentTopics(q);
    if Topic(q, k) != "" {
      var i :| 0 <= i < |ks| && ks[i] == k;
      TopicSlot(q, i);
    }
  }

  /**
   * Every position between the head and the tail alternates topic/operator:
   * an operator is always the second element of a slot, and the element
   * before it is its own topic, which is non-empty.
   */
  lemma NoOperatorWithoutItsTopic(q: EventLogTopicPaginatedQuery, j: nat)
    requires 3 <= j < |Encoded(q)| - 2 && (j - 3) % 2 == 1
    ensures exists k :: 1 <= k <= 3 && Topic(q, k) != "" &&
              Encoded(q)[j - 1] == S(Topic(q, k)) && Encoded(q)[j] == S(Operator(q, k))
  {
    LengthByPresentCount(q);
    var i := (j - 4) / 2;
    OperatorPosition(j);
    assert i < |PresentTopics(q)|;
    TopicSlot(q, i);
    PresentIsNonEmpty(q, i);
    var k := PresentTopics(q)[i];
    assert 1 <= k <= 3 && Topic(q, k) != "" &&
           Encoded(q)[j - 1] == S(Topic(q, k)) && Encoded(q)[j] == S(Operator(q, k));
  }

  lemma OperatorPosition(j: int)
    requires 3 <= j && (j - 3) % 2 == 1
    ensures j >= 4 && j == 4 + 2 * ((j - 4) / 2)
  {
  }

  /**
   * The checks are independent: with topic1 empty and topic2 set, topic2 and
   * the operator topic1_2 are emitted right after topic0, and topic1 is not.
   */
  lemma IndependentChecks(q: EventLogTopicPaginatedQuery)
    requires q.topic1 == "" && q.topic2 != "" && q.topic3 == ""
    ensures Encoded(q) == [I(q.fromBlock), I(q.toBlock), S(q.topic0), S(q.topic2), S(q.opr12),
                           I(q.page), I(q.offset)]
    ensures PresentTopics(q) == [2]
  {
    assert PresentFrom(q, 3) == [];
    assert PresentFrom(q, 2) == [2];
  }

  /** Topics fill from the front: a non-empty topic has a non-empty predecessor. */
  predicate PrefixFull(q: EventLogTopicPaginatedQuery)
  {
    (q.topic2 != "" ==> q.topic1 != "") && (q.topic3 != "" ==> q.topic2 != "")
  }

  /** Under prefix-fullness the emitted topics are exactly topic1..topic_m, in order. */
  lemma PrefixChain(q: EventLogTopicPaginatedQuery)
    requires PrefixFull(q)
    ensures forall i :: 0 <= i < |PresentTopics(q)| ==> PresentTopics(q)[i] == i + 1
    ensures forall k :: 1 <= k <= 3 ==> (Topic(q, k) != "" <==> k <= |PresentTopics(q)|)
  {
    PresentTopicsIff(q);
    assert PresentFrom(q, 3) == if q.topic3 != "" then [3] else [];
    assert PresentFrom(q, 2) == (if q.topic2 != "" then [2] else []) + PresentFrom(q, 3);
  }

  /** The element counts for no, one and three optional topics: 5, 7 and 11. */
  lemma ExampleLengths(from: i64, to: i64, t0: string, t1: string, t2: string, t3: string, page: i64, offset: i64)
    requires t1 != "" && t2 != "" && t3 != ""
    ensures |Encoded(EventLogTopicPaginatedQuery(from, to, t0, "", "", "", "and", "and", "and", page, offset))| == 5
    ensures |Encoded(EventLogTopicPaginatedQuery(from, to, t0, t1, "", "", "and", "and", "and", page, offset))| == 7
    ensures |Encoded(EventLogTopicPaginatedQuery(from, to, t0, t1, t2, t3, "and", "or", "and", page, offset))| == 11
  {
  }
}

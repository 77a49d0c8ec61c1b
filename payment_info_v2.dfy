/** The second version's `PaymentInfoV2` entity: the lease terms, an ordered
    hash from base due date to details, and the records derived from that
    hash, which are rebuilt whenever the hash is replaced. */
module PaymentInfoV2Entity {
  import opened CivilDate
  import opened Schedule

  /** One pair of an ordered Ruby hash from base date to details. The hash
      itself is the sequence of its pairs in insertion order. */
  datatype Row = Row(baseDate: Date, details: Entry)

  /** The keys of an ordered hash, in order. */
  function KeysOf(rows: seq<Row>): (keys: seq<Date>)
    ensures |keys| == |rows|
  {
    seq(|rows|, i requires 0 <= i < |rows| => rows[i].baseDate)
  }

  /** No key occurs twice, as in every Ruby hash. */
  predicate DistinctKeys(rows: seq<Row>) {
    forall a, b :: 0 <= a < b < |rows| ==> rows[a].baseDate != rows[b].baseDate
  }

  /** `h[k] = v`: a key already present keeps its place and takes the new
      value; a new key goes at the end. */
  function Put(rows: seq<Row>, k: Date, e: Entry): seq<Row>
    decreases |rows|
  {
    if rows == [] then [Row(k, e)]
    else if rows[0].baseDate == k then [Row(k, e)] + rows[1..]
    else [rows[0]] + Put(rows[1..], k, e)
  }

  /** Storing under a new key appends the pair. */
  lemma {:induction false} PutFresh(rows: seq<Row>, k: Date, e: Entry)
    requires forall n :: 0 <= n < |rows| ==> rows[n].baseDate != k
    ensures Put(rows, k, e) == rows + [Row(k, e)]
    decreases |rows|
  {
    if rows != [] {
      assert rows[0].baseDate != k;
      PutFresh(rows[1..], k, e);
      assert [rows[0]] + (rows[1..] + [Row(k, e)]) == rows + [Row(k, e)];
    }
  }

  /** Storing under a key that is present replaces its value in place. */
  lemma {:induction false} PutExisting(rows: seq<Row>, k: Date, e: Entry, j: nat)
    requires j < |rows| && rows[j].baseDate == k
    requires forall n :: 0 <= n < j ==> rows[n].baseDate != k
    ensures Put(rows, k, e) == rows[j := Row(k, e)]
    decreases |rows|
  {
    if j == 0 {
      assert [Row(k, e)] + rows[1..] == rows[0 := Row(k, e)];
    } else {
      assert rows[0].baseDate != k;
      PutExisting(rows[1..], k, e, j - 1);
      assert [rows[0]] + rows[1..][j - 1 := Row(k, e)] == rows[j := Row(k, e)];
    }
  }

  /** One record of `payment_dates`: all three fields are always there, and
      the `payment_date` field holds the text the date prints as, which
      `PaymentDateText` gives. */
  datatype RecordV2 = RecordV2(paymentDate: Date, amount: int, methodName: string)
  {
    /** `v[:payment_date].to_s`. */
    function PaymentDateText(): string {
      Format(paymentDate)
    }
  }

  /** The record `build_payment_dates` makes of one pair of the hash: `:none`
      prints as `nil.to_s`, the empty string. */
  function RecordOfRow(row: Row): RecordV2 {
    RecordV2(row.details.paymentDate, row.details.amount,
             if row.details.paymentMethod != None then MethodName(row.details.paymentMethod) else "")
  }

  /** What `build_payment_dates` computes: one record per pair, in hash
      order. */
  function PaymentDatesOf(rows: seq<Row>): seq<RecordV2> {
    seq(|rows|, i requires 0 <= i < |rows| => RecordOfRow(rows[i]))
  }

  /** One record per pair, in order; each record carries the payment date's
      text and the amount, and its method is empty exactly for `:none` and the
      method's name otherwise. */
  lemma PaymentDatesFields(rows: seq<Row>)
    ensures |PaymentDatesOf(rows)| == |rows|
    ensures forall i :: 0 <= i < |rows| ==>
              PaymentDatesOf(rows)[i].PaymentDateText() == Format(rows[i].details.paymentDate)
              && PaymentDatesOf(rows)[i].amount == rows[i].details.amount
              && (PaymentDatesOf(rows)[i].methodName == "" <==> rows[i].details.paymentMethod == None)
              && (rows[i].details.paymentMethod != None ==>
                    PaymentDatesOf(rows)[i].methodName == MethodName(rows[i].details.paymentMethod))
  {
    forall i | 0 <= i < |rows|
      ensures PaymentDatesOf(rows)[i].methodName == "" <==> rows[i].details.paymentMethod == None
    {
      if rows[i].details.paymentMethod != None {
        assert MethodName(rows[i].details.paymentMethod) != "";
      }
    }
  }

  /** The state of one `PaymentInfoV2`. */
  class PaymentInfoV2 {
    /** `@amount`, `@frequency`, `@start_date`, `@end_date`. */
    var amount: int
    var frequency: Frequency
    var startDate: Date
    var endDate: Date
    /** `@payment_date_map`, an ordered hash. */
    var paymentDateMap: seq<Row>
    /** `@payment_dates`. */
    var paymentDates: seq<RecordV2>

    /** The records always reflect the current hash. */
    ghost predicate Valid()
      reads this
    {
      paymentDates == PaymentDatesOf(paymentDateMap)
    }

    /** `initialize`: stores the terms and the hash, then derives the
        records. */
    constructor (amount: int, frequency: Frequency, startDate: Date, endDate: Date, paymentDateMap: seq<Row>)
      ensures Valid()
      ensures this.amount == amount && this.frequency == frequency
      ensures this.startDate == startDate && this.endDate == endDate
      ensures this.paymentDateMap == paymentDateMap
    {
      this.amount := amount;
      this.frequency := frequency;
      this.startDate := startDate;
      this.endDate := endDate;
      this.paymentDateMap := paymentDateMap;
      new;
      BuildPaymentDates();
    }

    /** `payment_date_map=`: replaces the hash and derives the records anew;
        the terms are left alone. */
    method SetPaymentDateMap(paymentDateMap: seq<Row>)
      modifies this`paymentDateMap, this`paymentDates
      ensures Valid()
      ensures this.paymentDateMap == paymentDateMap
    {
      this.paymentDateMap := paymentDateMap;
      BuildPaymentDates();
    }

    /** `build_payment_dates`. */
    method BuildPaymentDates()
      modifies this`paymentDates
      ensures Valid()
    {
      paymentDates := PaymentDatesOf(paymentDateMap);
    }
  }
}

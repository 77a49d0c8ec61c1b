/** The second version's service: a lease expanded into an ordered hash of
    details, and updates that build a new hash of copied details and hand
    it to the entity's setter. */
module PaymentInfoServiceV2 {
  import opened CivilDate
  import opened Schedule
  import opened UtilConstantsV2
  import opened PaymentInfoV2Entity

  /** The details stored for a base date: the payment is made
      `PAYMENT_METHOD[m]` days before it. */
  function Details(m: PaymentMethod, baseDate: Date, amount: int): Entry {
    Entry(SubDays(baseDate, PaymentMethodOffset(m)), amount, m)
  }

  /** The details carry the amount and method they were built with, and the
      payment date lies the method's offset before the base date, so never
      after it. */
  lemma DetailsPayAhead(m: PaymentMethod, baseDate: Date, amount: int)
    ensures var e := Details(m, baseDate, amount);
            e.amount == amount && e.paymentMethod == m
            && AddDays(e.paymentDate, PaymentMethodOffset(m)) == baseDate
            && !Less(baseDate, e.paymentDate)
  {
    var paymentDate := SubDays(baseDate, PaymentMethodOffset(m));
    OrdinalInjective(AddDays(paymentDate, PaymentMethodOffset(m)), baseDate);
  }

  /** The hash of a schedule over the base dates `keys` under method `m`,
      each pair holding the details at the amount that the rent changes
      `changes`, applied in call order, leave in force on its base date.
      `build_payment_dates_from_rent` makes the one with no changes. */
  function RowsUnder(keys: seq<Date>, m: PaymentMethod, initial: int, changes: seq<RentChange>): seq<Row> {
    seq(|keys|, i requires 0 <= i < |keys| => Row(keys[i], Details(m, keys[i], AmountAfter(initial, changes, keys[i]))))
  }

  /** The keys of the hash are the base dates it was built over. */
  lemma RowsUnderKeys(keys: seq<Date>, m: PaymentMethod, initial: int, changes: seq<RentChange>)
    ensures KeysOf(RowsUnder(keys, m, initial, changes)) == keys
  {
  }

  /** One more base date appends its pair. */
  lemma RowsUnderSnoc(keys: seq<Date>, k: Date, m: PaymentMethod, amount: int)
    ensures RowsUnder(keys + [k], m, amount, []) == RowsUnder(keys, m, amount, []) + [Row(k, Details(m, k, amount))]
  {
    assert AmountAfter(amount, [], k) == amount;
  }

  /** Storing a base date that lies after every one stored so far appends
      its pair. */
  lemma StoreNext(keys: seq<Date>, k: Date, m: PaymentMethod, amount: int)
    requires forall n :: 0 <= n < |keys| ==> Less(keys[n], k)
    ensures Put(RowsUnder(keys, m, amount, []), k, Details(m, k, amount)) == RowsUnder(keys + [k], m, amount, [])
  {
    var rows := RowsUnder(keys, m, amount, []);
    assert forall n :: 0 <= n < |rows| ==> rows[n].baseDate == keys[n];
    PutFresh(rows, k, Details(m, k, amount));
    RowsUnderSnoc(keys, k, m, amount);
  }

  /** One turn of the loop: the current term is the next due date, and
      storing it appends its pair. */
  lemma GenerateStep(c: nat -> Date, end: Date, keys: seq<Date>, i: nat, m: PaymentMethod, amount: int)
    requires Increasing(c) && Less(c(i), end)
    requires |keys| == i && DueDatesFrom(c, end, 0) == keys + DueDatesFrom(c, end, i)
    ensures DueDatesFrom(c, end, 0) == (keys + [c(i)]) + DueDatesFrom(c, end, i + 1)
    ensures Put(RowsUnder(keys, m, amount, []), c(i), Details(m, c(i), amount)) == RowsUnder(keys + [c(i)], m, amount, [])
  {
    DueDatesFromStep(c, end, i);
    WalkedBefore(c, end, keys, i);
    StoreNext(keys, c(i), m, amount);
  }

  /** The loop of `build_payment_dates_from_rent` over the series `c` of
      candidate due dates (term `i` computed from the start date): term after
      term while it lies before `end`, each one stored with its details. */
  method GenerateRows(c: nat -> Date, end: Date, m: PaymentMethod, amount: int) returns (rows: seq<Row>)
    requires Increasing(c)
    ensures rows == RowsUnder(DueDatesFrom(c, end, 0), m, amount, [])
  {
    rows := [];
    ghost var keys: seq<Date> := [];
    var i := 0;
    var current := c(i);
    while Less(current, end)
      invariant current == c(i) && |keys| == i
      invariant DueDatesFrom(c, end, 0) == keys + DueDatesFrom(c, end, i)
      invariant rows == RowsUnder(keys, m, amount, [])
      decreases |DueDatesFrom(c, end, 0)| - |keys|
    {
      GenerateStep(c, end, keys, i, m, amount);
      rows := Put(rows, current, Details(m, current, amount));
      keys := keys + [current];
      i := i + 1;
      current := c(i);
    }
    DueDatesFromStep(c, end, i);
  }

  /** `build_payment_dates_from_rent`: through the lease's due dates in
      order, each base date mapped to its details. */
  method BuildPaymentDatesFromRent(rent: Rent) returns (rows: seq<Row>)
    ensures rows == RowsUnder(DueDates(rent.startDate, rent.endDate, RentFrequency(rent.frequency)),
                              rent.paymentMethod, rent.amount, [])
  {
    var step := RentFrequency(rent.frequency);
    CandidatesIncreasing(rent.startDate, step);
    rows := GenerateRows(Candidates(rent.startDate, step), rent.endDate, rent.paymentMethod, rent.amount);
  }

  /** `build_payment_info` on parsed terms: the entity holds the terms and
      the generated hash. */
  method BuildPaymentInfo(rent: Rent) returns (info: PaymentInfoV2)
    ensures fresh(info) && info.Valid()
    ensures info.amount == rent.amount && info.frequency == rent.frequency
    ensures info.startDate == rent.startDate && info.endDate == rent.endDate
    ensures info.paymentDateMap == RowsUnder(DueDates(rent.startDate, rent.endDate, RentFrequency(rent.frequency)),
                                             rent.paymentMethod, rent.amount, [])
  {
    var paymentDateMap := BuildPaymentDatesFromRent(rent);
    info := new PaymentInfoV2(rent.amount, rent.frequency, rent.startDate, rent.endDate, paymentDateMap);
  }

  /** The new hash of `adjust_rent`: a copy of each pair's details, with the
      new amount where the base date is on or after the effective date. */
  function AdjustedRows(rows: seq<Row>, change: RentChange): seq<Row> {
    seq(|rows|, i requires 0 <= i < |rows| =>
      Row(rows[i].baseDate,
          if AtLeast(rows[i].baseDate, change.effectiveDate) then rows[i].details.(amount := change.amount)
          else rows[i].details))
  }

  /** The adjusted hash has the same keys in the same order; each pair keeps
      its payment date and method, takes the new amount exactly when it is
      due on or after the effective date, and is otherwise left as it was. */
  lemma AdjustedRowsFields(rows: seq<Row>, change: RentChange)
    ensures KeysOf(AdjustedRows(rows, change)) == KeysOf(rows)
    ensures forall i :: 0 <= i < |rows| ==>
              AdjustedRows(rows, change)[i].details.paymentDate == rows[i].details.paymentDate
              && AdjustedRows(rows, change)[i].details.paymentMethod == rows[i].details.paymentMethod
    ensures forall i :: 0 <= i < |rows| && AtLeast(rows[i].baseDate, change.effectiveDate) ==>
              AdjustedRows(rows, change)[i].details.amount == change.amount
    ensures forall i :: 0 <= i < |rows| && Less(rows[i].baseDate, change.effectiveDate) ==>
              AdjustedRows(rows, change)[i] == rows[i]
  {
  }

  /** The new hash of `add_or_change_payment_method`: a copy of each pair's
      details with the new method and the payment date recomputed from the
      base date. */
  function MethodChangedRows(rows: seq<Row>, m: PaymentMethod): seq<Row> {
    seq(|rows|, i requires 0 <= i < |rows| =>
      Row(rows[i].baseDate,
          rows[i].details.(paymentMethod := m, paymentDate := SubDays(rows[i].baseDate, PaymentMethodOffset(m)))))
  }

  /** The changed hash has the same keys in the same order; every pair keeps
      its amount, takes the new method, and pays the new method's offset
      before its base date. */
  lemma MethodChangedRowsFields(rows: seq<Row>, m: PaymentMethod)
    ensures KeysOf(MethodChangedRows(rows, m)) == KeysOf(rows)
    ensures forall i :: 0 <= i < |rows| ==>
              MethodChangedRows(rows, m)[i].details.amount == rows[i].details.amount
              && MethodChangedRows(rows, m)[i].details.paymentMethod == m
              && AddDays(MethodChangedRows(rows, m)[i].details.paymentDate, PaymentMethodOffset(m)) == rows[i].baseDate
  {
    forall i | 0 <= i < |rows|
      ensures AddDays(MethodChangedRows(rows, m)[i].details.paymentDate, PaymentMethodOffset(m)) == rows[i].baseDate
    {
      DetailsPayAhead(m, rows[i].baseDate, rows[i].details.amount);
    }
  }

  /** A rent change applied to a schedule is one more change in its list. */
  lemma AdjustedUnder(keys: seq<Date>, m: PaymentMethod, initial: int, changes: seq<RentChange>, c: RentChange)
    ensures AdjustedRows(RowsUnder(keys, m, initial, changes), c) == RowsUnder(keys, m, initial, changes + [c])
  {
    forall i | 0 <= i < |keys|
      ensures AdjustedRows(RowsUnder(keys, m, initial, changes), c)[i] == RowsUnder(keys, m, initial, changes + [c])[i]
    {
      LastWriteWins(initial, changes, c, keys[i]);
    }
  }

  /** A method change applied to a schedule is the schedule built under the
      new method. */
  lemma MethodChangedUnder(keys: seq<Date>, m: PaymentMethod, initial: int, changes: seq<RentChange>,
                           m2: PaymentMethod)
    ensures MethodChangedRows(RowsUnder(keys, m, initial, changes), m2) == RowsUnder(keys, m2, initial, changes)
  {
  }

  /** A rent change and a method change commute, on every hash. */
  lemma ChangesCommute(rows: seq<Row>, c: RentChange, m: PaymentMethod)
    ensures MethodChangedRows(AdjustedRows(rows, c), m) == AdjustedRows(MethodChangedRows(rows, m), c)
  {
  }

  /** Two rent changes in a row: the later one decides every pair it reaches,
      the earlier one the pairs only it reaches. */
  lemma AdjustedTwice(rows: seq<Row>, c1: RentChange, c2: RentChange)
    ensures KeysOf(AdjustedRows(AdjustedRows(rows, c1), c2)) == KeysOf(rows)
    ensures forall i :: 0 <= i < |rows| ==>
              AdjustedRows(AdjustedRows(rows, c1), c2)[i].details.amount
              == if AtLeast(rows[i].baseDate, c2.effectiveDate) then c2.amount
                 else if AtLeast(rows[i].baseDate, c1.effectiveDate) then c1.amount
                 else rows[i].details.amount
  {
  }

  /** `adjust_rent` on a parsed change: the entity takes the adjusted hash
      through its setter, and the records it then holds are returned. The
      previous hash value is left as it was. */
  method AdjustRent(info: PaymentInfoV2, change: RentChange) returns (paymentDates: seq<RecordV2>)
    modifies info`paymentDateMap, info`paymentDates
    ensures info.Valid()
    ensures info.paymentDateMap == AdjustedRows(old(info.paymentDateMap), change)
    ensures paymentDates == info.paymentDates
  {
    var newPaymentDateMap := AdjustedRows(info.paymentDateMap, change);
    info.SetPaymentDateMap(newPaymentDateMap);
    paymentDates := info.paymentDates;
  }

  /** `add_or_change_payment_method` on a parsed method. */
  method AddOrChangePaymentMethod(info: PaymentInfoV2, m: PaymentMethod) returns (paymentDates: seq<RecordV2>)
    modifies info`paymentDateMap, info`paymentDates
    ensures info.Valid()
    ensures info.paymentDateMap == MethodChangedRows(old(info.paymentDateMap), m)
    ensures paymentDates == info.paymentDates
  {
    var newPaymentDateMap := MethodChangedRows(info.paymentDateMap, m);
    info.SetPaymentDateMap(newPaymentDateMap);
    paymentDates := info.paymentDates;
  }
}

/** The two versions agree. Reading the first version's key list and map as
    one ordered hash gives the second version's hash, both when the
    schedule is first built and after every rent change and method change;
    and the records both render carry the same dates and amounts. */
module Agreement {
  import opened Wrappers
  import opened CivilDate
  import opened Schedule
  import UtilConstants
  import UtilConstantsV2
  import opened PaymentInfoV1
  import opened PaymentInfoV2Entity
  import opened PaymentInfoServiceV2

  /** The first version's state as an ordered hash: the pairs in key-list
      order. */
  function RowsOf(keys: seq<Date>, entries: map<Date, Entry>): seq<Row>
    requires forall n :: 0 <= n < |keys| ==> keys[n] in entries
  {
    seq(|keys|, i requires 0 <= i < |keys| => Row(keys[i], entries[keys[i]]))
  }

  /** Both versions build the same entry for a base date. */
  lemma EntriesAgree(m: PaymentMethod, baseDate: Date, amount: int)
    ensures MethodEntry(m, baseDate, amount) == Details(m, baseDate, amount)
  {
    UtilConstantsV2.SameOffsets(m);
  }

  /** A schedule under any list of rent changes is the same in both
      versions; with no changes this is the schedule both constructors
      build. */
  lemma ScheduleAgrees(keys: seq<Date>, m: PaymentMethod, initial: int, changes: seq<RentChange>)
    ensures RowsOf(keys, EntriesUnder(keys, m, initial, changes)) == RowsUnder(keys, m, initial, changes)
  {
    forall i | 0 <= i < |keys|
      ensures RowsOf(keys, EntriesUnder(keys, m, initial, changes))[i] == RowsUnder(keys, m, initial, changes)[i]
    {
      EntriesAgree(m, keys[i], AmountAfter(initial, changes, keys[i]));
    }
  }

  /** Both constructions produce the same ordered hash for every lease. */
  lemma GenerationAgrees(rent: Rent)
    ensures var keys := DueDates(rent.startDate, rent.endDate, UtilConstants.RentFrequency(rent.frequency));
            RowsOf(keys, EntriesUnder(keys, rent.paymentMethod, rent.amount, []))
            == RowsUnder(DueDates(rent.startDate, rent.endDate, UtilConstantsV2.RentFrequency(rent.frequency)),
                         rent.paymentMethod, rent.amount, [])
  {
    UtilConstantsV2.SameFrequencies(rent.frequency);
    ScheduleAgrees(DueDates(rent.startDate, rent.endDate, UtilConstants.RentFrequency(rent.frequency)),
                   rent.paymentMethod, rent.amount, []);
  }

  /** Repricing in place and building an adjusted copy agree, on every
      state. */
  lemma RepricingAgrees(keys: seq<Date>, entries: map<Date, Entry>, c: RentChange)
    requires forall n :: 0 <= n < |keys| ==> keys[n] in entries
    ensures forall n :: 0 <= n < |keys| ==> keys[n] in Repriced(entries, c)
    ensures RowsOf(keys, Repriced(entries, c)) == AdjustedRows(RowsOf(keys, entries), c)
  {
  }

  /** Rebuilding for a method in place and building a changed copy agree,
      on every state. */
  lemma RebuildingAgrees(keys: seq<Date>, entries: map<Date, Entry>, m: PaymentMethod)
    requires forall n :: 0 <= n < |keys| ==> keys[n] in entries
    ensures forall n :: 0 <= n < |keys| ==> keys[n] in RebuiltForMethod(entries, m)
    ensures RowsOf(keys, RebuiltForMethod(entries, m)) == MethodChangedRows(RowsOf(keys, entries), m)
  {
    forall i | 0 <= i < |keys|
      ensures RowsOf(keys, RebuiltForMethod(entries, m))[i] == MethodChangedRows(RowsOf(keys, entries), m)[i]
    {
      UtilConstantsV2.SameOffsets(m);
    }
  }

  /** For the same hash the first version's records are the second's with
      fields left out: the same payment dates in the same order, the same
      amount wherever the first shows one, and the same method name wherever
      the first shows one, the second showing the empty name exactly where
      the first shows none. */
  lemma RenderingAgrees(keys: seq<Date>, entries: map<Date, Entry>, isAdjusted: bool, current: PaymentMethod,
                        n: nat)
    requires forall j :: 0 <= j < |keys| ==> keys[j] in entries && entries[keys[j]].paymentMethod == current
    requires n < |keys|
    ensures |Rendered(keys, entries, isAdjusted, current)| == |PaymentDatesOf(RowsOf(keys, entries))| == |keys|
    ensures var r1, r2 := Rendered(keys, entries, isAdjusted, current)[n], PaymentDatesOf(RowsOf(keys, entries))[n];
            r1.paymentDate == r2.paymentDate
            && (r1.amount.Some? ==> r1.amount.value == r2.amount)
            && (r1.methodName.Nothing? <==> r2.methodName == "")
            && (r1.methodName.Some? ==> r1.methodName.value == r2.methodName)
  {
    RenderedAt(keys, entries, isAdjusted, current);
    assert MethodName(current) != "";
  }

  /** The two objects describe the same lease and the same schedule. */
  ghost predicate Agree(v1: PaymentInfo, v2: PaymentInfoV2)
    reads v1, v2
  {
    v2.amount == v1.rent.amount && v2.frequency == v1.rent.frequency
    && v2.startDate == v1.rent.startDate && v2.endDate == v1.rent.endDate
    && (forall n :: 0 <= n < |v1.paymentDateKeys| ==> v1.paymentDateKeys[n] in v1.paymentDateMap)
    && v2.paymentDateMap == RowsOf(v1.paymentDateKeys, v1.paymentDateMap)
  }

  /** Both versions built from the same terms agree. */
  method BuildBoth(terms: Rent) returns (v1: PaymentInfo, v2: PaymentInfoV2)
    ensures fresh(v1) && fresh(v2) && v1.Valid() && v2.Valid() && Agree(v1, v2)
  {
    v1 := new PaymentInfo(terms);
    v2 := BuildPaymentInfo(terms);
    GenerationAgrees(terms);
  }

  /** The same parsed rent change applied to agreeing objects (the first
      version's `adjust_rent` once its validation passed) leaves them
      agreeing, and the records each returns are those of the shared hash. */
  method AdjustBoth(v1: PaymentInfo, v2: PaymentInfoV2, c: RentChange)
      returns (r1: seq<Record>, r2: seq<RecordV2>)
    requires v1.Valid() && v2.Valid() && Agree(v1, v2)
    modifies v1, v2
    ensures v1.Valid() && v2.Valid() && Agree(v1, v2)
    ensures r1 == Rendered(v1.paymentDateKeys, v1.paymentDateMap, v1.isAdjusted, v1.rent.paymentMethod)
    ensures r2 == PaymentDatesOf(RowsOf(v1.paymentDateKeys, v1.paymentDateMap))
  {
    RepricingAgrees(v1.paymentDateKeys, v1.paymentDateMap, c);
    v1.Reprice(c);
    r2 := AdjustRent(v2, c);
    r1 := v1.GetPaymentDates();
  }

  /** The same validated method applied to agreeing objects leaves them
      agreeing. */
  method ChangeMethodBoth(v1: PaymentInfo, v2: PaymentInfoV2, m: PaymentMethod)
      returns (r1: seq<Record>, r2: seq<RecordV2>)
    requires v1.Valid() && v2.Valid() && Agree(v1, v2)
    modifies v1, v2
    ensures v1.Valid() && v2.Valid() && Agree(v1, v2)
    ensures r1 == Rendered(v1.paymentDateKeys, v1.paymentDateMap, v1.isAdjusted, v1.rent.paymentMethod)
    ensures r2 == PaymentDatesOf(RowsOf(v1.paymentDateKeys, v1.paymentDateMap))
  {
    RebuildingAgrees(v1.paymentDateKeys, v1.paymentDateMap, m);
    v1.Rebuild(m);
    r2 := AddOrChangePaymentMethod(v2, m);
    r1 := v1.GetPaymentDates();
  }
}

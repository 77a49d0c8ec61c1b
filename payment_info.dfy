/** The first version's `PaymentInfo`: a lease expanded once into base due
    dates, kept as an ordered key list and a map from base date to entry,
    repriced in place by rent changes, rebuilt when the payment method
    changes, and rendered as records whose fields depend on a sticky
    "adjusted" flag and on the current method. */
module PaymentInfoV1 {
  import opened Wrappers
  import opened CivilDate
  import opened Schedule
  import opened UtilConstants
  import opened RentUtils

  /** One record of `get_payment_dates`; a field the record leaves out is
      `Nothing`. The `payment_date` field holds the text of a date; the
      record keeps the date and `PaymentDateText` gives that text. */
  datatype Record = Record(paymentDate: Date, amount: Option<int>, methodName: Option<string>)
  {
    /** `values[:payment_date].to_s`. */
    function PaymentDateText(): string {
      Format(paymentDate)
    }
  }

  /** `build_method_entry(base_date, amount)` under method `m`: the payment
      is made `PAYMENT_METHOD[m]` days before the base date. */
  function MethodEntry(m: PaymentMethod, baseDate: Date, amount: int): Entry {
    Entry(SubDays(baseDate, PaymentMethodOffset(m)), amount, m)
  }

  /** An entry carries the amount and method it was built with, and its
      payment date lies exactly the method's offset before the base date,
      so never after it. */
  lemma MethodEntryPaysAhead(m: PaymentMethod, baseDate: Date, amount: int)
    ensures var e := MethodEntry(m, baseDate, amount);
            e.amount == amount && e.paymentMethod == m
            && AddDays(e.paymentDate, PaymentMethodOffset(m)) == baseDate
            && !Less(baseDate, e.paymentDate)
  {
    var paymentDate := SubDays(baseDate, PaymentMethodOffset(m));
    OrdinalInjective(AddDays(paymentDate, PaymentMethodOffset(m)), baseDate);
  }

  /** The entries as `adjust_rent` leaves them. */
  function Repriced(entries: map<Date, Entry>, change: RentChange): map<Date, Entry> {
    map k | k in entries :: if AtLeast(k, change.effectiveDate) then entries[k].(amount := change.amount) else entries[k]
  }

  /** Repricing keeps the base dates, payment dates and methods; every entry
      due on or after the effective date takes the new amount and every
      earlier one is left as it was. */
  lemma RepricedEntries(entries: map<Date, Entry>, change: RentChange)
    ensures Repriced(entries, change).Keys == entries.Keys
    ensures forall k :: k in entries ==>
              Repriced(entries, change)[k].paymentDate == entries[k].paymentDate
              && Repriced(entries, change)[k].paymentMethod == entries[k].paymentMethod
    ensures forall k :: k in entries && AtLeast(k, change.effectiveDate) ==>
              Repriced(entries, change)[k].amount == change.amount
    ensures forall k :: k in entries && Less(k, change.effectiveDate) ==>
              Repriced(entries, change)[k] == entries[k]
  {
  }

  /** The entries as `add_or_change_payment_method` rebuilds them. */
  function RebuiltForMethod(entries: map<Date, Entry>, m: PaymentMethod): map<Date, Entry> {
    map k | k in entries :: MethodEntry(m, k, entries[k].amount)
  }

  /** Rebuilding keeps the base dates and amounts, sets the new method, and
      moves every payment date to the new method's offset before its base
      date. */
  lemma RebuiltEntries(entries: map<Date, Entry>, m: PaymentMethod)
    ensures RebuiltForMethod(entries, m).Keys == entries.Keys
    ensures forall k :: k in entries ==>
              RebuiltForMethod(entries, m)[k].amount == entries[k].amount
              && RebuiltForMethod(entries, m)[k].paymentMethod == m
              && AddDays(RebuiltForMethod(entries, m)[k].paymentDate, PaymentMethodOffset(m)) == k
  {
    forall k | k in entries
      ensures AddDays(RebuiltForMethod(entries, m)[k].paymentDate, PaymentMethodOffset(m)) == k
    {
      MethodEntryPaysAhead(m, k, entries[k].amount);
    }
  }

  /** A rent change and a method change commute: in either order every entry
      ends up as the new method's entry at the amount the change leaves in
      force. */
  lemma RepriceRebuildCommute(entries: map<Date, Entry>, c: RentChange, m: PaymentMethod)
    ensures RebuiltForMethod(Repriced(entries, c), m) == Repriced(RebuiltForMethod(entries, m), c)
  {
  }

  /** A credit-card payment due on 2024-01-01 is made two days earlier, on
      2023-12-30. */
  lemma CreditCardEntry()
    ensures MethodEntry(CreditCard, Ymd(2024, 1, 1), 1000) == Entry(Ymd(2023, 12, 30), 1000, CreditCard)
  {
  }

  /** A monthly candidate is the start date moved by whole months. */
  lemma MonthlyCandidate(start: Date, i: nat)
    ensures Candidate(start, RentFrequency(Monthly), i) == AddMonths(start, i)
  {
  }

  /** Monthly due dates keep the start date's day of the month wherever the
      month has it and fall back to the month's last day otherwise: due date
      `k` lies `k` months after the start, its day taken from the start
      date and not from the due date before it. */
  lemma MonthlyDueDatesClamped(start: Date, end: Date, k: nat)
    requires k < |DueDates(start, end, RentFrequency(Monthly))|
    ensures var d := DueDates(start, end, RentFrequency(Monthly))[k];
            MonthIndex(d) == MonthIndex(start) + k
            && d.day == Min(start.day, DaysInMonth(d.year, d.month))
  {
    DueDatesCharacterized(start, end, RentFrequency(Monthly));
    MonthlyCandidate(start, k);
  }

  /** A monthly lease from 2024-01-31 to 2024-04-30 falls due on 01-31,
      02-29 (clamped to the end of February) and 03-31 (computed from the
      start date, not from 02-29); the next candidate, 04-30, is not before
      the end date. */
  lemma EndOfMonthDueDates()
    ensures DueDates(Ymd(2024, 1, 31), Ymd(2024, 4, 30), RentFrequency(Monthly))
            == [Ymd(2024, 1, 31), Ymd(2024, 2, 29), Ymd(2024, 3, 31)]
  {
    var start: Date, end: Date := Ymd(2024, 1, 31), Ymd(2024, 4, 30);
    assert AddMonths(start, 1) == Ymd(2024, 2, 29);
    assert AddMonths(start, 2) == Ymd(2024, 3, 31);
    assert AddMonths(start, 3) == end;
    MonthlyCandidate(start, 0);
    MonthlyCandidate(start, 1);
    MonthlyCandidate(start, 2);
    MonthlyCandidate(start, 3);
    ThreeDueDates(start, end, RentFrequency(Monthly));
  }

  /** The record `get_payment_dates` makes of one entry. */
  function RecordOf(e: Entry, isAdjusted: bool, current: PaymentMethod): Record {
    Record(e.paymentDate,
           if isAdjusted || current != None then Some(e.amount) else Nothing,
           if current != None then Some(MethodName(e.paymentMethod)) else Nothing)
  }

  /** A record always has the payment date; it has the amount exactly when
      the schedule was adjusted or a method is set, and the method name
      exactly when a method is set. */
  lemma RecordFields(e: Entry, isAdjusted: bool, current: PaymentMethod)
    ensures var r := RecordOf(e, isAdjusted, current);
            r.PaymentDateText() == Format(e.paymentDate)
            && (r.amount.Some? <==> isAdjusted || current != None)
            && (r.amount.Some? ==> r.amount.value == e.amount)
            && (r.methodName.Some? <==> current != None)
            && (r.methodName.Some? ==> r.methodName.value == MethodName(e.paymentMethod))
  {
  }

  /** What `get_payment_dates` returns for the key list `keys`. */
  function Rendered(keys: seq<Date>, entries: map<Date, Entry>, isAdjusted: bool, current: PaymentMethod)
    : seq<Record>
    requires forall n :: 0 <= n < |keys| ==> keys[n] in entries
  {
    if keys == [] then []
    else Rendered(keys[..|keys| - 1], entries, isAdjusted, current)
         + [RecordOf(entries[keys[|keys| - 1]], isAdjusted, current)]
  }

  /** One record per key, in key order. */
  lemma {:induction false} RenderedAt(keys: seq<Date>, entries: map<Date, Entry>, isAdjusted: bool,
                                      current: PaymentMethod)
    requires forall n :: 0 <= n < |keys| ==> keys[n] in entries
    ensures |Rendered(keys, entries, isAdjusted, current)| == |keys|
    ensures forall n :: 0 <= n < |keys| ==>
              Rendered(keys, entries, isAdjusted, current)[n] == RecordOf(entries[keys[n]], isAdjusted, current)
  {
    if keys != [] {
      RenderedAt(keys[..|keys| - 1], entries, isAdjusted, current);
    }
  }

  /** The entries of a schedule over the base dates `keys` under method `m`:
      each one the method entry at the amount that the rent changes
      `changes`, applied in call order, leave in force on its base date.
      `build_payment_date_map` makes the one with no changes. */
  function EntriesUnder(keys: seq<Date>, m: PaymentMethod, initial: int, changes: seq<RentChange>)
    : map<Date, Entry>
  {
    map k | k in keys :: MethodEntry(m, k, AmountAfter(initial, changes, k))
  }

  /** One more base date adds its entry. */
  lemma EntriesUnderSnoc(keys: seq<Date>, k: Date, m: PaymentMethod, amount: int)
    ensures EntriesUnder(keys + [k], m, amount, []) == EntriesUnder(keys, m, amount, [])[k := MethodEntry(m, k, amount)]
  {
    assert AmountAfter(amount, [], k) == amount;
  }

  /** Repricing a schedule is applying one more rent change to it: the
      entries `adjust_rent` leaves are those of the longer change list. */
  lemma RepricedUnder(keys: seq<Date>, m: PaymentMethod, initial: int, changes: seq<RentChange>,
                      c: RentChange)
    ensures Repriced(EntriesUnder(keys, m, initial, changes), c) == EntriesUnder(keys, m, initial, changes + [c])
  {
    var before := EntriesUnder(keys, m, initial, changes);
    forall k | k in before
      ensures Repriced(before, c)[k] == EntriesUnder(keys, m, initial, changes + [c])[k]
    {
      LastWriteWins(initial, changes, c, k);
    }
  }

  /** Rebuilding a schedule for another method is building it under that
      method: the amounts in force do not depend on the method. */
  lemma RebuiltUnder(keys: seq<Date>, m: PaymentMethod, initial: int, changes: seq<RentChange>,
                     m2: PaymentMethod)
    ensures RebuiltForMethod(EntriesUnder(keys, m, initial, changes), m2) == EntriesUnder(keys, m2, initial, changes)
  {
  }

  /** The entries with every key of `done` that is due on or after the
      effective date repriced: the state part way through `adjust_rent`'s
      walk over the key list. */
  function RepricedAt(entries: map<Date, Entry>, done: seq<Date>, change: RentChange): map<Date, Entry> {
    map k | k in entries ::
      if k in done && AtLeast(k, change.effectiveDate) then entries[k].(amount := change.amount) else entries[k]
  }

  /** Walking one more key of a list without repeats reprices that key
      alone, and only when it is due on or after the effective date. */
  lemma RepricedAtStep(entries: map<Date, Entry>, keys: seq<Date>, j: nat, change: RentChange)
    requires j < |keys| && keys[j] in entries
    requires forall a :: 0 <= a < j ==> keys[a] != keys[j]
    ensures var r := RepricedAt(entries, keys[..j], change);
            keys[j] in r
            && RepricedAt(entries, keys[..j + 1], change)
               == if AtLeast(keys[j], change.effectiveDate) then r[keys[j] := r[keys[j]].(amount := change.amount)]
                  else r
  {
    assert keys[..j + 1] == keys[..j] + [keys[j]];
    assert keys[j] !in keys[..j];
  }

  /** Once every key is walked, the entries are repriced. */
  lemma RepricedAtAll(entries: map<Date, Entry>, keys: seq<Date>, change: RentChange)
    requires forall k :: k in entries ==> k in keys
    ensures RepricedAt(entries, keys, change) == Repriced(entries, change)
  {
  }

  /** Rendering one more key appends that key's record. */
  lemma RenderedPrefix(keys: seq<Date>, entries: map<Date, Entry>, isAdjusted: bool,
                       current: PaymentMethod, j: nat)
    requires forall n :: 0 <= n < |keys| ==> keys[n] in entries
    requires j < |keys|
    ensures Rendered(keys[..j + 1], entries, isAdjusted, current)
            == Rendered(keys[..j], entries, isAdjusted, current) + [RecordOf(entries[keys[j]], isAdjusted, current)]
  {
    assert keys[..j + 1][..j] == keys[..j];
  }

  /** One turn of the loop: the current term is the next due date, and
      mapping it adds its entry. */
  lemma ExpandStep(c: nat -> Date, end: Date, keys: seq<Date>, i: nat, m: PaymentMethod, amount: int)
    requires Increasing(c) && Less(c(i), end)
    requires DueDatesFrom(c, end, 0) == keys + DueDatesFrom(c, end, i)
    ensures DueDatesFrom(c, end, 0) == (keys + [c(i)]) + DueDatesFrom(c, end, i + 1)
    ensures EntriesUnder(keys, m, amount, [])[c(i) := MethodEntry(m, c(i), amount)]
            == EntriesUnder(keys + [c(i)], m, amount, [])
  {
    DueDatesFromStep(c, end, i);
    EntriesUnderSnoc(keys, c(i), m, amount);
  }

  /** The loop of `build_payment_date_map` over the series `c` of candidate
      due dates (term `i` computed from the start date): term after term
      while it lies before `end`, each one listed and mapped to its method
      entry. */
  method ExpandSchedule(c: nat -> Date, end: Date, m: PaymentMethod, amount: int)
    returns (keys: seq<Date>, dateMap: map<Date, Entry>)
    requires Increasing(c)
    ensures keys == DueDatesFrom(c, end, 0)
    ensures dateMap == EntriesUnder(keys, m, amount, [])
  {
    keys, dateMap := [], map[];
    var i := 0;
    var current := c(i);
    while Less(current, end)
      invariant current == c(i)
      invariant DueDatesFrom(c, end, 0) == keys + DueDatesFrom(c, end, i)
      invariant dateMap == EntriesUnder(keys, m, amount, [])
      decreases |DueDatesFrom(c, end, 0)| - |keys|
    {
      ExpandStep(c, end, keys, i, m, amount);
      dateMap := dateMap[current := MethodEntry(m, current, amount)];
      keys := keys + [current];
      i := i + 1;
      current := c(i);
    }
    DueDatesFromStep(c, end, i);
  }

  /** The state of one `PaymentInfo`. */
  class PaymentInfo {
    /** `@rent`; the `method` key is the current payment method. */
    var rent: Rent
    /** `@payment_date_keys`, in generation order. */
    var paymentDateKeys: seq<Date>
    /** `@payment_date_map`. */
    var paymentDateMap: map<Date, Entry>
    /** `@is_adjusted`. */
    var isAdjusted: bool
    /** The rent changes applied so far, in call order. */
    ghost var changes: seq<RentChange>

    /** The keys are the lease's due dates; each entry is the method entry of
        the current method, at the amount the applied changes leave in force
        on its base date; and the flag is up exactly when a change was made. */
    ghost predicate Valid()
      reads this
    {
      paymentDateKeys == DueDates(rent.startDate, rent.endDate, RentFrequency(rent.frequency))
      && paymentDateMap == EntriesUnder(paymentDateKeys, rent.paymentMethod, rent.amount, changes)
      && (isAdjusted <==> changes != [])
    }

    /** `initialize` on terms that passed `validate_rent`. */
    constructor (terms: Rent)
      ensures Valid()
      ensures rent == terms && !isAdjusted && changes == []
    {
      rent := terms;
      paymentDateKeys := [];
      isAdjusted := false;
      changes := [];
      new;
      var dateMap := BuildPaymentDateMap();
      paymentDateMap := dateMap;
    }

    /** `build_payment_date_map`: the lease's candidates are walked from the
        start date while they lie before the end date; each one is appended
        to the key list and mapped to its method entry. */
    method BuildPaymentDateMap() returns (dateMap: map<Date, Entry>)
      modifies this`paymentDateKeys
      ensures paymentDateKeys == old(paymentDateKeys) + DueDates(rent.startDate, rent.endDate, RentFrequency(rent.frequency))
      ensures dateMap == EntriesUnder(DueDates(rent.startDate, rent.endDate, RentFrequency(rent.frequency)),
                                      rent.paymentMethod, rent.amount, [])
    {
      var step := RentFrequency(rent.frequency);
      CandidatesIncreasing(rent.startDate, step);
      var keys;
      keys, dateMap := ExpandSchedule(Candidates(rent.startDate, step), rent.endDate, rent.paymentMethod, rent.amount);
      paymentDateKeys := paymentDateKeys + keys;
    }

    /** `get_payment_dates`. */
    method GetPaymentDates() returns (records: seq<Record>)
      requires forall n :: 0 <= n < |paymentDateKeys| ==> paymentDateKeys[n] in paymentDateMap
      ensures records == Rendered(paymentDateKeys, paymentDateMap, isAdjusted, rent.paymentMethod)
    {
      records := [];
      var j := 0;
      while j < |paymentDateKeys|
        invariant 0 <= j <= |paymentDateKeys|
        invariant records == Rendered(paymentDateKeys[..j], paymentDateMap, isAdjusted, rent.paymentMethod)
      {
        var values := paymentDateMap[paymentDateKeys[j]];
        var amount: Option<int> := Nothing;
        var methodName: Option<string> := Nothing;
        if isAdjusted {
          amount := Some(values.amount);
        }
        if rent.paymentMethod != None {
          methodName := Some(MethodName(values.paymentMethod));
          amount := Some(values.amount);
        }
        var entry := Record(values.paymentDate, amount, methodName);
        assert entry == RecordOf(values, isAdjusted, rent.paymentMethod);
        RenderedPrefix(paymentDateKeys, paymentDateMap, isAdjusted, rent.paymentMethod, j);
        records := records + [entry];
        j := j + 1;
      }
      assert paymentDateKeys[..j] == paymentDateKeys;
    }

    /** `adjust_rent`: validates the change (which writes the parsed date into
        the caller's hash), sets the new amount on every entry due on or after
        the effective date, raises the flag and renders. An invalid change
        raises before anything of this object changes. */
    method AdjustRent(change: InputHash) returns (r: Result<seq<Record>, Error>)
      requires Valid()
      modifies this, change
      ensures Valid()
      ensures RentChangeOf(old(change.entries)).Err? ==>
                r == Err(RentChangeOf(old(change.entries)).error)
                && change.entries == old(change.entries)
                && rent == old(rent) && paymentDateKeys == old(paymentDateKeys)
                && paymentDateMap == old(paymentDateMap) && isAdjusted == old(isAdjusted)
                && changes == old(changes)
      ensures RentChangeOf(old(change.entries)).Ok? ==>
                var c := RentChangeOf(old(change.entries)).value;
                change.entries == old(change.entries)["effective_date" := DateValue(c.effectiveDate)]
                && rent == old(rent) && paymentDateKeys == old(paymentDateKeys)
                && paymentDateMap == Repriced(old(paymentDateMap), c)
                && isAdjusted && changes == old(changes) + [c]
                && r == Ok(Rendered(paymentDateKeys, paymentDateMap, isAdjusted, rent.paymentMethod))
    {
      var parsed := ValidateRentChange(change);
      if parsed.Err? {
        return Err(parsed.error);
      }
      Reprice(parsed.value);
      var records := GetPaymentDates();
      r := Ok(records);
    }

    /** The body of `adjust_rent` after validation: the entries are
        repriced and the flag raised. */
    method Reprice(c: RentChange)
      requires Valid()
      modifies this`paymentDateMap, this`isAdjusted, this`changes
      ensures Valid()
      ensures paymentDateMap == Repriced(old(paymentDateMap), c)
      ensures isAdjusted && changes == old(changes) + [c]
    {
      DueDatesDistinct(rent.startDate, rent.endDate, RentFrequency(rent.frequency));
      RepricedUnder(paymentDateKeys, rent.paymentMethod, rent.amount, changes, c);
      RepriceEntries(c);
      isAdjusted := true;
      changes := changes + [c];
    }

    /** The walk of `adjust_rent` over the entries, in key order: every entry
        due on or after the effective date takes the new amount, in place. */
    method RepriceEntries(c: RentChange)
      requires forall a, b :: 0 <= a < b < |paymentDateKeys| ==> paymentDateKeys[a] != paymentDateKeys[b]
      requires forall k :: k in paymentDateMap <==> k in paymentDateKeys
      modifies this`paymentDateMap
      ensures paymentDateMap == Repriced(old(paymentDateMap), c)
    {
      ghost var before := paymentDateMap;
      var j := 0;
      while j < |paymentDateKeys|
        invariant 0 <= j <= |paymentDateKeys|
        invariant paymentDateMap == RepricedAt(before, paymentDateKeys[..j], c)
      {
        var payment := paymentDateKeys[j];
        RepricedAtStep(before, paymentDateKeys, j, c);
        if AtLeast(payment, c.effectiveDate) {
          paymentDateMap := paymentDateMap[payment := paymentDateMap[payment].(amount := c.amount)];
        }
        j := j + 1;
      }
      assert paymentDateKeys[..j] == paymentDateKeys;
      RepricedAtAll(before, paymentDateKeys, c);
    }

    /** `add_or_change_payment_method`: sets the validated method and rebuilds
        every entry for it, keeping the amounts and the keys. An invalid
        method raises before anything changes. */
    method AddOrChangePaymentMethod(paymentMethod: Value) returns (r: Result<seq<Record>, Error>)
      requires Valid()
      modifies this
      ensures Valid()
      ensures ValidatePaymentMethod(paymentMethod).Err? ==>
                r == Err(ValidatePaymentMethod(paymentMethod).error)
                && rent == old(rent) && paymentDateKeys == old(paymentDateKeys)
                && paymentDateMap == old(paymentDateMap) && isAdjusted == old(isAdjusted)
                && changes == old(changes)
      ensures ValidatePaymentMethod(paymentMethod).Ok? ==>
                var m := ValidatePaymentMethod(paymentMethod).value;
                rent == old(rent).(paymentMethod := m) && paymentDateKeys == old(paymentDateKeys)
                && paymentDateMap == RebuiltForMethod(old(paymentDateMap), m)
                && isAdjusted == old(isAdjusted) && changes == old(changes)
                && r == Ok(Rendered(paymentDateKeys, paymentDateMap, isAdjusted, m))
    {
      var validated := ValidatePaymentMethod(paymentMethod);
      if validated.Err? {
        return Err(validated.error);
      }
      Rebuild(validated.value);
      var records := GetPaymentDates();
      r := Ok(records);
    }

    /** The body of `add_or_change_payment_method` after validation: the new
        method is set and every entry rebuilt for it at its amount. */
    method Rebuild(m: PaymentMethod)
      requires Valid()
      modifies this`rent, this`paymentDateMap
      ensures Valid()
      ensures rent == old(rent).(paymentMethod := m)
      ensures paymentDateMap == RebuiltForMethod(old(paymentDateMap), m)
    {
      RebuiltUnder(paymentDateKeys, rent.paymentMethod, rent.amount, changes, m);
      rent := rent.(paymentMethod := m);
      paymentDateMap := map k | k in paymentDateMap :: MethodEntry(rent.paymentMethod, k, paymentDateMap[k].amount);
    }
  }

  /** `PaymentInfo.new(rent)`: validation first, so invalid input raises and
      no object is built. */
  method NewPaymentInfo(input: Hash) returns (r: Result<PaymentInfo, Error>)
    ensures r.Err? <==> ValidateRent(input).Err?
    ensures r.Err? ==> r.error == ValidateRent(input).error
    ensures r.Ok? ==> fresh(r.value) && r.value.Valid() && r.value.rent == ValidateRent(input).value
                      && !r.value.isAdjusted && r.value.changes == []
  {
    var terms := ValidateRent(input);
    if terms.Err? {
      return Err(terms.error);
    }
    var info := new PaymentInfo(terms.value);
    r := Ok(info);
  }
}

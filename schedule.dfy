/** The vocabulary both versions of the rent engine share: the Ruby symbols
    for frequencies and payment methods, the parsed lease terms, a schedule
    entry, and the rule that expands (start, end, step) into due dates. */
module Schedule {
  import opened CivilDate

  /** The keys of `RENT_FREQUENCY` (`:monthly`, `:fortnightly`, `:weekly`). */
  datatype Frequency = Monthly | Fortnightly | Weekly

  /** The keys of `PAYMENT_METHOD`; `None` is the symbol `:none`. */
  datatype PaymentMethod = CreditCard | BankTransfer | Instant | None

  /** `Symbol#to_s` of a frequency. */
  function FrequencyName(f: Frequency): string {
    match f
    case Monthly => "monthly"
    case Fortnightly => "fortnightly"
    case Weekly => "weekly"
  }

  /** `Symbol#to_s` of a payment method. */
  function MethodName(m: PaymentMethod): (s: string)
    ensures s != ""
  {
    match m
    case CreditCard => "credit_card"
    case BankTransfer => "bank_transfer"
    case Instant => "instant"
    case None => "none"
  }

  /** A `{ months:, days: }` increment of a frequency table. */
  datatype Step = Step(months: int, days: int)

  /** Both components non-negative and one of them positive: every step
      moves forward in time. */
  predicate Advancing(step: Step) {
    step.months >= 0 && step.days >= 0 && (step.months > 0 || step.days > 0)
  }

  /** Lease terms after parsing: what `@rent` (v1) and the parsed rent hash
      (v2) hold. */
  datatype Rent = Rent(amount: int, frequency: Frequency, startDate: Date, endDate: Date,
                       paymentMethod: PaymentMethod)

  /** A parsed rent change. */
  datatype RentChange = RentChange(amount: int, effectiveDate: Date)

  /** The details hash kept for one base due date. */
  datatype Entry = Entry(paymentDate: Date, amount: int, paymentMethod: PaymentMethod)

  /** The i-th candidate due date, `(start >> (i*months)) + (i*days)`: always
      computed from the start date, never from the previous candidate. */
  function Candidate(start: Date, step: Step, i: nat): Date {
    AddDays(AddMonths(start, i * step.months), i * step.days)
  }

  /** Each candidate lies strictly after the one before it. */
  lemma CandidateAdvances(start: Date, step: Step, i: nat)
    requires Advancing(step)
    ensures Less(Candidate(start, step, i), Candidate(start, step, i + 1))
  {
    var a, b := AddMonths(start, i * step.months), AddMonths(start, (i + 1) * step.months);
    if step.months > 0 {
      assert i * step.months < (i + 1) * step.months;
      AddMonthsMonotone(start, i * step.months, (i + 1) * step.months);
      LessIsOrdinalLess(a, b);
    } else {
      assert a == b;
    }
    assert i * step.days <= (i + 1) * step.days;
    LessIsOrdinalLess(Candidate(start, step, i), Candidate(start, step, i + 1));
  }

  /** The candidates of a lease as one strictly increasing series. */
  function Candidates(start: Date, step: Step): nat -> Date {
    (i: nat) => Candidate(start, step, i)
  }

  /** Every term of the series lies strictly after the one before it. */
  ghost predicate Increasing(c: nat -> Date) {
    forall i: nat :: StepsUp(c, i)
  }

  /** Term `i + 1` lies strictly after term `i`. */
  ghost predicate StepsUp(c: nat -> Date, i: nat) {
    Less(c(i), c(i + 1))
  }

  lemma CandidatesIncreasing(start: Date, step: Step)
    requires Advancing(step)
    ensures Increasing(Candidates(start, step))
  {
    forall i: nat ensures StepsUp(Candidates(start, step), i) {
      CandidateAdvances(start, step, i);
    }
  }

  /** The terms of `c` from the i-th on, taken while they lie strictly before
      `end`; the first one that does not ends the list. */
  function DueDatesFrom(c: nat -> Date, end: Date, i: nat): seq<Date>
    requires Increasing(c)
    decreases Ordinal(end) - Ordinal(c(i))
  {
    if Less(c(i), end) then
      LessIsOrdinalLess(c(i), end);
      assert StepsUp(c, i);
      LessIsOrdinalLess(c(i), c(i + 1));
      [c(i)] + DueDatesFrom(c, end, i + 1)
    else
      []
  }

  /** The k-th element of `DueDatesFrom(c, end, i)` is term `i + k`, and it
      lies before `end`. */
  lemma {:induction false} DueDatesFromAt(c: nat -> Date, end: Date, i: nat, k: nat)
    requires Increasing(c)
    requires k < |DueDatesFrom(c, end, i)|
    ensures DueDatesFrom(c, end, i)[k] == c(i + k)
    ensures Less(c(i + k), end)
    decreases k
  {
    if k > 0 {
      DueDatesFromAt(c, end, i + 1, k - 1);
    }
  }

  /** The term right after the list is not before `end`. */
  lemma {:induction false} DueDatesFromStops(c: nat -> Date, end: Date, i: nat)
    requires Increasing(c)
    ensures !Less(c(i + |DueDatesFrom(c, end, i)|), end)
    decreases Ordinal(end) - Ordinal(c(i))
  {
    if Less(c(i), end) {
      LessIsOrdinalLess(c(i), end);
      assert StepsUp(c, i);
      LessIsOrdinalLess(c(i), c(i + 1));
      DueDatesFromStops(c, end, i + 1);
    }
  }

  /** One step of the expansion, for a loop that walks the series: a term
      before `end` is the head of the rest, and a term that is not ends it. */
  lemma DueDatesFromStep(c: nat -> Date, end: Date, i: nat)
    requires Increasing(c)
    ensures Less(c(i), end) ==> DueDatesFrom(c, end, i) == [c(i)] + DueDatesFrom(c, end, i + 1)
    ensures !Less(c(i), end) ==> DueDatesFrom(c, end, i) == []
  {
  }

  /** The series of a lease at index i is candidate i. */
  lemma CandidatesAt(start: Date, step: Step, i: nat)
    ensures Candidates(start, step)(i) == Candidate(start, step, i)
  {
  }

  /** The base due dates of a lease: candidates 0, 1, 2, ... while before `end`. */
  function DueDates(start: Date, end: Date, step: Step): seq<Date>
    requires Advancing(step)
  {
    CandidatesIncreasing(start, step);
    DueDatesFrom(Candidates(start, step), end, 0)
  }

  /** What `DueDates` holds: the k-th due date is candidate k and lies before
      `end`, and the candidate that follows the last one does not. */
  lemma DueDatesCharacterized(start: Date, end: Date, step: Step)
    requires Advancing(step)
    ensures forall k :: 0 <= k < |DueDates(start, end, step)| ==>
              DueDates(start, end, step)[k] == Candidate(start, step, k)
              && Less(Candidate(start, step, k), end)
    ensures !Less(Candidate(start, step, |DueDates(start, end, step)|), end)
  {
    CandidatesIncreasing(start, step);
    var c := Candidates(start, step);
    forall k | 0 <= k < |DueDates(start, end, step)|
      ensures DueDates(start, end, step)[k] == Candidate(start, step, k)
      ensures Less(Candidate(start, step, k), end)
    {
      DueDatesFromAt(c, end, 0, k);
    }
    DueDatesFromStops(c, end, 0);
  }

  /** A lease that does not start before it ends has no due dates. */
  lemma NoDueDatesWithoutTerm(start: Date, end: Date, step: Step)
    requires Advancing(step)
    ensures !Less(start, end) <==> DueDates(start, end, step) == []
  {
    AddMonthsZero(start);
    assert Candidate(start, step, 0) == start;
    DueDatesCharacterized(start, end, step);
  }

  /** The due dates are exactly the candidates before the first one that is
      not before `end`: a list with these properties is `DueDates`. */
  lemma DueDatesUnique(start: Date, end: Date, step: Step, s: seq<Date>)
    requires Advancing(step)
    requires forall k :: 0 <= k < |s| ==> s[k] == Candidate(start, step, k) && Less(s[k], end)
    requires !Less(Candidate(start, step, |s|), end)
    ensures s == DueDates(start, end, step)
  {
    var r := DueDates(start, end, step);
    DueDatesCharacterized(start, end, step);
    assert forall k :: 0 <= k < |s| ==> Less(Candidate(start, step, k), end);
    assert |r| == |s|;
  }

  /** A series whose third term lies before `end` and whose fourth does not
      gives exactly its first three terms. */
  lemma ThreeTermsBefore(c: nat -> Date, end: Date)
    requires Increasing(c)
    requires Less(c(2), end) && !Less(c(3), end)
    ensures DueDatesFrom(c, end, 0) == [c(0), c(1), c(2)]
  {
    assert StepsUp(c, 0) && StepsUp(c, 1);
    LessTransitive(c(1), c(2), end);
    LessTransitive(c(0), c(1), end);
    DueDatesFromStep(c, end, 0);
    DueDatesFromStep(c, end, 1);
    DueDatesFromStep(c, end, 2);
    DueDatesFromStep(c, end, 3);
  }

  /** A lease whose third candidate lies before the end date and whose
      fourth does not falls due exactly on its first three candidates. */
  lemma ThreeDueDates(start: Date, end: Date, step: Step)
    requires Advancing(step)
    requires Less(Candidate(start, step, 2), end) && !Less(Candidate(start, step, 3), end)
    ensures DueDates(start, end, step)
            == [Candidate(start, step, 0), Candidate(start, step, 1), Candidate(start, step, 2)]
  {
    CandidatesIncreasing(start, step);
    ThreeTermsBefore(Candidates(start, step), end);
  }

  /** A term of an increasing series lies before every later term. */
  lemma {:induction false} SeriesIncreasing(c: nat -> Date, j: nat, k: nat)
    requires Increasing(c)
    requires j < k
    ensures Less(c(j), c(k))
    decreases k - j
  {
    assert StepsUp(c, j);
    if j + 1 < k {
      SeriesIncreasing(c, j + 1, k);
      LessTransitive(c(j), c(j + 1), c(k));
    }
  }

  /** The listed terms of an increasing series increase strictly. */
  lemma DueDatesFromIncreasing(c: nat -> Date, end: Date, i: nat, j: nat, k: nat)
    requires Increasing(c)
    requires j < k < |DueDatesFrom(c, end, i)|
    ensures Less(DueDatesFrom(c, end, i)[j], DueDatesFrom(c, end, i)[k])
  {
    DueDatesFromAt(c, end, i, j);
    DueDatesFromAt(c, end, i, k);
    SeriesIncreasing(c, i + j, i + k);
  }

  /** Part way through the walk, every term listed so far lies before the
      current term, so the current term is not yet listed. */
  lemma WalkedBefore(c: nat -> Date, end: Date, walked: seq<Date>, i: nat)
    requires Increasing(c)
    requires |walked| == i && DueDatesFrom(c, end, 0) == walked + DueDatesFrom(c, end, i)
    ensures forall n :: 0 <= n < |walked| ==> Less(walked[n], c(i))
  {
    forall n | 0 <= n < |walked|
      ensures Less(walked[n], c(i))
    {
      DueDatesFromAt(c, end, 0, n);
      SeriesIncreasing(c, n, i);
    }
  }

  /** Due dates increase strictly. */
  lemma DueDatesIncreasing(start: Date, end: Date, step: Step, j: nat, k: nat)
    requires Advancing(step)
    requires j < k < |DueDates(start, end, step)|
    ensures Less(DueDates(start, end, step)[j], DueDates(start, end, step)[k])
  {
    CandidatesIncreasing(start, step);
    DueDatesFromIncreasing(Candidates(start, step), end, 0, j, k);
  }

  /** No base date occurs twice. */
  lemma DueDatesDistinct(start: Date, end: Date, step: Step)
    requires Advancing(step)
    ensures forall a, b :: 0 <= a < b < |DueDates(start, end, step)| ==>
              DueDates(start, end, step)[a] != DueDates(start, end, step)[b]
  {
    CandidatesIncreasing(start, step);
    var c := Candidates(start, step);
    forall a, b | 0 <= a < b < |DueDatesFrom(c, end, 0)|
      ensures DueDatesFrom(c, end, 0)[a] != DueDatesFrom(c, end, 0)[b]
    {
      DueDatesFromIncreasing(c, end, 0, a, b);
    }
  }

  // ---------------------------------------------------------------------
  // Successive rent changes

  /** The amount in force on `base` after the rent changes `changes` were
      applied in call order to a schedule built with `initial`: each change
      overwrites every entry due on or after its effective date. */
  function AmountAfter(initial: int, changes: seq<RentChange>, base: Date): int
    decreases |changes|
  {
    if changes == [] then initial
    else
      var last := changes[|changes| - 1];
      if AtLeast(base, last.effectiveDate) then last.amount
      else AmountAfter(initial, changes[..|changes| - 1], base)
  }

  /** No change reaches `base`: the initial amount stays in force. */
  lemma {:induction false} AmountAfterUnreached(initial: int, changes: seq<RentChange>, base: Date)
    requires forall j :: 0 <= j < |changes| ==> Less(base, changes[j].effectiveDate)
    ensures AmountAfter(initial, changes, base) == initial
    decreases |changes|
  {
    if changes != [] {
      var init := changes[..|changes| - 1];
      assert forall j :: 0 <= j < |init| ==> init[j] == changes[j];
      AmountAfterUnreached(initial, init, base);
    }
  }

  /** Change `j` reaches `base` and no later one does: its amount is in
      force. */
  lemma {:induction false} AmountAfterLatest(initial: int, changes: seq<RentChange>, base: Date, j: nat)
    requires j < |changes| && AtLeast(base, changes[j].effectiveDate)
    requires forall l :: j < l < |changes| ==> Less(base, changes[l].effectiveDate)
    ensures AmountAfter(initial, changes, base) == changes[j].amount
    decreases |changes|
  {
    if j < |changes| - 1 {
      var init := changes[..|changes| - 1];
      assert Less(base, changes[|changes| - 1].effectiveDate);
      assert forall l :: 0 <= l < |init| ==> init[l] == changes[l];
      AmountAfterLatest(initial, init, base, j);
    }
  }

  /** Last write wins: whatever came before, the latest change that reaches
      `base` decides its amount, even when an earlier call used a later
      effective date. */
  lemma LastWriteWins(initial: int, changes: seq<RentChange>, c: RentChange, base: Date)
    ensures AmountAfter(initial, changes + [c], base)
            == if AtLeast(base, c.effectiveDate) then c.amount else AmountAfter(initial, changes, base)
  {
    assert (changes + [c])[..|changes|] == changes;
  }
}

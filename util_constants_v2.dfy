/** The constant tables of the second version. They are written out again in
    that version's own constants file; the lemmas below show that they are
    the first version's tables. */
module UtilConstantsV2 {
  import opened Schedule
  import UtilConstants

  /** `RENT_FREQUENCY` of the second version. */
  function RentFrequency(f: Frequency): (s: Step)
    ensures Advancing(s)
    ensures (s.months == 0) != (s.days == 0)
  {
    match f
    case Monthly => Step(1, 0)
    case Fortnightly => Step(0, 14)
    case Weekly => Step(0, 7)
  }

  /** `PAYMENT_METHOD` of the second version. */
  function PaymentMethodOffset(m: PaymentMethod): (n: int)
    ensures n >= 0
    ensures n == 0 <==> m == Instant || m == None
  {
    match m
    case CreditCard => 2
    case BankTransfer => 3
    case Instant => 0
    case None => 0
  }

  /** Both versions step through the calendar alike. */
  lemma SameFrequencies(f: Frequency)
    ensures RentFrequency(f) == UtilConstants.RentFrequency(f)
  {
  }

  /** Both versions pay ahead by the same number of days. */
  lemma SameOffsets(m: PaymentMethod)
    ensures PaymentMethodOffset(m) == UtilConstants.PaymentMethodOffset(m)
  {
  }
}

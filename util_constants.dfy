/** The constant tables of the first version: the step of each rent
    frequency, the days each payment method pays ahead of the due date, the
    fields a rent and a rent change must carry, and the date pattern. */
module UtilConstants {
  import opened Wrappers
  import opened CivilDate
  import opened Schedule

  /** `RENT_FREQUENCY`: the months and days between two due dates. Every step
      moves forward, by months or by days but never both. */
  function RentFrequency(f: Frequency): (s: Step)
    ensures Advancing(s)
    ensures (s.months == 0) != (s.days == 0)
  {
    match f
    case Monthly => Step(1, 0)
    case Fortnightly => Step(0, 14)
    case Weekly => Step(0, 7)
  }

  /** `PAYMENT_METHOD`: how many days before the due date the payment is
      made. No method pays late. */
  function PaymentMethodOffset(m: PaymentMethod): (n: int)
    ensures n >= 0
    ensures n == 0 <==> m == Instant || m == None
  {
    match m
    case CreditCard => 2
    case BankTransfer => 3
    case Instant => 0
    case None => 0
  }

  /** `RENT_FREQUENCY.has_key?(s.to_sym)`, returning the key that matched. */
  function FrequencyNamed(s: string): (r: Option<Frequency>)
    ensures r.Some? ==> FrequencyName(r.value) == s
  {
    if s == "monthly" then Some(Monthly)
    else if s == "fortnightly" then Some(Fortnightly)
    else if s == "weekly" then Some(Weekly)
    else Nothing
  }

  /** `PAYMENT_METHOD.has_key?(s.to_sym)`, returning the key that matched. */
  function MethodNamed(s: string): (r: Option<PaymentMethod>)
    ensures r.Some? ==> MethodName(r.value) == s
  {
    if s == "credit_card" then Some(CreditCard)
    else if s == "bank_transfer" then Some(BankTransfer)
    else if s == "instant" then Some(Instant)
    else if s == "none" then Some(None)
    else Nothing
  }

  /** Every frequency symbol is found under its own name, so the name lookup
      is exactly the inverse of `Symbol#to_s`. */
  lemma FrequencyNamedInverse(f: Frequency, s: string)
    ensures FrequencyNamed(s) == Some(f) <==> s == FrequencyName(f)
  {
  }

  lemma MethodNamedInverse(m: PaymentMethod, s: string)
    ensures MethodNamed(s) == Some(m) <==> s == MethodName(m)
  {
  }

  /** `RENT_REQUIRED_FIELDS`: `payment_method` is optional. */
  const RentRequiredFields: seq<string> := ["amount", "frequency", "start_date", "end_date"]

  /** `RENT_CHANGE_REQUIRED_FIELDS`. */
  const RentChangeRequiredFields: seq<string> := ["amount", "effective_date"]

  /** The text matched by `DATE_REGEXP` with a month of `ml` digits and a day
      of `dl` digits: four digits, `-`, the month digits, `-`, the day digits. */
  predicate DateShape(s: string, ml: int, dl: int)
    requires 1 <= ml <= 2 && 1 <= dl <= 2
  {
    |s| == 6 + ml + dl
    && AllDigits(s[..4]) && s[4] == '-'
    && AllDigits(s[5..5 + ml]) && s[5 + ml] == '-'
    && AllDigits(s[6 + ml..])
  }

  /** `s.match(DATE_REGEXP)` for `/^\d{4}-\d{1,2}-\d{1,2}$/`, read as a match of
      the whole string. */
  predicate MatchesDateRegexp(s: string) {
    exists ml, dl | 1 <= ml <= 2 && 1 <= dl <= 2 :: DateShape(s, ml, dl)
  }

  /** The width of the month run of a matching string: the second dash sits
      at index 6 or 7, and only one of the two shapes fits. */
  function MonthWidth(s: string): (ml: int)
    requires MatchesDateRegexp(s)
    ensures 1 <= ml <= 2 && 1 <= |s| - 6 - ml <= 2 && DateShape(s, ml, |s| - 6 - ml)
    ensures forall w, dl | 1 <= w <= 2 && 1 <= dl <= 2 :: DateShape(s, w, dl) ==> w == ml
  {
    if s[6] == '-' then 1 else 2
  }

  /** The date text Ruby prints matches the pattern, for four-digit years. */
  lemma FormatMatchesDateRegexp(d: Date)
    requires 0 <= d.year <= 9999
    ensures MatchesDateRegexp(Format(d))
  {
    FormatLayout(d);
    assert DateShape(Format(d), 2, 2);
  }
}
